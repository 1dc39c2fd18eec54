/** What deletes and scrubs take off the disks, as runs of the protocol. */
module Orphans {
  import opened Base
  import opened Tables
  import opened Protocol
  import opened Safety
  import opened Reads
  import opened Replication
  import opened Discipline
  import opened Refinement
  import opened NamingServer

  // ---- deletes ----

  /** Where the copies of these rows are. */
  ghost function At(pairs: set<(ChunkId, Address)>): set<(Address, ChunkId)> {
    set p | p in pairs :: (p.1, p.0)
  }

  ghost predicate Dropped(s: State, h: int, pairs: set<(ChunkId, Address)>) {
    h in s.deleters && s.deleters[h].dropped && s.deleters[h].pairs == pairs
  }

  lemma FanOutOne(s: State, h: int, pairs: set<(ChunkId, Address)>, p: (ChunkId, Address))
    returns (es: seq<Event>, t: State)
    requires Dropped(s, h, pairs) && p in pairs
    ensures Leads(s, es, t) && Dropped(t, h, pairs)
    ensures t == s.(msgs := t.msgs, disk := s.disk - {(p.1, p.0)})
  {
    hide Leads;
    var e0, e1 := ByDelete(SendDelete(h, p.0, p.1)), ByDisk(DeliverDelete(p.1, p.0, false));
    LeadsOne(s, e0);
    var s1 := Apply(s, e0);
    LeadsOne(s1, e1);
    es, t := [e0] + [e1], Apply(s1, e1);
    LeadsThen(s, [e0], s1, [e1], t);
  }

  /** The fan-out, one DeleteChunk per row, each of them delivered. */
  lemma {:induction false} FanOut(s: State, h: int, pairs: set<(ChunkId, Address)>, left: set<(ChunkId, Address)>)
    returns (es: seq<Event>, t: State)
    requires Dropped(s, h, pairs) && left <= pairs
    ensures Leads(s, es, t) && t == s.(msgs := t.msgs, disk := s.disk - At(left))
    decreases left
  {
    hide Leads, Dropped;
    if left == {} {
      NoEvents(s);
      es, t := [], s;
      assert s.disk - At(left) == s.disk;
    } else {
      var p :| p in left;
      var es0, s0 := FanOutOne(s, h, pairs, p);
      var es1;
      es1, t := FanOut(s0, h, pairs, left - {p});
      LeadsThen(s, es0, s0, es1, t);
      es := es0 + es1;
      assert At(left) == {(p.1, p.0)} + At(left - {p});
    }
  }

  lemma BeginRuns(s: State, fn: Filename, h: int, gc: bool) returns (es: seq<Event>, t: State)
    requires fn in s.db.files && (gc ==> s.db.files[fn].status == Pending)
    ensures Leads(s, es, t) && Dropped(t, h, RowPairs(s.db, fn))
    ensures t.db == DropFile(s.db, fn) && t.disk == s.disk && t.msgs == s.msgs
    ensures Visible(t) == if gc then Visible(s) else Visible(s) - {fn}
  {
    hide Leads, DropFile, RowPairs, VisibleOf;
    var e0, e1 := ByDelete(BeginDelete(h, fn, gc)), ByDelete(DropMetadata(h));
    LeadsOne(s, e0);
    var s1 := Apply(s, e0);
    LeadsOne(s1, e1);
    es, t := [e0] + [e1], Apply(s1, e1);
    LeadsThen(s, [e0], s1, [e1], t);
    DropVisible(s, t, fn, gc);
  }

  lemma DropVisible(s: State, t: State, fn: Filename, gc: bool)
    requires fn in s.db.files && (gc ==> s.db.files[fn].status == Pending)
    requires t.db == DropFile(s.db, fn) && t.current == s.current - {fn} && t.sessions == s.sessions
    ensures Visible(t) == if gc then Visible(s) else Visible(s) - {fn}
  {
    DroppedInvisible(s.db.files, s.current, s.sessions, fn);
    if gc { PendingNotVisible(s, fn); }
  }

  /** A delete that runs to its end takes the rows of the file and then exactly the copies the handler
      was given, `deletions`, off the disks. */
  lemma DeleteRuns(r: int, run: seq<Event>, s: State, fn: Filename, h: int, deletions: seq<(Address, ChunkId)>)
    returns (es: seq<Event>, t: State)
    requires Reached(r, run, s) && fn in s.db.files && DeletesRows(s.db, fn, deletions)
    ensures Leads(s, es, t) && t.db == DropFile(s.db, fn) && Visible(t) == Visible(s) - {fn}
    ensures forall k :: k in t.disk <==> k in s.disk && k !in deletions
    ensures forall k :: k in t.disk ==> t.disk[k] == s.disk[k]
  {
    hide Reached, Leads, Visible, DropFile, RowPairs;
    es, t := RemovalRuns(s, fn, h, false, deletions);
  }

  /** So does the pass of the pending cleanup for a file it lists, and no reader sees a difference. */
  lemma CleanupRuns(r: int, run: seq<Event>, s: State, fn: Filename, cutoff: real, h: int,
                    deletions: seq<(Address, ChunkId)>)
    returns (es: seq<Event>, t: State)
    requires Reached(r, run, s) && StalePending(s.db, fn, cutoff) && DeletesRows(s.db, fn, deletions)
    ensures Enabled(s, ByDelete(BeginDelete(h, fn, true)))
    ensures Leads(s, es, t) && t.db == DropFile(s.db, fn) && Visible(t) == Visible(s)
    ensures forall k :: k in t.disk <==> k in s.disk && k !in deletions
    ensures forall k :: k in t.disk ==> t.disk[k] == s.disk[k]
  {
    hide Reached, Leads, Visible, DropFile, RowPairs;
    es, t := RemovalRuns(s, fn, h, true, deletions);
  }

  lemma RemovalRuns(s: State, fn: Filename, h: int, gc: bool, deletions: seq<(Address, ChunkId)>)
    returns (es: seq<Event>, t: State)
    requires fn in s.db.files && (gc ==> s.db.files[fn].status == Pending) && DeletesRows(s.db, fn, deletions)
    ensures Leads(s, es, t) && t.db == DropFile(s.db, fn)
    ensures Visible(t) == if gc then Visible(s) else Visible(s) - {fn}
    ensures forall k :: k in t.disk <==> k in s.disk && k !in deletions
    ensures forall k :: k in t.disk ==> t.disk[k] == s.disk[k]
  {
    hide Leads, Visible, DropFile, RowPairs, DeletesRows;
    var es0, s1 := BeginRuns(s, fn, h, gc);
    var es1;
    es1, t := FanOut(s1, h, RowPairs(s.db, fn), RowPairs(s.db, fn));
    LeadsThen(s, es0, s1, es1, t);
    es := es0 + es1;
    SameVisible(s1, t);
    AtDeletions(s.db, fn, deletions);
  }

  lemma AtDeletions(db: Db, fn: Filename, deletions: seq<(Address, ChunkId)>)
    requires DeletesRows(db, fn, deletions)
    ensures forall k :: k in At(RowPairs(db, fn)) <==> k in deletions
  {
    hide RowPairs;
    forall k ensures k in At(RowPairs(db, fn)) <==> k in deletions {
      assert (k.0, k.1) in deletions <==> (k.1, k.0) in RowPairs(db, fn);
      if (k.1, k.0) in RowPairs(db, fn) {
        var p := (k.1, k.0);
        assert p in RowPairs(db, fn) && k == (p.1, p.0);
      }
    }
  }

  // ---- scrubs ----

  /** A repair copy to the server is stored and not yet recorded. */
  ghost predicate CopyWaiting(s: State, a: Address) {
    && s.healer.Pass? && s.healer.phase.Copying? && s.healer.phase.stored && s.healer.phase.target == a
    && s.healer.phase.id in s.db.chunks
  }

  /** The scrub of one server, in one go. */
  ghost function ScrubEvents(a: Address): seq<Event> {
    [ByDisk(ScrubRead(a)), ByDisk(ScrubApply(a))]
  }

  ghost function AfterScrub(s: State, a: Address): State {
    DiskApply(DiskApply(s, ScrubRead(a)), ScrubApply(a))
  }

  lemma ScrubRuns(s: State, a: Address)
    requires Disciplined(DiskApply(s, ScrubRead(a)), ByDisk(ScrubApply(a)))
    ensures Leads(s, ScrubEvents(a), AfterScrub(s, a))
  {
    hide Leads, ScrubSafe;
    var e0, e1 := ByDisk(ScrubRead(a)), ByDisk(ScrubApply(a));
    LeadsOne(s, e0);
    LeadsOne(Apply(s, e0), e1);
    LeadsThen(s, [e0], Apply(s, e0), [e1], AfterScrub(s, a));
    assert [e0] + [e1] == ScrubEvents(a);
  }

  lemma ExpectedRows(s: State, a: Address, id: ChunkId)
    ensures a in DiskApply(s, ScrubRead(a)).scrubs
    ensures id in DiskApply(s, ScrubRead(a)).scrubs[a] <==> (id, a) in s.db.replicas
  {
    if (id, a) in s.db.replicas {
      var p := (id, a);
      assert p in s.db.replicas && p.1 == a;
    }
  }

  lemma ScrubSafeWhenIdle(s: State, a: Address)
    requires CountInv(s)
    ensures Disciplined(DiskApply(s, ScrubRead(a)), ByDisk(ScrubApply(a))) <==> !CopyWaiting(s, a)
  {
    var u := DiskApply(s, ScrubRead(a));
    forall id ensures id in u.scrubs[a] <==> (id, a) in s.db.replicas { ExpectedRows(s, a, id); }
    if CopyWaiting(s, a) {
      assert Needed(u, a, s.healer.phase.id);
      assert a !in Replicas(s.db, s.healer.phase.id);
    }
  }

  lemma ScrubKeeps(s: State, a: Address, id: ChunkId)
    ensures (a, id) in AfterScrub(s, a).disk <==> (a, id) in s.disk && (id, a) in s.db.replicas
  {
    ExpectedRows(s, a, id);
  }

  /** A scrub in one go removes exactly the orphans of its server: what it holds without a row. Such a
      scrub keeps to the assumptions unless a repair copy there waits to be recorded. */
  lemma ScrubCollects(r: int, run: seq<Event>, s: State, a: Address)
    requires Reached(r, run, s)
    ensures var t := AfterScrub(s, a);
      && t == s.(disk := t.disk, scrubs := t.scrubs)
      && (forall id :: (a, id) in t.disk <==> (a, id) in s.disk && (id, a) in s.db.replicas)
      && (forall k :: k in t.disk ==> k in s.disk && t.disk[k] == s.disk[k])
      && (forall k :: k in s.disk && k.0 != a ==> k in t.disk)
    ensures Leads(s, ScrubEvents(a), AfterScrub(s, a)) <==> !CopyWaiting(s, a)
  {
    hide Reached, Leads, Disciplined, CountInv, DInv, Inv;
    ReachedGood(r, run, s);
    GoodCounts(s);
    ScrubSafeWhenIdle(s, a);
    if !CopyWaiting(s, a) { ScrubRuns(s, a); }
    if Leads(s, ScrubEvents(a), AfterScrub(s, a)) { ScrubNeedsDiscipline(s, a); }
    forall id ensures (a, id) in AfterScrub(s, a).disk <==> (a, id) in s.disk && (id, a) in s.db.replicas {
      ScrubKeeps(s, a, id);
    }
  }

  lemma GoodCounts(s: State)
    requires Good(s)
    ensures CountInv(s)
  {}

  lemma ScrubNeedsDiscipline(s: State, a: Address)
    requires Leads(s, ScrubEvents(a), AfterScrub(s, a))
    ensures Disciplined(DiskApply(s, ScrubRead(a)), ByDisk(ScrubApply(a)))
  {
    hide ScrubSafe, Run, After;
    var es := ScrubEvents(a);
    assert es[1..][0] == es[1] && DRun(Apply(s, es[0]), es[1..]);
  }

  // ---- a crash between the two ----

  /** The naming server dies after it dropped the rows of a file and before it sent a delete: the copies
      stay on the disks and no handler is left to delete them. The next scrub of each server takes its
      part. */
  lemma CrashOrphans(r: int, run: seq<Event>, s: State, fn: Filename, h: int, a: Address)
    returns (es: seq<Event>, t: State)
    requires Reached(r, run, s) && fn in s.db.files
    ensures Leads(s, es, t) && t.db == DropFile(s.db, fn) && t.disk == s.disk && t.msgs == s.msgs
    ensures forall k, id, b :: !Enabled(t, ByDelete(SendDelete(k, id, b)))
    ensures Leads(t, ScrubEvents(a), AfterScrub(t, a))
    ensures forall p :: p in RowPairs(s.db, fn) ==> (a, p.0) !in AfterScrub(t, a).disk
  {
    hide Reached, Leads, DropFile, Visible, CountInv, DInv, Inv;
    ReachedGood(r, run, s);
    var es0, s1 := BeginRuns(s, fn, h, false);
    LeadsOne(s1, NamingCrash);
    t := Apply(s1, NamingCrash);
    es := es0 + [NamingCrash];
    LeadsThen(s, es0, s1, [NamingCrash], t);
    CrashedScrub(s, es, t, a);
    forall p | p in RowPairs(s.db, fn) ensures (a, p.0) !in AfterScrub(t, a).disk {
      ScrubKeeps(t, a, p.0);
      RowsDropped(s.db, fn, p.0, a);
    }
  }

  lemma RowsDropped(db: Db, fn: Filename, id: ChunkId, a: Address)
    requires id in db.chunks && db.chunks[id].filename == fn
    ensures (id, a) !in DropFile(db, fn).replicas
  {}

  lemma CrashedScrub(s: State, es: seq<Event>, t: State, a: Address)
    requires Good(s) && Leads(s, es, t) && t.healer.Idle?
    ensures Leads(t, ScrubEvents(a), AfterScrub(t, a))
  {
    hide Good, Run, After, DRun, Disciplined, CountInv;
    DRunKeeps(s, es);
    GoodCounts(t);
    ScrubSafeWhenIdle(t, a);
    ScrubRuns(t, a);
  }
}
