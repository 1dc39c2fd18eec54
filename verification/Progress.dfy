/** Writes and reads can complete: from every reachable state a disciplined run finishes one. */
module Progress {
  import opened Base
  import opened Chunking
  import opened Tables
  import opened Protocol
  import opened Safety
  import opened Reads
  import opened Replication
  import opened Discipline
  import opened Refinement
  import opened HealRuns

  // ---- a complete write ----

  ghost predicate OpenSession(s: State, w: int) {
    && w in s.open && 0 <= w < |s.sessions|
    && forall p :: p in s.sessions[w].plan ==> p.0 in s.content
  }

  ghost predicate OnlyStored(s: State, t: State) {
    t == s.(msgs := t.msgs, disk := t.disk) && s.msgs <= t.msgs
  }

  lemma StoreOne(s: State, w: int, p: (ChunkId, Address)) returns (es: seq<Event>, t: State)
    requires OpenSession(s, w) && p in s.sessions[w].plan
    ensures Leads(s, es, t) && OnlyStored(s, t) && Stored(p.1, p.0) in t.msgs
  {
    hide Leads;
    var e0, e1 := ByClient(SendStore(w, p.0, p.1)), ByDisk(DeliverStore(p.1, p.0, s.content[p.0]));
    LeadsOne(s, e0);
    LeadsOne(Apply(s, e0), e1);
    es, t := [e0] + [e1], Apply(Apply(s, e0), e1);
    LeadsThen(s, [e0], Apply(s, e0), [e1], t);
  }

  lemma {:induction false} StoreAll(s: State, w: int, left: set<(ChunkId, Address)>) returns (es: seq<Event>, t: State)
    requires OpenSession(s, w) && left <= s.sessions[w].plan
    requires forall p :: p in s.sessions[w].plan && p !in left ==> Stored(p.1, p.0) in s.msgs
    ensures Leads(s, es, t) && OnlyStored(s, t) && forall p :: p in s.sessions[w].plan ==> Stored(p.1, p.0) in t.msgs
    decreases left
  {
    hide Leads;
    if left == {} {
      NoEvents(s);
      es, t := [], s;
    } else {
      var p :| p in left;
      var es0, s0 := StoreOne(s, w, p);
      var es1;
      es1, t := StoreAll(s0, w, left - {p});
      LeadsThen(s, es0, s0, es1, t);
      es := es0 + es1;
    }
  }

  lemma NewSessionOpen(s: State, fn: Filename, data: Bytes, ids: seq<ChunkId>, locs: seq<seq<Address>>, now: real)
    requires Good(s) && CreateOk(s, data, ids, locs)
    ensures var t := AfterCreate(s, fn, data, ids, locs, now); var w := |s.sessions|;
      && OpenSession(t, w) && t.sessions[w].filename == fn && t.sessions[w].data == data
      && fn in t.db.files && t.current[fn] == w && t.healer == s.healer && t.scrubs == s.scrubs
      && t.sessions[w].plan == ReplicaRows(Layout(ids, locs))
  {
    hide SplitChunks, DeleteMsgs, RowPairs, Mark;
    LayoutIds(ids, locs);
    var t := AfterCreate(s, fn, data, ids, locs, now);
    forall p | p in ReplicaRows(Layout(ids, locs)) ensures p.0 in t.content {
      assert p.0 in Ids(Layout(ids, locs));
    }
  }

  /** The rest of a write whose session is open and owns its name. */
  lemma UploadCompletes(s: State, w: int) returns (es: seq<Event>, t: State)
    requires Good(s) && OpenSession(s, w) && s.sessions[w].filename in s.db.files
    ensures Leads(s, es, t) && Good(t) && s.msgs <= t.msgs
    ensures Visible(t) == Visible(s)[s.sessions[w].filename := s.sessions[w].data]
    ensures t == s.(db := Tables.CommitFile(s.db, s.sessions[w].filename), open := s.open - {w}, msgs := t.msgs,
        disk := t.disk)
  {
    hide Good, Leads, Visible, Tables.CommitFile;
    var es1, s2 := StoreAll(s, w, s.sessions[w].plan);
    LeadsGood(s, es1, s2);
    SameVisible(s, s2);
    var e2 := ByClient(Commit(w));
    CommitStep(s2, w);
    LeadsOne(s2, e2);
    t := Apply(s2, e2);
    LeadsGood(s2, [e2], t);
    StepRefines(s2, e2);
    LeadsThen(s, es1, s2, [e2], t);
    es := es1 + [e2];
  }

  lemma GoodWrite(s: State, fn: Filename, data: Bytes, ids: seq<ChunkId>, locs: seq<seq<Address>>,
      now: real)
    returns (es: seq<Event>, t: State)
    requires Good(s) && CreateOk(s, data, ids, locs) && ClientDisciplined(s, CreateFile(fn, data, ids, locs, now))
    ensures Leads(s, es, t) && Good(t) && Visible(t) == Visible(s)[fn := data]
    ensures t.db == Tables.CommitFile(CreatePending(s.db, fn, |data|, |ids|, Layout(ids, locs), now), fn)
    ensures t.healer == s.healer && t.scrubs == s.scrubs && s.msgs <= t.msgs
  {
    hide Good, Leads, Visible, CreatePending, Tables.CommitFile, CreateOk, OpenSession, ClientDisciplined, Layout;
    hide Enabled, Disciplined, Apply, AfterCreate;
    var e0 := ByClient(CreateFile(fn, data, ids, locs, now));
    CreateStep(s, fn, data, ids, locs, now);
    LeadsOne(s, e0);
    var s1 := Apply(s, e0);
    LeadsGood(s, [e0], s1);
    StepRefines(s, e0);
    NewSessionOpen(s, fn, data, ids, locs, now);
    SessionFacts(s1, |s.sessions|);
    var es1;
    es1, t := UploadCompletes(s1, |s.sessions|);
    LeadsThen(s, [e0], s1, es1, t);
    es := [e0] + es1;
    assert (Visible(s) - {fn})[fn := data] == Visible(s)[fn := data];
  }

  /** From every reachable state a client whose servers answer can complete its write: a disciplined run
      binds the name to its bytes and changes nothing else a reader sees. */
  lemma WriteCompletes(r: int, run: seq<Event>, s: State, fn: Filename, data: Bytes, ids: seq<ChunkId>,
      locs: seq<seq<Address>>, now: real)
    returns (es: seq<Event>, t: State)
    requires Reached(r, run, s) && CreateOk(s, data, ids, locs)
    requires ClientDisciplined(s, CreateFile(fn, data, ids, locs, now))
    ensures Leads(s, es, t) && Visible(t) == Visible(s)[fn := data]
  {
    hide Reached, Good, Leads, Visible, CreateOk, ClientDisciplined;
    ReachedGood(r, run, s);
    es, t := GoodWrite(s, fn, data, ids, locs, now);
  }

  lemma SessionFacts(s: State, w: int)
    requires OpenSession(s, w)
    ensures w in s.open && 0 <= w < |s.sessions|
  {}

  lemma CreateStep(s: State, fn: Filename, data: Bytes, ids: seq<ChunkId>, locs: seq<seq<Address>>, now: real)
    requires Good(s) && CreateOk(s, data, ids, locs) && ClientDisciplined(s, CreateFile(fn, data, ids, locs, now))
    ensures var e := ByClient(CreateFile(fn, data, ids, locs, now));
      && Enabled(s, e) && Disciplined(s, e)
      && Apply(s, e).db == CreatePending(s.db, fn, |data|, |ids|, Layout(ids, locs), now) && s.msgs <= Apply(s, e).msgs
      && OpOf(s, e) == Forget(fn) && Apply(s, e) == AfterCreate(s, fn, data, ids, locs, now)
  {
    hide SplitChunks, CreatePending, DeleteMsgs, RowPairs, Mark, Pair;
  }

  lemma CommitStep(s: State, w: int)
    requires OpenSession(s, w) && forall p :: p in s.sessions[w].plan ==> Stored(p.1, p.0) in s.msgs
    ensures var e := ByClient(Commit(w));
      && Enabled(s, e) && Disciplined(s, e)
      && Apply(s, e) == s.(db := Tables.CommitFile(s.db, s.sessions[w].filename), open := s.open - {w})
      && (s.sessions[w].filename in s.db.files ==> OpOf(s, e) == Put(s.sessions[w].filename, s.sessions[w].data))
  {}

  // ---- a write after an abandoned one ----

  /** A session that is closed stays closed, so it commits at most once, and never after it gave up. */
  lemma {:induction false} ClosedForGood(s: State, es: seq<Event>, w: int)
    requires Run(s, es) && w < |s.sessions| && w !in s.open
    ensures w !in After(s, es).open && w < |After(s, es).sessions|
    decreases |es|
  {
    hide Enabled, Apply;
    if es != [] {
      StepOpens(s, es[0], w);
      ClosedForGood(Apply(s, es[0]), es[1..], w);
    }
  }

  lemma StepOpens(s: State, e: Event, w: int)
    requires Enabled(s, e) && w < |s.sessions| && w !in s.open
    ensures w !in Apply(s, e).open && w < |Apply(s, e).sessions|
  {
    hide ClientApply, DiskApply, DeleteApply, HealApply, ReadApply;
    hide DiskEnabled, DeleteEnabled, HealEnabled, ReadEnabled;
    match e
    case ByClient(c) => ClientOpens(s, c, w);
    case ByDisk(v) => DiskFrame(s, v);
    case ByDelete(d) => DeleteFrame(s, d);
    case ByHeal(h) => HealFrame(s, h);
    case ByRead(q) => ReadFrame(s, q);
    case NamingCrash =>
  }

  lemma ClientOpens(s: State, c: ClientStep, w: int)
    requires ClientEnabled(s, c) && w < |s.sessions| && w !in s.open
    ensures w !in ClientApply(s, c).open && w < |ClientApply(s, c).sessions|
  {
    hide CreatePending, SplitChunks, DeleteMsgs, RowPairs, Pair, Mark, Layout;
  }

  /** A client that gave up its upload can write the name again, and the abandoned session never commits. */
  lemma RetryCompletes(r: int, run: seq<Event>, s: State, w: int, fn: Filename, data: Bytes, ids: seq<ChunkId>,
      locs: seq<seq<Address>>, now: real)
    returns (es: seq<Event>, t: State)
    requires Reached(r, run, s) && CreateOk(s, data, ids, locs)
    requires w in s.open && 0 <= w < |s.sessions| && s.sessions[w].filename == fn
    requires forall v :: v in s.open && 0 <= v < |s.sessions| && s.sessions[v].filename == fn ==> v == w
    ensures Leads(s, es, t) && Visible(t) == Visible(s)[fn := data]
    ensures forall later :: Run(t, later) ==> !Enabled(After(t, later), ByClient(Commit(w)))
  {
    hide Reached, Good, Leads, Visible, CreateOk, ClientDisciplined;
    ReachedGood(r, run, s);
    var e0 := ByClient(Abandon(w));
    Abandoned(s, w, fn, data, ids, locs, now);
    LeadsOne(s, e0);
    var s1 := Apply(s, e0);
    LeadsGood(s, [e0], s1);
    SameVisible(s, s1);
    var es1;
    es1, t := GoodWrite(s1, fn, data, ids, locs, now);
    LeadsThen(s, [e0], s1, es1, t);
    es := [e0] + es1;
    StaysClosed(s1, es1, t, w);
  }

  lemma Abandoned(s: State, w: int, fn: Filename, data: Bytes, ids: seq<ChunkId>, locs: seq<seq<Address>>, now: real)
    requires w in s.open && 0 <= w < |s.sessions| && CreateOk(s, data, ids, locs)
    requires forall v :: v in s.open && 0 <= v < |s.sessions| && s.sessions[v].filename == fn ==> v == w
    ensures Enabled(s, ByClient(Abandon(w))) && Disciplined(s, ByClient(Abandon(w)))
    ensures var s1 := Apply(s, ByClient(Abandon(w)));
      && CreateOk(s1, data, ids, locs) && ClientDisciplined(s1, CreateFile(fn, data, ids, locs, now))
      && w !in s1.open && w < |s1.sessions|
  {}

  lemma StaysClosed(s: State, es: seq<Event>, t: State, w: int)
    requires Leads(s, es, t) && w < |s.sessions| && w !in s.open
    ensures forall later :: Run(t, later) ==> !Enabled(After(t, later), ByClient(Commit(w)))
  {
    hide Run, DRun, After;
    ClosedForGood(s, es, w);
    forall later | Run(t, later) ensures !Enabled(After(t, later), ByClient(Commit(w))) {
      ClosedForGood(t, later, w);
    }
  }

  // ---- a complete read ----

  /** Nothing but fetches of reader `k` from servers that are up. */
  ghost predicate OnlyFetches(es: seq<Event>, k: int, down: set<Address>) {
    forall i :: 0 <= i < |es| ==>
      es[i].ByRead? && es[i].q.ReadFetch? && es[i].q.reader == k && es[i].q.addr !in down
  }

  ghost predicate HeldUp(disk: map<(Address, ChunkId), Bytes>, id: ChunkId, down: set<Address>) {
    exists a :: a !in down && (a, id) in disk
  }

  ghost predicate PartsUpTo(x: Reader, n: nat) {
    n <= |x.ids| && forall i :: 0 <= i < n ==> x.ids[i] in x.parts
  }

  lemma FetchNext(s: State, k: int, n: nat, down: set<Address>) returns (e: Event, t: State)
    requires k in s.readers && PartsUpTo(s.readers[k], n) && n < |s.readers[k].ids|
    requires HeldUp(s.disk, s.readers[k].ids[n], down)
    ensures Enabled(s, e) && Disciplined(s, e) && OnlyFetches([e], k, down) && t == Apply(s, e)
    ensures t == s.(readers := t.readers) && k in t.readers && t.readers[k].ids == s.readers[k].ids
    ensures PartsUpTo(t.readers[k], n + 1)
  {
    var id := s.readers[k].ids[n];
    var a :| a !in down && (a, id) in s.disk;
    e := ByRead(ReadFetch(k, a, id));
    t := Apply(s, e);
  }

  lemma {:induction false} FetchRest(s: State, k: int, n: nat, down: set<Address>) returns (es: seq<Event>, t: State)
    requires k in s.readers && PartsUpTo(s.readers[k], n)
    requires forall i :: n <= i < |s.readers[k].ids| ==> HeldUp(s.disk, s.readers[k].ids[i], down)
    ensures Leads(s, es, t) && OnlyFetches(es, k, down) && k in t.readers && Complete(t.readers[k])
    decreases |s.readers[k].ids| - n
  {
    hide Leads, HeldUp, Enabled, Disciplined, Apply;
    if n == |s.readers[k].ids| {
      NoEvents(s);
      es, t := [], s;
    } else {
      var e, s1 := FetchNext(s, k, n, down);
      LeadsOne(s, e);
      var es1;
      es1, t := FetchRest(s1, k, n + 1, down);
      LeadsThen(s, [e], s1, es1, t);
      es := [e] + es1;
    }
  }

  lemma FetchesGoOn(es: seq<Event>, k: int, down: set<Address>)
    requires OnlyFetches(es, k, down)
    ensures NotRestarted(k, es)
  {}

  lemma StartFacts(s: State, k: int, fn: Filename, ids: seq<ChunkId>)
    requires ReadEnabled(s, ReadStart(k, fn, ids))
    ensures var t := ReadApply(s, ReadStart(k, fn, ids));
      k in t.readers && t.readers[k].ids == ids && PartsUpTo(t.readers[k], 0) && t.disk == s.disk
  {}

  /** A read that starts while every chunk is held by some server that is up completes by fetching from
      such servers, with the bytes its name had when it started. */
  lemma ReadCompletes(r: int, run: seq<Event>, s: State, k: int, fn: Filename, ids: seq<ChunkId>, down: set<Address>)
    returns (es: seq<Event>, t: State)
    requires Reached(r, run, s) && ReadEnabled(s, ReadStart(k, fn, ids))
    requires forall id :: id in ids ==> HeldUp(s.disk, id, down)
    ensures OnlyFetches(es, k, down) && NotRestarted(k, es) && Leads(ReadApply(s, ReadStart(k, fn, ids)), es, t)
    ensures fn in Visible(s) && k in t.readers && Complete(t.readers[k])
    ensures Assemble(t.readers[k]) == Visible(s)[fn]
  {
    hide Reached, Good, DRun, ReadEnabled, ReadApply, HeldUp, OnlyFetches, Visible, Inv, Run, After;
    ReachedGood(r, run, s);
    GoodInvNow(s);
    StartFacts(s, k, fn, ids);
    es, t := FetchRest(ReadApply(s, ReadStart(k, fn, ids)), k, 0, down);
    FetchesGoOn(es, k, down);
    ReadReturnsSnapshotValue(s, k, fn, ids, es);
  }

  lemma GoodInvNow(s: State)
    requires Good(s)
    ensures Inv(s)
  {}

  /** A read can start exactly when its name is committed, and its ids are then the session's. */
  lemma ReadStarts(r: int, run: seq<Event>, s: State, k: int, fn: Filename)
    requires Reached(r, run, s)
    ensures fn in Visible(s) <==> exists ids :: ReadEnabled(s, ReadStart(k, fn, ids))
    ensures fn in Visible(s) ==> forall ids ::
      (ReadEnabled(s, ReadStart(k, fn, ids)) <==> ids == s.sessions[s.current[fn]].ids)
  {
    hide Reached, CountInv, DInv;
    ReachedGood(r, run, s);
    if fn in Visible(s) {
      var x := s.sessions[s.current[fn]];
      assert FileOk(s.db, fn, x) && SessionOk(s.current[fn], x, s.origin, s.content);
      OwnSnapshot(s.db, fn, x);
      assert ReadEnabled(s, ReadStart(k, fn, x.ids));
      forall ids | IsSnapshot(s.db, fn, ids) ensures ids == x.ids { SnapshotIsSession(s.db, fn, x, ids); }
    }
  }

  lemma OwnSnapshot(db: Db, fn: Filename, x: Session)
    requires FileOk(db, fn, x)
    ensures IsSnapshot(db, fn, x.ids)
  {}

  lemma ChunkHeldUp(s: State, id: ChunkId, down: set<Address>)
    requires Good(s) && CommittedChunk(s.db, id) && |down| < s.r
    ensures HeldUp(s.disk, id, down)
  {
    hide Inv, DInv;
    if Replicas(s.db, id) <= down {
      SubsetSize(Replicas(s.db, id), down);
    }
    var a :| a in Replicas(s.db, id) && a !in down;
    assert (id, a) in s.db.replicas;
    GoodDisk(s, id, a);
  }

  /** So with fewer than R servers down every committed file can be read to its end. */
  lemma ReadDespiteLosses(r: int, run: seq<Event>, s: State, k: int, fn: Filename, down: set<Address>)
    returns (ids: seq<ChunkId>, es: seq<Event>, t: State)
    requires Reached(r, run, s) && fn in Visible(s) && |down| < r
    ensures ReadEnabled(s, ReadStart(k, fn, ids))
    ensures OnlyFetches(es, k, down) && Leads(ReadApply(s, ReadStart(k, fn, ids)), es, t)
    ensures k in t.readers && Complete(t.readers[k]) && Assemble(t.readers[k]) == Visible(s)[fn]
  {
    hide Reached, Good, Visible, Leads, HeldUp, ReadApply, Inv;
    ReachedGood(r, run, s);
    ReadStarts(r, run, s, k, fn);
    ids :| ReadEnabled(s, ReadStart(k, fn, ids));
    forall id | id in ids ensures HeldUp(s.disk, id, down) {
      CommittedIds(s, k, fn, ids, id);
      ChunkHeldUp(s, id, down);
    }
    es, t := ReadCompletes(r, run, s, k, fn, ids, down);
  }

  lemma CommittedIds(s: State, k: int, fn: Filename, ids: seq<ChunkId>, id: ChunkId)
    requires ReadEnabled(s, ReadStart(k, fn, ids)) && id in ids
    ensures CommittedChunk(s.db, id)
  {}
}
