/** Why disciplined runs are needed: from every reachable state, a short run that breaks one assumption of
    Disciplined and with it the guarantee that rests on it, and exactly when the code keeps it. */
module Assumptions {
  import opened Base
  import opened Chunking
  import opened Tables
  import opened Protocol
  import opened Safety
  import opened Reads
  import opened Repairs
  import opened Replication
  import opened Discipline
  import opened Refinement
  import opened HealRuns
  import opened Progress

  // ---- two writers of one name ----

  /** The rows a create adds are recorded, and no disk has the chunks yet. */
  lemma FreshRows(s: State, fn: Filename, data: Bytes, ids: seq<ChunkId>, locs: seq<seq<Address>>, now: real,
      p: (ChunkId, Address))
    requires Inv(s) && CreateOk(s, data, ids, locs) && p in ReplicaRows(Layout(ids, locs))
    ensures p in CreatePending(s.db, fn, |data|, |ids|, Layout(ids, locs), now).replicas
    ensures p.0 in CreatePending(s.db, fn, |data|, |ids|, Layout(ids, locs), now).chunks
    ensures CreatePending(s.db, fn, |data|, |ids|, Layout(ids, locs), now).chunks[p.0].filename == fn
    ensures (p.1, p.0) !in s.disk
  {
    hide SplitChunks, SessionsOk, FilesOk, PayloadsOk, LateDeletesOk, DeletersOk, ReadersOk, PlacementOk;
    var chunks := Layout(ids, locs);
    LayoutIds(ids, locs);
    assert p.0 in Ids(chunks);
    assert p.0 in ids;
    var i :| 0 <= i < |ids| && ids[i] == p.0;
    assert chunks[i].chunkId == p.0;
  }

  ghost predicate EmptySession(s: State, w: int, fn: Filename) {
    w in s.open && 0 <= w < |s.sessions| && s.sessions[w].filename == fn && s.sessions[w].plan == {}
  }

  lemma EmptyOk(s: State)
    ensures SplitChunks([]) == [] && CreateOk(s, [], [], [])
  {}

  lemma EmptyRows(s: State, fn: Filename, now: real)
    requires SplitChunks([]) == []
    ensures var t := AfterCreate(s, fn, [], [], [], now);
      && EmptySession(t, |s.sessions|, fn) && t.content == s.content && t.disk == s.disk && t.r == s.r
      && fn in t.db.files && t.db.files[fn].status == Pending
      && fn in t.current && 0 <= t.current[fn] < |t.sessions|
  {
    hide SplitChunks, DeleteMsgs, RowPairs, Mark;
    var t := AfterCreate(s, fn, [], [], [], now);
    assert t.sessions[|s.sessions|].plan == {};
    assert Pair<Bytes>([], []) == map[];
    assert t.content == s.content;
  }

  lemma OpenEmpty(s: State, fn: Filename, now: real)
    requires Inv(s)
    ensures var e := ByClient(CreateFile(fn, [], [], [], now));
      && Enabled(s, e) && EmptySession(Apply(s, e), |s.sessions|, fn) && Inv(Apply(s, e))
      && Apply(s, e).content == s.content && Apply(s, e).disk == s.disk && Apply(s, e).r == s.r
      && fn in Apply(s, e).db.files && Apply(s, e).db.files[fn].status == Pending
      && fn in Apply(s, e).current && 0 <= Apply(s, e).current[fn] < |Apply(s, e).sessions|
  {
    hide Inv, EmptySession, AfterCreate, CreateOk, SplitChunks;
    EmptyOk(s);
    EmptyRows(s, fn, now);
    StepKeeps(s, ByClient(CreateFile(fn, [], [], [], now)));
  }

  lemma SecondCreate(s: State, w: int, fn: Filename, data: Bytes, ids: seq<ChunkId>, locs: seq<seq<Address>>, now: real)
    requires EmptySession(s, w, fn) && CreateOk(s, data, ids, locs)
    ensures var e := ByClient(CreateFile(fn, data, ids, locs, now));
      && Enabled(s, e) && EmptySession(Apply(s, e), w, fn) && Apply(s, e).disk == s.disk
      && Apply(s, e).db == CreatePending(s.db, fn, |data|, |ids|, Layout(ids, locs), now)
      && fn in Apply(s, e).db.files && fn in Apply(s, e).current
      && 0 <= Apply(s, e).current[fn] < |Apply(s, e).sessions|
  {
    hide SplitChunks, Pair, Mark, DeleteMsgs, RowPairs;
  }

  lemma EmptyCommit(s: State, w: int, fn: Filename)
    requires EmptySession(s, w, fn) && fn in s.db.files && fn in s.current && 0 <= s.current[fn] < |s.sessions|
    ensures var e := ByClient(Commit(w));
      && Enabled(s, e) && Apply(s, e).disk == s.disk && fn in Visible(Apply(s, e))
      && Apply(s, e).db == Tables.CommitFile(s.db, fn)
  {}

  /** Commit names only the file: an empty write begun before another write of the same name commits
      that other write, of which no server holds anything. */
  lemma TwoWriters(r: int, run: seq<Event>, s: State, fn: Filename, data: Bytes, ids: seq<ChunkId>,
      locs: seq<seq<Address>>, now: real)
    returns (es: seq<Event>, t: State)
    requires Reached(r, run, s) && CreateOk(s, data, ids, locs)
    ensures Path(s, es, t) && fn in Visible(t)
    ensures forall p :: p in ReplicaRows(Layout(ids, locs)) ==>
      p in t.db.replicas && CommittedChunk(t.db, p.0) && (p.1, p.0) !in t.disk
  {
    hide Reached, Path, Visible, CreatePending, CreateOk, Layout, Inv, CountInv, DInv, EmptySession, Enabled, Apply;
    ReachedGood(r, run, s);
    var w := |s.sessions|;
    var e0, e1, e2 := ByClient(CreateFile(fn, [], [], [], now)), ByClient(CreateFile(fn, data, ids, locs, now)),
        ByClient(Commit(w));
    OpenEmpty(s, fn, now);
    PathOne(s, e0);
    var s1 := Apply(s, e0);
    SameCreateOk(s, s1, data, ids, locs);
    SecondCreate(s1, w, fn, data, ids, locs, now);
    PathOne(s1, e1);
    var s2 := Apply(s1, e1);
    EmptyCommit(s2, w, fn);
    PathOne(s2, e2);
    t := Apply(s2, e2);
    PathThen(s1, [e1], s2, [e2], t);
    PathThen(s, [e0], s1, [e1] + [e2], t);
    es := [e0] + ([e1] + [e2]);
    CreateOkSizes(s, data, ids, locs);
    forall p | p in ReplicaRows(Layout(ids, locs))
      ensures p in t.db.replicas && CommittedChunk(t.db, p.0) && (p.1, p.0) !in t.disk
    {
      FreshRows(s1, fn, data, ids, locs, now, p);
    }
  }

  lemma OwnerRows(db: Db, fn: Filename, x: Session)
    requires FileOk(db, fn, x)
    ensures ChunksOf(db, fn) == Elems(x.ids)
  {}

  lemma OriginOfIds(w: int, x: Session, origin: map<ChunkId, int>, content: ContentMap)
    requires SessionOk(w, x, origin, content)
    ensures forall id :: id in x.ids ==> id in origin && origin[id] == w
  {}

  /** The chunks under a name are its owner's, and no other session's. */
  lemma OneOwner(s: State, fn: Filename, w: int)
    requires SessionsOk(s.sessions, s.origin, s.content) && FilesOk(s.db, s.current, s.sessions)
    requires fn in s.db.files && 0 <= w < |s.sessions|
    ensures fn in s.current && 0 <= s.current[fn] < |s.sessions|
    ensures ChunksOf(s.db, fn) == Elems(s.sessions[s.current[fn]].ids)
    ensures s.current[fn] != w ==> Elems(s.sessions[w].ids) !! ChunksOf(s.db, fn)
  {
    hide FileOk, SessionOk, ForeignKeys, ChunksOf;
    var v := s.current[fn];
    OwnerRows(s.db, fn, s.sessions[v]);
    OriginOfIds(v, s.sessions[v], s.origin, s.content);
    OriginOfIds(w, s.sessions[w], s.origin, s.content);
  }

  lemma SameElems<T>(xs: seq<T>, ys: seq<T>)
    requires Elems(xs) !! Elems(ys)
    ensures Elems(xs) == Elems(ys) <==> xs == [] && ys == []
  {
    if xs != [] { assert xs[0] in Elems(xs); }
    if ys != [] { assert ys[0] in Elems(ys); }
  }

  /** The file that a commit makes readable: the chunks under its name afterwards. */
  ghost function Published(s: State, w: int): set<ChunkId>
    requires Enabled(s, ByClient(Commit(w)))
  {
    ChunksOf(Apply(s, ByClient(Commit(w))).db, s.sessions[w].filename)
  }

  /** In every interleaving, a commit publishes the chunks of the session that commits exactly when that
      session still owns the name, or neither it nor the owner has any chunk. */
  lemma CommitExact(r: int, run: seq<Event>, s: State, w: int)
    requires Reachable(r, run, s) && Enabled(s, ByClient(Commit(w))) && s.sessions[w].filename in s.db.files
    ensures s.sessions[w].filename in s.current && 0 <= s.current[s.sessions[w].filename] < |s.sessions|
    ensures var owner := s.current[s.sessions[w].filename];
      Published(s, w) == Elems(s.sessions[w].ids) <==>
        owner == w || (s.sessions[w].ids == [] && s.sessions[owner].ids == [])
  {
    hide Reachable, FilesOk, SessionsOk, Elems;
    ReachableInv(r, run, s);
    var fn := s.sessions[w].filename;
    OneOwner(s, fn, w);
    CommitKeepsChunks(s.db, fn);
    if s.current[fn] != w {
      SameElems(s.sessions[w].ids, s.sessions[s.current[fn]].ids);
    }
  }

  lemma CommitKeepsChunks(db: Db, fn: Filename)
    ensures ChunksOf(Tables.CommitFile(db, fn), fn) == ChunksOf(db, fn)
  {}

  lemma RowsAcknowledged(s: State, fn: Filename)
    requires ForeignKeys(s.db) && RowsKept(s.db, s.disk, s.msgs)
    ensures RowsKept(Tables.CommitFile(s.db, fn), s.disk, s.msgs)
      <==> forall p :: p in RowPairs(s.db, fn) ==> Stored(p.1, p.0) in s.msgs
  {
    var e := Tables.CommitFile(s.db, fn);
    if forall p :: p in RowPairs(s.db, fn) ==> Stored(p.1, p.0) in s.msgs {
      forall p | p in e.replicas ensures RowKept(e, p, s.disk, s.msgs) {
        assert RowKept(s.db, p, s.disk, s.msgs);
        if s.db.chunks[p.0].filename == fn { assert p in RowPairs(s.db, fn); }
      }
    } else {
      var p :| p in RowPairs(s.db, fn) && Stored(p.1, p.0) !in s.msgs;
      assert CommittedChunk(e, p.0) && !RowKept(e, p, s.disk, s.msgs);
    }
  }

  /** In every interleaving in which recorded, acknowledged and stored copies are consistent, a commit keeps
      them so exactly when every replica row under the name is acknowledged, whoever wrote it. */
  lemma CommitKeepsRowsExactly(r: int, run: seq<Event>, s: State, w: int)
    requires Reachable(r, run, s) && RowsKept(s.db, s.disk, s.msgs)
    requires Enabled(s, ByClient(Commit(w)))
    ensures RowsKept(ClientApply(s, Commit(w)).db, s.disk, s.msgs)
      <==> forall p :: p in RowPairs(s.db, s.sessions[w].filename) ==> Stored(p.1, p.0) in s.msgs
  {
    hide Reachable, Inv, RowsKept, RowPairs, ForeignKeys, Tables.CommitFile;
    ReachableInv(r, run, s);
    InvFk(s);
    RowsAcknowledged(s, s.sessions[w].filename);
  }

  lemma CreateOkSizes(s: State, data: Bytes, ids: seq<ChunkId>, locs: seq<seq<Address>>)
    requires CreateOk(s, data, ids, locs)
    ensures |ids| == |locs| && Distinct(ids)
  {}

  lemma SameCreateOk(s: State, t: State, data: Bytes, ids: seq<ChunkId>, locs: seq<seq<Address>>)
    requires CreateOk(s, data, ids, locs) && t.content == s.content && t.r == s.r
    ensures CreateOk(t, data, ids, locs)
  {}

  // ---- deletes that start before the metadata is swapped ----

  lemma {:induction false} DeliverAll(s: State, id: ChunkId, left: set<Address>) returns (es: seq<Event>, t: State)
    requires forall a :: a in left ==> Delete(a, id, true) in s.msgs
    ensures Path(s, es, t) && t == s.(disk := t.disk)
    ensures forall a :: a in left ==> (a, id) !in t.disk
    ensures forall k :: k in t.disk ==> k in s.disk
    decreases left
  {
    hide Path;
    if left == {} {
      assert Path(s, [], s) by { NoPath(s); }
      es, t := [], s;
    } else {
      var a :| a in left;
      var e := ByDisk(DeliverDelete(a, id, true));
      PathOne(s, e);
      var es1;
      es1, t := DeliverAll(Apply(s, e), id, left - {a});
      PathThen(s, [e], Apply(s, e), es1, t);
      es := [e] + es1;
    }
  }

  lemma NoPath(s: State)
    ensures Path(s, [], s)
  {}

  /** CreateFile starts the deletes of the old chunks before it can still reject the request: every
      recorded copy of a chunk of a committed file can be gone while the file stays committed. */
  lemma EarlyDeletes(r: int, run: seq<Event>, s: State, fn: Filename, id: ChunkId) returns (es: seq<Event>, t: State)
    requires Reached(r, run, s) && id in ChunksOf(s.db, fn)
    ensures Path(s, es, t) && Visible(t) == Visible(s) && t.db == s.db
    ensures forall a :: a in Replicas(s.db, id) ==> (a, id) !in t.disk
  {
    hide Reached, Path, Inv, CountInv, DInv;
    ReachedGood(r, run, s);
    InvFk(s);
    var e := ByClient(BeginOverwrite(fn));
    PathOne(s, e);
    var s1 := Apply(s, e);
    forall a | a in Replicas(s.db, id) ensures Delete(a, id, true) in s1.msgs {
      assert (id, a) in RowPairs(s.db, fn);
    }
    var es1;
    es1, t := DeliverAll(s1, id, Replicas(s.db, id));
    PathThen(s, [e], s1, es1, t);
    es := [e] + es1;
    SameVisible(s, t);
  }

  /** In every state in which recorded, acknowledged and stored copies are consistent, an early or a late
      delete keeps them so exactly when it does not take an acknowledged copy that is recorded, nor a repair
      copy that is stored and about to be recorded. */
  lemma DeleteExact(s: State, a: Address, id: ChunkId, early: bool)
    requires RowsKept(s.db, s.disk, s.msgs) && CopyKept(s.db.chunks, s.healer, s.disk, s.msgs)
    requires Enabled(s, ByDisk(DeliverDelete(a, id, early)))
    ensures var t := DiskApply(s, DeliverDelete(a, id, early));
      RowsKept(t.db, t.disk, t.msgs) && CopyKept(t.db.chunks, t.healer, t.disk, t.msgs) <==> !Needed(s, a, id)
  {
    var t := DiskApply(s, DeliverDelete(a, id, early));
    if (id, a) in s.db.replicas && Stored(a, id) in s.msgs {
      assert !RowKept(t.db, (id, a), t.disk, t.msgs);
    } else {
      forall p | p in s.db.replicas ensures RowKept(t.db, p, t.disk, t.msgs) {
        assert RowKept(s.db, p, s.disk, s.msgs);
      }
    }
  }

  // ---- a scrub that lists the disk later than it read the expected set ----

  ghost predicate SurvivesScrub(s: State, a: Address, id: ChunkId)
    requires a in s.scrubs
  {
    (a, id) in DiskApply(s, ScrubApply(a)).disk
  }

  lemma ScrubSpares(s: State, a: Address, id: ChunkId)
    requires Good(s) && a in s.scrubs && (id, a) in s.db.replicas && CommittedChunk(s.db, id)
    ensures SurvivesScrub(s, a, id) <==> id in s.scrubs[a]
  {
    hide Good, CommittedChunk;
    GoodDisk(s, id, a);
  }

  /** A recorded copy of a committed chunk survives a scrub exactly when its id was in the expected set. */
  lemma CopySurvives(r: int, run: seq<Event>, s: State, a: Address, id: ChunkId)
    requires Reached(r, run, s) && a in s.scrubs && (id, a) in s.db.replicas && CommittedChunk(s.db, id)
    ensures SurvivesScrub(s, a, id) <==> id in s.scrubs[a]
  {
    ReachedGood(r, run, s);
    ScrubSpares(s, a, id);
  }

  /** A scrub keeps recorded, acknowledged and stored copies consistent exactly when the expected set it read
      has every acknowledged copy recorded there by now, of pending files too, and the repair copy that is
      stored there and about to be recorded. */
  lemma ScrubExact(r: int, run: seq<Event>, s: State, a: Address)
    requires Reached(r, run, s) && a in s.scrubs
    ensures DInv(DiskApply(s, ScrubApply(a))) <==> ScrubSafe(s, a)
  {
    hide Reached, Inv, CountInv, DInv, ScrubSafe, DiskApply;
    ReachedGood(r, run, s);
    if ScrubSafe(s, a) { ScrubDisciplined(s, a); } else { UnsafeScrub(s, a); }
  }

  lemma ReadExpected(s: State, a: Address)
    requires Good(s)
    ensures var e := ByDisk(ScrubRead(a));
      && Enabled(s, e) && Disciplined(s, e) && a in Apply(s, e).scrubs
      && Apply(s, e) == s.(scrubs := Apply(s, e).scrubs)
      && forall id :: id in Apply(s, e).scrubs[a] ==> id in s.db.chunks && id in s.content
  {
    forall id | id in s.db.chunks ensures id in s.content { RowsAreUsed(s, id); }
    assert ForeignKeys(s.db);
  }

  /** A write that completes between the two halves of a scrub loses its copy on that server. */
  lemma ScrubRace(r: int, run: seq<Event>, s: State, a: Address, fn: Filename, data: Bytes, ids: seq<ChunkId>,
      locs: seq<seq<Address>>,
      now: real, id: ChunkId)
    returns (es: seq<Event>, t: State)
    requires Reached(r, run, s) && CreateOk(s, data, ids, locs)
    requires ClientDisciplined(s, CreateFile(fn, data, ids, locs, now))
    requires (id, a) in ReplicaRows(Layout(ids, locs))
    ensures Path(s, es, t) && fn in Visible(t)
    ensures (id, a) in t.db.replicas && CommittedChunk(t.db, id) && (a, id) !in t.disk
  {
    hide Reached, Path, DRun, Visible, CreatePending, CreateOk, Layout, Good, ClientDisciplined, Enabled, Disciplined;
    ReachedGood(r, run, s);
    var e0, e1 := ByDisk(ScrubRead(a)), ByDisk(ScrubApply(a));
    ReadExpected(s, a);
    PathOne(s, e0);
    var s1 := Apply(s, e0);
    LeadsOne(s, e0);
    LeadsGood(s, [e0], s1);
    SameCreateOk(s, s1, data, ids, locs);
    SameDiscipline(s, s1, CreateFile(fn, data, ids, locs, now));
    var es1, s2 := GoodWrite(s1, fn, data, ids, locs, now);
    GoodInv(s1);
    FreshRows(s1, fn, data, ids, locs, now, (id, a));
    CommittedRow(s1, s2, fn, data, ids, locs, now, id, a);
    FreshId(s1, data, ids, locs, id, a);
    ApplyScrub(s2, a);
    PathOne(s2, e1);
    t := Apply(s2, e1);
    ScrubSpares(s2, a, id);
    SameVisible(s2, t);
    PathThen(s, [e0], s1, es1, s2);
    PathThen(s, [e0] + es1, s2, [e1], t);
    es := [e0] + es1 + [e1];
  }

  lemma GoodInv(s: State)
    requires Good(s)
    ensures Inv(s)
  {}

  lemma SameDiscipline(s: State, t: State, c: ClientStep)
    requires ClientDisciplined(s, c) && t.open == s.open && t.sessions == s.sessions
    ensures ClientDisciplined(t, c)
  {}

  lemma ApplyScrub(s: State, a: Address)
    requires a in s.scrubs
    ensures Enabled(s, ByDisk(ScrubApply(a)))
    ensures var t := Apply(s, ByDisk(ScrubApply(a)));
      t == s.(disk := t.disk) && t == DiskApply(s, ScrubApply(a))
  {}

  lemma FreshId(s: State, data: Bytes, ids: seq<ChunkId>, locs: seq<seq<Address>>, id: ChunkId, a: Address)
    requires CreateOk(s, data, ids, locs) && (id, a) in ReplicaRows(Layout(ids, locs))
    ensures id !in s.content
  {
    LayoutIds(ids, locs);
    assert id in Ids(Layout(ids, locs));
  }

  lemma CommittedRow(s: State, t: State, fn: Filename, data: Bytes, ids: seq<ChunkId>, locs: seq<seq<Address>>,
      now: real, id: ChunkId, a: Address)
    requires |ids| == |locs| && Distinct(ids)
    requires var e := CreatePending(s.db, fn, |data|, |ids|, Layout(ids, locs), now);
      && (id, a) in e.replicas && id in e.chunks && e.chunks[id].filename == fn && t.db == Tables.CommitFile(e, fn)
    ensures (id, a) in t.db.replicas && CommittedChunk(t.db, id)
  {
    hide Layout, ChunkRows, ReplicaRows, DropFile;
  }

  lemma ScrubUnrecorded(s: State, target: Address, id: ChunkId)
    requires target !in Replicas(s.db, id) && (target, id) in s.disk
    ensures var e := ByDisk(ScrubRead(target)); var u := Apply(s, e);
      && Enabled(s, e) && Enabled(u, ByDisk(ScrubApply(target)))
      && var t := Apply(u, ByDisk(ScrubApply(target)));
         (target, id) !in t.disk && t.db == s.db && t.healer == s.healer && t.r == s.r
  {}

  /** A scrub of the target between ReplicateChunk and add_replica takes the new copy away, and the row is
      recorded all the same: the committed chunk then has a recorded replica that its server lacks. */
  lemma RepairScrubRace(r: int, run: seq<Event>, s: State, live: set<Address>, id: ChunkId)
    returns (es: seq<Event>, t: State, a: Address)
    requires Reached(r, run, s) && s.healer.Idle? && |live| >= r
    requires CommittedChunk(s.db, id) && |Replicas(s.db, id)| == r
    requires Replicas(s.db, id) * live != {} && !(Replicas(s.db, id) <= live)
    ensures Path(s, es, t) && (id, a) in t.db.replicas && CommittedChunk(t.db, id) && (a, id) !in t.disk
  {
    hide Reached, Good, DRun, Path, InPass, Replicas, Valid, Enabled, Disciplined, Apply;
    ReachedGood(r, run, s);
    var es2, s2, x := CopyRun(s, live, id);
    a := x.target;
    var e3, e4, e5 := ByDisk(ScrubRead(a)), ByDisk(ScrubApply(a)), ByHeal(Add);
    ScrubUnrecorded(s2, a, id);
    PathOne(s2, e3);
    var s3 := Apply(s2, e3);
    PathOne(s3, e4);
    var s4 := Apply(s3, e4);
    AddRecords(s4, live, x);
    PathOne(s4, e5);
    t := Apply(s4, e5);
    PathThen(s3, [e4], s4, [e5], t);
    PathThen(s2, [e3], s3, [e4] + [e5], t);
    PathThen(s, es2, s2, [e3] + ([e4] + [e5]), t);
    es := es2 + ([e3] + ([e4] + [e5]));
  }

  lemma AddRecords(s: State, live: set<Address>, x: Repair)
    requires s.healer.Pass? && s.healer.phase == Copying(x.id, x.target, true) && x.id in s.healer.view
    requires CommittedChunk(s.db, x.id)
    ensures var e := ByHeal(Add);
      && Enabled(s, e) && Apply(s, e).disk == s.disk
      && (x.id, x.target) in Apply(s, e).db.replicas && CommittedChunk(Apply(s, e).db, x.id)
  {}

  /** The pass up to the copy that is stored and not yet recorded. */
  lemma CopyRun(s: State, live: set<Address>, id: ChunkId) returns (es: seq<Event>, t: State, x: Repair)
    requires Good(s) && s.healer.Idle? && |live| >= s.r
    requires CommittedChunk(s.db, id) && |Replicas(s.db, id)| == s.r
    requires Replicas(s.db, id) * live != {} && !(Replicas(s.db, id) <= live)
    ensures Leads(s, es, t) && Good(t) && t.db == s.db && t.r == s.r && x.id == id && (x.target, id) in t.disk
    ensures t.healer.Pass? && t.healer.phase == Copying(x.id, x.target, true) && t.healer.live == live
    ensures x.id in t.healer.view && t.healer.view[x.id] == Replicas(t.db, x.id) && x.id in t.db.chunks
    ensures x.stale.Some? && x.stale.value in Replicas(t.db, x.id) - live && x.target !in Replicas(t.db, x.id)
  {
    hide Good, Leads, InPass, Replicas, Valid;
    var e0 := ByHeal(Scan(live));
    LeadsOne(s, e0);
    var s1 := Apply(s, e0);
    LeadsGood(s, [e0], s1);
    ScanCovers(s, live);
    x := GapRepair(s1.db, s.r, live, id);
    ReadyWhenGood(s1, live, x);
    CopyRuns(s1, live, x);
    RepairedFacts(s1, live, x);
    t := Copied(s1, x);
    LeadsGood(s1, CopyEvents(x, Content(s1.content, x.id)), t);
    GapReady(s1, live, x);
    LeadsThen(s, [e0], s1, CopyEvents(x, Content(s1.content, x.id)), t);
    es := [e0] + CopyEvents(x, Content(s1.content, x.id));
  }

  // ---- a cleanup that deletes by name what it listed earlier ----

  lemma ListedPending(s: State, w: int, fn: Filename, h: int)
    requires EmptySession(s, w, fn) && fn in s.db.files && s.db.files[fn].status == Pending
    requires fn in s.current && 0 <= s.current[fn] < |s.sessions|
    ensures var e := ByDelete(BeginDelete(h, fn, true));
      && Enabled(s, e) && EmptySession(Apply(s, e), w, fn) && Apply(s, e).db == s.db && Apply(s, e).current == s.current
      && Apply(s, e).sessions == s.sessions
      && h in Apply(s, e).deleters && !Apply(s, e).deleters[h].dropped && Apply(s, e).deleters[h].filename == fn
  {}

  lemma DropListedFile(s: State, h: int)
    requires h in s.deleters && !s.deleters[h].dropped
    ensures var e := ByDelete(DropMetadata(h)); Enabled(s, e) && s.deleters[h].filename !in Visible(Apply(s, e))
  {}

  lemma CommitKeepsDeleters(s: State, w: int)
    requires Enabled(s, ByClient(Commit(w)))
    ensures Apply(s, ByClient(Commit(w))).deleters == s.deleters
  {}

  /** A pending file that commits between the two statements of the cleanup is removed all the same:
      its name was visible and no DeleteFile took it away. */
  lemma CleanupRace(r: int, run: seq<Event>, s: State, fn: Filename, h: int, now: real)
    returns (es: seq<Event>, u: State, t: State)
    requires Reached(r, run, s)
    ensures Path(s, es, u) && fn in Visible(u)
    ensures Path(u, [ByDelete(DropMetadata(h))], t) && u.deleters[h].gc && fn !in Visible(t)
  {
    hide Reached, Path, Visible, Inv, CountInv, DInv, EmptySession;
    ReachedGood(r, run, s);
    var w := |s.sessions|;
    var e0, e1, e2, e3 := ByClient(CreateFile(fn, [], [], [], now)), ByDelete(BeginDelete(h, fn, true)),
        ByClient(Commit(w)), ByDelete(DropMetadata(h));
    OpenEmpty(s, fn, now);
    PathOne(s, e0);
    var s1 := Apply(s, e0);
    ListedPending(s1, w, fn, h);
    PathOne(s1, e1);
    var s2 := Apply(s1, e1);
    EmptyCommit(s2, w, fn);
    PathOne(s2, e2);
    CommitKeepsDeleters(s2, w);
    u := Apply(s2, e2);
    DropListedFile(u, h);
    PathOne(u, e3);
    t := Apply(u, e3);
    PathThen(s1, [e1], s2, [e2], u);
    PathThen(s, [e0], s1, [e1] + [e2], u);
    es := [e0] + ([e1] + [e2]);
  }

  /** In every interleaving, the cleanup's second statement is invisible to readers exactly when the file
      it listed has not been committed since. */
  lemma CleanupExact(r: int, run: seq<Event>, s: State, h: int)
    requires Reachable(r, run, s) && DeleteEnabled(s, DropMetadata(h)) && s.deleters[h].gc
    ensures Visible(DeleteApply(s, DropMetadata(h))) == Visible(s) <==> DropSafe(s, s.deleters[h])
  {
    hide Reachable, FilesOk, SessionsOk, DiskOk, PayloadsOk, LateDeletesOk, DeletersOk, ReadersOk;
    ReachableInv(r, run, s);
    VisibleCommitted(s, s.deleters[h].filename);
    DropVisible(s, h);
  }

  lemma VisibleCommitted(s: State, fn: Filename)
    requires FilesOk(s.db, s.current, s.sessions)
    ensures fn in Visible(s) <==> fn in s.db.files && s.db.files[fn].status == Committed
  {}

  lemma DropVisible(s: State, h: int)
    requires h in s.deleters
    ensures Visible(AfterDrop(s, h)) == Visible(s) - {s.deleters[h].filename}
  {
    DroppedInvisible(s.db.files, s.current, s.sessions, s.deleters[h].filename);
  }

  // ---- the two SELECTs of get_file ----

  lemma DeletedBetween(s: State, fn: Filename, h: int) returns (es: seq<Event>, t: State)
    requires fn in s.db.files && ForeignKeys(s.db)
    ensures Path(s, es, t) && t.sessions == s.sessions && fn !in t.db.files && IsSnapshot(t.db, fn, [])
  {
    hide Path;
    var e0, e1 := ByDelete(BeginDelete(h, fn, false)), ByDelete(DropMetadata(h));
    PathOne(s, e0);
    var s1 := Apply(s, e0);
    PathOne(s1, e1);
    t := Apply(s1, e1);
    PathThen(s, [e0], s1, [e1], t);
    es := [e0] + [e1];
  }

  /** A delete between the two SELECTs gives a reader an empty file under a name none of whose writers
      wrote an empty file. */
  lemma TornSelects(r: int, run: seq<Event>, s: State, fn: Filename, h: int) returns (es: seq<Event>, t: State)
    requires Reached(r, run, s) && fn in Visible(s) && !SomeEmpty(s, fn)
    ensures Path(s, es, t) && IsSnapshot(t.db, fn, []) && !OfSession(t, fn, [])
  {
    hide Reached, Run, Inv, IsSnapshot, OfSession;
    ReachedGood(r, run, s);
    InvFk(s);
    es, t := DeletedBetween(s, fn, h);
    RunKeeps(s, es);
    LaterSelectExact(t, fn, []);
  }

  // ---- a crash between add_replica and remove_replica ----

  lemma AddOpensGap(s: State, live: set<Address>, x: Repair)
    requires s.healer.Pass? && s.healer.phase == Copying(x.id, x.target, true) && s.healer.live == live
    requires x.id in s.healer.view && s.healer.view[x.id] == Replicas(s.db, x.id) && x.id in s.db.chunks
    requires x.stale.Some? && x.stale.value in Replicas(s.db, x.id) - live && x.target !in Replicas(s.db, x.id)
    ensures Enabled(s, ByHeal(Add)) && Apply(s, ByHeal(Add)).healer.phase == Gap(x.id)
    ensures Apply(s, ByHeal(Add)).healer.Pass?
    ensures |Replicas(Apply(s, ByHeal(Add)).db, x.id)| == |Replicas(s.db, x.id)| + 1
    ensures Apply(s, ByHeal(Add)).r == s.r && x.id in Apply(s, ByHeal(Add)).db.chunks
  {
    AddReplicaSets(s.db, x.id, x.target);
  }

  lemma CrashStep(s: State, id: ChunkId)
    requires id in s.db.chunks && |Replicas(s.db, id)| == s.r + 1
    ensures var t := Apply(s, NamingCrash);
      t.db == s.db && t.r == s.r && t.healer == Idle && !Exactly(t.r, t.db, t.healer)
  {
    hide Replicas;
    assert Surplus(Idle, id) == 0;
  }

  /** From every reachable state at rest in which a committed chunk has a live and a dead replica, a run
      of the pass that the naming server's crash ends between the two statements leaves the chunk with
      R+1 rows and no pass in progress. */
  lemma GapCrash(r: int, run: seq<Event>, s: State, live: set<Address>, id: ChunkId) returns (es: seq<Event>, t: State)
    requires Reached(r, run, s) && s.healer.Idle? && |live| >= r
    requires CommittedChunk(s.db, id) && |Replicas(s.db, id)| == r
    requires Replicas(s.db, id) * live != {} && !(Replicas(s.db, id) <= live)
    ensures Leads(s, es, t) && t.healer == Idle && t.r == r
    ensures |Replicas(t.db, id)| == r + 1 && !Exactly(t.r, t.db, t.healer)
  {
    hide Reached, Good, Leads, Replicas, Exactly;
    ReachedGood(r, run, s);
    var es2, s2, x := CopyRun(s, live, id);
    AddOpensGap(s2, live, x);
    var e3, e4 := ByHeal(Add), NamingCrash;
    LeadsOne(s2, e3);
    var s3 := Apply(s2, e3);
    CrashStep(s3, id);
    LeadsOne(s3, e4);
    t := Apply(s3, e4);
    LeadsThen(s2, [e3], s3, [e4], t);
    LeadsThen(s, es2, s2, [e3] + [e4], t);
    es := es2 + ([e3] + [e4]);
  }

  lemma GapRepair(db: Db, r: int, live: set<Address>, id: ChunkId) returns (x: Repair)
    requires CommittedChunk(db, id) && |Replicas(db, id)| == r && |live| >= r
    requires Replicas(db, id) * live != {} && !(Replicas(db, id) <= live)
    ensures Valid(db, r, live, x) && x.id == id && x.stale.Some?
  {
    var here := Replicas(db, id) * live;
    assert here < Replicas(db, id);
    SubsetSize(here, Replicas(db, id));
    if |here| == r { SubsetSameSize(here, Replicas(db, id)); }
    x := CanRepair(db, r, live, id);
    StaleExists(db, r, live, x);
  }

  lemma GapReady(s: State, live: set<Address>, x: Repair)
    requires ReadyFor(s, live, x)
    ensures var t := Copied(s, x);
      && t.db == s.db && t.r == s.r && t.healer.Pass? && t.healer.phase == Copying(x.id, x.target, true)
      && t.healer.live == live
      && x.id in t.healer.view && t.healer.view[x.id] == Replicas(t.db, x.id) && x.id in t.db.chunks
      && x.stale.Some? && x.stale.value in Replicas(t.db, x.id) - live && x.target !in Replicas(t.db, x.id)
  {}
}
