/** Reads while servers are down, and the replicas that every chunk keeps beside the servers lost. */
module FaultTolerance {
  import opened Base
  import opened Chunking
  import opened Tables
  import opened Protocol
  import opened Safety
  import opened Reads
  import opened Replication
  import opened Discipline
  import opened Refinement
  import opened Fetch
  import opened NamingServer

  // ---- one read ----

  /** Answers a client may get: the bytes of the chunk, or none. */
  ghost predicate Honest(answer: Answers, content: ContentMap) {
    forall a, id :: answer(a, id).Some? ==> id in content && answer(a, id) == Some(content[id])
  }

  /** Every server that is up answers for what its disk holds. */
  ghost predicate UpAnswers(answer: Answers, disk: map<(Address, ChunkId), Bytes>, down: set<Address>) {
    forall a, id :: a !in down && (a, id) in disk ==> answer(a, id) == Some(disk[(a, id)])
  }

  ghost predicate HoldsPiece(s: State, id: ChunkId, piece: Bytes) {
    id in s.content && s.content[id] == piece && id in s.db.chunks && CommittedChunk(s.db, id)
  }

  /** The placements of a committed file, against the session that wrote it. */
  lemma PlacedSession(s: State, fn: Filename, ps: seq<Placement>)
    requires Inv(s) && fn in Visible(s) && PlacementsOf(s.db, fn, ps)
    ensures var w := s.sessions[s.current[fn]];
      && w.data == Visible(s)[fn] && Concat(w.pieces) == w.data && |w.pieces| == |ps|
      && Ascending(ps) && DistinctChunks(ps)
      && forall i :: 0 <= i < |ps| ==> HoldsPiece(s, ps[i].chunkId, w.pieces[i])
  {
    var w := s.sessions[s.current[fn]];
    assert FileOk(s.db, fn, w) && SessionOk(s.current[fn], w, s.origin, s.content);
    SnapshotIsSession(s.db, fn, w, IdList(ps));
    forall i | 0 <= i < |ps| ensures ps[i].chunkId == w.ids[i] && ps[i].index == i {
      assert IdList(ps)[i] == w.ids[i];
    }
  }

  lemma Joined(ps: seq<Placement>, answer: Answers, content: ContentMap, pieces: seq<Bytes>)
    requires Honest(answer, content) && Answered(ps, answer) && |pieces| == |ps|
    requires forall i :: 0 <= i < |ps| ==> ps[i].chunkId in content && content[ps[i].chunkId] == pieces[i]
    ensures FirstAnswers(ps, answer) == pieces
  {
    forall i | 0 <= i < |ps| ensures FirstAnswers(ps, answer)[i] == pieces[i] {
      var r := FirstAnswer(ps[i].locations, answer, ps[i].chunkId);
      assert r.Some?;
      var a :| a in ps[i].locations && answer(a, ps[i].chunkId) == r;
    }
  }

  lemma HonestRead(s: State, fn: Filename, ps: seq<Placement>, answer: Answers)
    requires Inv(s) && fn in Visible(s) && PlacementsOf(s.db, fn, ps) && Honest(answer, s.content)
    ensures Fetched(ps, answer).Some? ==> Concat(Fetched(ps, answer).value) == Visible(s)[fn]
  {
    PlacedSession(s, fn, ps);
    SortSorted(ps);
    if Fetched(ps, answer).Some? {
      Joined(ps, answer, s.content, s.sessions[s.current[fn]].pieces);
    }
  }

  /** In every interleaving and whatever servers fail, the read loop returns the whole file or an error. */
  lemma ReadIsWholeOrError(r: int, es: seq<Event>, s: State, fn: Filename, ps: seq<Placement>, answer: Answers)
    requires Reachable(r, es, s) && fn in Visible(s) && PlacementsOf(s.db, fn, ps) && Honest(answer, s.content)
    ensures Fetched(ps, answer).Some? ==> Concat(Fetched(ps, answer).value) == Visible(s)[fn]
  {
    hide Reachable, Inv, Visible, PlacementsOf, Honest, Fetched;
    ReachableInv(r, es, s);
    HonestRead(s, fn, ps, answer);
  }

  /** Each chunk of the file still has a recorded replica on a server that is up. */
  ghost predicate StillHeld(db: Db, fn: Filename, down: set<Address>) {
    forall id :: id in db.chunks && db.chunks[id].filename == fn ==> Replicas(db, id) - down != {}
  }

  lemma AnsweredWhenReachable(s: State, fn: Filename, ps: seq<Placement>, down: set<Address>, answer: Answers)
    requires Good(s) && fn in Visible(s) && PlacementsOf(s.db, fn, ps)
    requires UpAnswers(answer, s.disk, down) && StillHeld(s.db, fn, down)
    ensures Answered(ps, answer)
  {
    PlacedSession(s, fn, ps);
    forall i | 0 <= i < |ps| ensures FirstAnswer(ps[i].locations, answer, ps[i].chunkId).Some? {
      var id := ps[i].chunkId;
      assert IdList(ps)[i] == id;
      var a :| a in Replicas(s.db, id) - down;
      assert (id, a) in s.db.replicas;
      GoodDisk(s, id, a);
      assert a in Elems(ps[i].locations);
    }
  }

  /** A committed file is readable, byte for byte, as long as each chunk has one recorded replica up. */
  lemma ReadSucceeds(s: State, fn: Filename, ps: seq<Placement>, down: set<Address>, answer: Answers)
    requires Good(s) && fn in Visible(s) && PlacementsOf(s.db, fn, ps)
    requires Honest(answer, s.content) && UpAnswers(answer, s.disk, down) && StillHeld(s.db, fn, down)
    ensures Fetched(ps, answer).Some? && Concat(Fetched(ps, answer).value) == Visible(s)[fn]
  {
    AnsweredWhenReachable(s, fn, ps, down, answer);
    PlacedSession(s, fn, ps);
    SortSorted(ps);
    HonestRead(s, fn, ps, answer);
  }

  // ---- the surplus over the dead ----

  /** The servers that are lost for now, and the chunks that were left short of replicas beside them. */
  datatype Ledger = Ledger(gone: set<Address>, exposed: set<ChunkId>)

  const NONE_LOST := Ledger({}, {})

  /** Beside the lost servers every chunk that is not exposed has R replica rows, and one more while the
      pass is between its add and its remove. */
  ghost predicate Surviving(r: int, db: Db, h: HealState, k: Ledger) {
    forall id :: id in db.chunks && id !in k.exposed ==> |Replicas(db, id) - k.gone| >= r + Surplus(h, id)
  }

  ghost predicate Robust(s: State, k: Ledger) {
    Surviving(s.r, s.db, s.healer, k) && (s.healer.Pass? ==> s.healer.live !! k.gone)
  }

  /** The registry does not hand out lost servers. */
  ghost predicate Avoids(e: Event, k: Ledger) {
    match e
    case ByClient(CreateFile(_, _, _, locs, _)) => forall i, a :: 0 <= i < |locs| && a in locs[i] ==> a !in k.gone
    case ByHeal(Scan(live)) => live !! k.gone
    case _ => true
  }

  lemma RobustReaches(s: State, fn: Filename, k: Ledger, down: set<Address>)
    requires Robust(s, k) && |down - k.gone| < s.r && ChunksOf(s.db, fn) !! k.exposed
    ensures StillHeld(s.db, fn, down)
  {
    forall id | id in s.db.chunks && s.db.chunks[id].filename == fn ensures Replicas(s.db, id) - down != {} {
      assert id in ChunksOf(s.db, fn);
      if Replicas(s.db, id) <= down {
        SubsetSize(Replicas(s.db, id) - k.gone, down - k.gone);
      } else {
        var a :| a in Replicas(s.db, id) && a !in down;
        assert a in Replicas(s.db, id) - down;
      }
    }
  }

  lemma RobustAtFirst(r: int)
    ensures Robust(Init(r), NONE_LOST)
  {}

  lemma RobustNow(s: State)
    requires CountInv(s)
    ensures Robust(s, NONE_LOST)
  {
    forall id | id in s.db.chunks ensures |Replicas(s.db, id) - {}| >= s.r + Surplus(s.healer, id) {
      assert Replicas(s.db, id) - {} == Replicas(s.db, id);
    }
  }

  // ---- every step keeps it ----

  /** Surviving chunks keep their rows; new ones, which no pass knows, have R rows beside the dead. */
  lemma EnoughCarried(r: int, db: Db, e: Db, content: ContentMap, h: HealState, k: Ledger)
    requires Surviving(r, db, h, k) && ViewOk(db, content, h) && CopyOk(r, h)
    requires forall id :: id in e.chunks ==>
      if id in db.chunks then Replicas(e, id) == Replicas(db, id) else id !in content && |Replicas(e, id) - k.gone| >= r
    ensures Surviving(r, e, h, k)
  {}

  lemma CreateEnough(s: State, fn: Filename, data: Bytes, ids: seq<ChunkId>, locs: seq<seq<Address>>, now: real,
      k: Ledger)
    requires Inv(s) && CountInv(s) && CreateOk(s, data, ids, locs) && Robust(s, k)
    requires Avoids(ByClient(CreateFile(fn, data, ids, locs, now)), k)
    ensures Robust(AfterCreate(s, fn, data, ids, locs, now), k)
  {
    hide Replicas, CreatePending, FilesOk, SessionsOk, DiskOk, PayloadsOk, LateDeletesOk, DeletersOk, ReadersOk;
    hide RowsAfterCreate, DeleteMsgs, RowPairs, Pair, Mark;
    var t := AfterCreate(s, fn, data, ids, locs, now);
    CreateDb(s, fn, data, ids, locs, now);
    forall id | id in t.db.chunks
      ensures if id in s.db.chunks then Replicas(t.db, id) == Replicas(s.db, id)
          else id !in s.content && |Replicas(t.db, id) - k.gone| >= s.r
    {
      CreateEnoughOne(s, fn, data, ids, locs, now, k, id);
    }
    EnoughCarried(s.r, s.db, t.db, s.content, s.healer, k);
  }

  lemma CreateEnoughOne(s: State, fn: Filename, data: Bytes, ids: seq<ChunkId>, locs: seq<seq<Address>>,
      now: real, k: Ledger, id: ChunkId)
    requires Inv(s) && CreateOk(s, data, ids, locs) && Avoids(ByClient(CreateFile(fn, data, ids, locs, now)), k)
    requires id in AfterCreate(s, fn, data, ids, locs, now).db.chunks
    ensures var t := AfterCreate(s, fn, data, ids, locs, now);
      if id in s.db.chunks then Replicas(t.db, id) == Replicas(s.db, id)
          else id !in s.content && |Replicas(t.db, id) - k.gone| >= s.r
  {
    hide Replicas, CreatePending, Inv, SplitChunks, PlacementOk, RowsAfterCreate, ForeignKeys;
    CreateFresh(s, fn, data, ids, locs, now);
    if id in ids {
      var i :| 0 <= i < |ids| && ids[i] == id;
      NewChunkRows(s.db, fn, |data|, ids, locs, now, s.r, k, i);
    } else {
      CreateCarriedOne(s.db, fn, |data|, ids, locs, now, s.r, id);
    }
  }

  /** What a create does to the rows, without the rest of the state. */
  lemma CreateFresh(s: State, fn: Filename, data: Bytes, ids: seq<ChunkId>, locs: seq<seq<Address>>, now: real)
    requires Inv(s) && CreateOk(s, data, ids, locs)
    ensures ForeignKeys(s.db) && forall i :: 0 <= i < |ids| ==> ids[i] !in s.content && ids[i] !in s.db.chunks
    ensures var e := AfterCreate(s, fn, data, ids, locs, now).db;
      && e == CreatePending(s.db, fn, |data|, |ids|, Layout(ids, locs), now)
      && forall id :: id in e.chunks && id !in ids ==> id in s.db.chunks && id !in ChunksOf(s.db, fn)
  {
    hide CreatePending, SplitChunks, DeleteMsgs, RowPairs, Pair, Mark, SessionsOk, DiskOk, PayloadsOk;
    hide LateDeletesOk, DeletersOk, ReadersOk;
    CreateDb(s, fn, data, ids, locs, now);
    assert ForeignKeys(s.db);
  }

  lemma NewChunkRows(db: Db, fn: Filename, size: int, ids: seq<ChunkId>, locs: seq<seq<Address>>, now: real,
      r: int, k: Ledger, i: nat)
    requires |ids| == |locs| && Distinct(ids) && PlacementOk(r, locs) && ForeignKeys(db) && i < |ids|
    requires ids[i] !in db.chunks
    requires forall a :: a in locs[i] ==> a !in k.gone
    ensures |Replicas(CreatePending(db, fn, size, |ids|, Layout(ids, locs), now), ids[i]) - k.gone| >= r
  {
    hide Replicas, CreatePending, ForeignKeys;
    var chunks := Layout(ids, locs);
    assert chunks[i] in chunks && chunks[i] == ChunkMeta(ids[i], i, locs[i]);
    FreshReplicas(db, fn, size, |ids|, chunks, now, chunks[i]);
    ElemsDistinct(locs[i]);
    assert Elems(locs[i]) - k.gone == Elems(locs[i]);
  }

  /** Steps other than creates leave the surviving chunks' rows alone, unless they are the pass's own. */
  lemma SameEnough(r: int, db: Db, e: Db, h: HealState, g: HealState, k: Ledger)
    requires Surviving(r, db, h, k)
    requires forall id :: id in e.chunks ==>
      id in db.chunks && Replicas(e, id) == Replicas(db, id) && Surplus(g, id) <= Surplus(h, id)
    ensures Surviving(r, e, g, k)
  {}

  lemma DropEnough(s: State, h: int, k: Ledger)
    requires Robust(s, k) && h in s.deleters
    ensures Robust(AfterDrop(s, h), k)
  {
    forall id | id in AfterDrop(s, h).db.chunks ensures Replicas(AfterDrop(s, h).db, id) == Replicas(s.db, id) {
      DropFileSets(s.db, s.deleters[h].filename, id);
    }
    SameEnough(s.r, s.db, AfterDrop(s, h).db, s.healer, s.healer, k);
  }

  lemma AddRowEnough(r: int, db: Db, h: HealState, g: HealState, k: Ledger, id: ChunkId,
      target: Address)
    requires Surviving(r, db, h, k) && id in db.chunks && target !in Replicas(db, id) && target !in k.gone
    requires forall x :: Surplus(g, x) <= Surplus(h, x) + if x == id then 1 else 0
    ensures Surviving(r, AddReplica(db, id, target).value, g, k)
  {
    hide Replicas, Surplus;
    AddReplicaSets(db, id, target);
    var e := AddReplica(db, id, target).value;
    assert Replicas(e, id) - k.gone == (Replicas(db, id) - k.gone) + {target};
  }

  /** What a recorded copy changes. */
  lemma AddOutcome(s: State)
    requires CountInv(s) && HealEnabled(s, Add) && s.healer.phase.id in s.db.chunks
    ensures s.healer.phase.target in s.healer.live && s.healer.phase.target !in Replicas(s.db, s.healer.phase.id)
    ensures var t := AfterAdd(s);
      && t.db == AddReplica(s.db, s.healer.phase.id, s.healer.phase.target).value && t.r == s.r
      && t.healer.Pass? && t.healer.live == s.healer.live
      && forall x :: Surplus(t.healer, x) <= Surplus(s.healer, x) + if x == s.healer.phase.id then 1 else 0
  {}

  lemma AddEnough(s: State, k: Ledger)
    requires CountInv(s) && Robust(s, k) && HealEnabled(s, Add)
    ensures Robust(AfterAdd(s), k)
  {
    hide Surviving, CountInv, Replicas, Surplus;
    if s.healer.phase.id in s.db.chunks {
      hide AfterAdd;
      AddOutcome(s);
      AddRowEnough(s.r, s.db, s.healer, AfterAdd(s).healer, k, s.healer.phase.id, s.healer.phase.target);
    } else {
      IdleEnough(s.r, s.db, s.healer, k);
    }
  }

  lemma IdleEnough(r: int, db: Db, h: HealState, k: Ledger)
    requires Surviving(r, db, h, k)
    ensures Surviving(r, db, Idle, k)
  {
    SameEnough(r, db, db, h, Idle, k);
  }

  lemma RemoveRowEnough(r: int, db: Db, h: HealState, g: HealState, k: Ledger, id: ChunkId,
      stale: Address)
    requires Surviving(r, db, h, k)
    requires forall x :: Surplus(g, x) <= if x == id then Surplus(h, x) - 1 else Surplus(h, x)
    ensures Surviving(r, RemoveReplica(db, id, stale), g, k)
  {
    hide Replicas, Surplus;
    RemoveReplicaSets(db, id, stale);
    var e := RemoveReplica(db, id, stale);
    forall x | x in e.chunks && x !in k.exposed ensures |Replicas(e, x) - k.gone| >= r + Surplus(g, x) {
      if x == id {
        assert Replicas(e, id) - k.gone == (Replicas(db, id) - k.gone) - {stale};
      }
    }
  }

  lemma RemoveEnough(s: State, stale: Address, k: Ledger)
    requires Robust(s, k) && HealEnabled(s, Remove(stale))
    ensures Robust(AfterRemove(s, stale), k)
  {
    hide Surviving;
    RemoveRowEnough(s.r, s.db, s.healer, AfterRemove(s, stale).healer, k, s.healer.phase.id, stale);
  }

  lemma HealEnough(s: State, h: HealStep, k: Ledger)
    requires CountInv(s) && Robust(s, k) && HealEnabled(s, h) && Avoids(ByHeal(h), k)
    ensures Robust(HealApply(s, h), k)
  {
    match h
    case Scan(live) => SameEnough(s.r, s.db, s.db, s.healer, AfterScan(s, live).healer, k);
    case SendCopy(id, source, target) => SameEnough(s.r, s.db, s.db, s.healer, HealApply(s, h).healer, k);
    case CopyFailed => SameEnough(s.r, s.db, s.db, s.healer, HealApply(s, h).healer, k);
    case Add => AddEnough(s, k);
    case Remove(stale) => RemoveEnough(s, stale, k);
    case EndPass => SameEnough(s.r, s.db, s.db, s.healer, Idle, k);
  }

  lemma ClientEnough(s: State, c: ClientStep, k: Ledger)
    requires Inv(s) && CountInv(s) && Robust(s, k) && ClientEnabled(s, c) && Avoids(ByClient(c), k)
    ensures Robust(ClientApply(s, c), k)
  {
    hide Inv, CountInv, Surviving;
    match c
    case CreateFile(fn, data, ids, locs, now) => CreateEnough(s, fn, data, ids, locs, now, k);
    case Commit(w) => SameEnough(s.r, s.db, ClientApply(s, c).db, s.healer, s.healer, k);
    case BeginOverwrite(fn) =>
    case SendStore(w, id, a) =>
    case Abandon(w) =>
  }

  lemma DiskEnough(s: State, v: DiskStep, k: Ledger)
    requires Robust(s, k) && DiskEnabled(s, v)
    ensures Robust(DiskApply(s, v), k)
  {
    DiskFrame(s, v);
    match v
    case CopyStore(target, id, data) => SameEnough(s.r, s.db, s.db, s.healer,
        AfterCopyStore(s, target, id, data).healer, k);
    case DeliverStore(a, id, data) =>
    case DeliverDelete(a, id, early) =>
    case ScrubRead(a) =>
    case ScrubApply(a) =>
    case CopyRead(target, id, source) =>
  }

  lemma DeleteEnough(s: State, d: DeleteStep, k: Ledger)
    requires Robust(s, k) && DeleteEnabled(s, d)
    ensures Robust(DeleteApply(s, d), k)
  {
    match d
    case DropMetadata(h) => DropEnough(s, h, k);
    case BeginDelete(h, fn, gc) =>
    case SendDelete(h, id, a) =>
  }

  lemma StepEnough(s: State, e: Event, k: Ledger)
    requires Inv(s) && CountInv(s) && Robust(s, k) && Enabled(s, e) && Avoids(e, k)
    ensures Robust(Apply(s, e), k)
  {
    hide Inv, CountInv, Robust, ClientApply, DiskApply, DeleteApply, HealApply, Avoids;
    match e
    case ByClient(c) => ClientEnough(s, c, k);
    case ByDisk(v) => DiskEnough(s, v, k);
    case ByDelete(d) => DeleteEnough(s, d, k);
    case ByHeal(h) => HealEnough(s, h, k);
    case ByRead(q) => ReadFrame(s, q); RobustFrame(s, Apply(s, e), k);
    case NamingCrash => CrashEnough(s, k);
  }

  lemma RobustFrame(s: State, t: State, k: Ledger)
    requires Robust(s, k) && t.r == s.r && t.db == s.db && t.healer == s.healer
    ensures Robust(t, k)
  {}

  lemma CrashEnough(s: State, k: Ledger)
    requires Robust(s, k)
    ensures Robust(AfterNamingCrash(s), k)
  {
    SameEnough(s.r, s.db, s.db, s.healer, Idle, k);
  }

  ghost predicate AllAvoid(es: seq<Event>, k: Ledger) {
    forall i :: 0 <= i < |es| ==> Avoids(es[i], k)
  }

  lemma {:induction false} RunEnough(s: State, es: seq<Event>, k: Ledger)
    requires Good(s) && Robust(s, k) && DRun(s, es) && AllAvoid(es, k)
    ensures Run(s, es) && Good(After(s, es)) && Robust(After(s, es), k)
    decreases |es|
  {
    hide Good, Robust, Enabled, Disciplined, Apply, Avoids;
    DRunKeeps(s, es);
    if es != [] {
      GoodParts(s);
      StepEnough(s, es[0], k);
      GoodStep(s, es[0]);
      assert forall i :: 0 <= i < |es[1..]| ==> es[1..][i] == es[i + 1];
      RunEnough(Apply(s, es[0]), es[1..], k);
    }
  }

  lemma GoodParts(s: State)
    requires Good(s)
    ensures Inv(s) && CountInv(s)
  {}

  /** In every state a disciplined run reaches, any R-1 servers may fail: each committed file still reads
      back byte for byte as the plain map has it. */
  lemma AnyFewFail(r: int, es: seq<Event>, s: State, fn: Filename, ps: seq<Placement>, down: set<Address>,
      answer: Answers)
    requires Reached(r, es, s) && |down| < r && fn in Visible(s) && PlacementsOf(s.db, fn, ps)
    requires Honest(answer, s.content) && UpAnswers(answer, s.disk, down)
    ensures Fetched(ps, answer).Some? && Concat(Fetched(ps, answer).value) == Visible(s)[fn]
    ensures Visible(s) == Replay(map[], Ops(Init(r), es))
  {
    hide Fetched, Answered, Inv, DInv, CountInv, Visible, PlacementsOf;
    InitGood(r);
    RunRefines(Init(r), es);
    ReachedGood(r, es, s);
    GoodParts(s);
    RobustNow(s);
    assert down - {} == down;
    RobustReaches(s, fn, NONE_LOST, down);
    ReadSucceeds(s, fn, ps, down, answer);
  }
}
