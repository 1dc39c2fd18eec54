/** How many replica rows a chunk has, over every fine-grained run. */
module Replication {
  import opened Base
  import opened Tables
  import opened Protocol
  import opened Safety

  /** The pass knows the rows of its chunks: nobody else writes them while the chunk exists. */
  ghost predicate ViewOk(db: Db, content: ContentMap, h: HealState) {
    h.Pass? ==> forall id :: id in h.view ==>
      && id in content
      && (id in db.chunks ==> CommittedChunk(db, id) && Replicas(db, id) == h.view[id])
  }

  ghost predicate CopyOk(r: int, h: HealState) {
    && (h.Pass? && h.phase.Gap? ==> h.phase.id in h.view)
    && (h.Pass? && h.phase.Copying? ==>
          && h.phase.id in h.view && h.phase.target in h.live - h.view[h.phase.id]
          && |h.view[h.phase.id] * h.live| < r)
  }

  /** 1 for the chunk whose dead replica the pass is about to remove. */
  function Surplus(h: HealState, id: ChunkId): int {
    if h.Pass? && h.phase == Gap(id) then 1 else 0
  }

  ghost predicate AtLeast(r: int, db: Db, h: HealState) {
    forall id :: id in db.chunks ==> |Replicas(db, id)| >= r + Surplus(h, id)
  }

  ghost predicate Exactly(r: int, db: Db, h: HealState) {
    forall id :: id in db.chunks ==> |Replicas(db, id)| == r + Surplus(h, id)
  }

  ghost predicate CountInv(s: State) {
    ViewOk(s.db, s.content, s.healer) && CopyOk(s.r, s.healer) && AtLeast(s.r, s.db, s.healer)
  }

  /** The pass stops, or the naming server dies, between its add and its remove. */
  ghost predicate StopsInGap(s: State, e: Event) {
    (e == ByHeal(EndPass) || e == NamingCrash) && s.healer.Pass? && s.healer.phase.Gap?
  }

  ghost predicate ExactKept(s: State, t: State) {
    Exactly(s.r, s.db, s.healer) ==> Exactly(s.r, t.db, t.healer)
  }

  // ---- steps that change rows ----

  lemma OldReplicas(db: Db, fn: Filename, size: int, n: int, chunks: seq<ChunkMeta>, now: real, id: ChunkId)
    requires DistinctIds(chunks) && id !in Ids(chunks) && id !in ChunksOf(db, fn)
    ensures Replicas(CreatePending(db, fn, size, n, chunks, now), id) == Replicas(db, id)
  {
    DropFileSets(db, fn, id);
    var d := DropFile(db, fn);
    var e := CreatePending(db, fn, size, n, chunks, now);
    assert forall p :: p in e.replicas && p.0 == id ==> p in d.replicas;
    forall a | a in Replicas(d, id) ensures a in Replicas(e, id) { assert (id, a) in e.replicas; }
  }

  lemma FreshReplicas(db: Db, fn: Filename, size: int, n: int, chunks: seq<ChunkMeta>, now: real, c: ChunkMeta)
    requires DistinctIds(chunks) && c in chunks && c.chunkId !in db.chunks && ForeignKeys(db)
    ensures Replicas(CreatePending(db, fn, size, n, chunks, now), c.chunkId) == Elems(c.locations)
  {
    hide ChunkRows;
    var e := CreatePending(db, fn, size, n, chunks, now);
    forall p | p in e.replicas && p.0 == c.chunkId ensures p.1 in c.locations {
      assert p in ReplicaRows(chunks);
      var x :| x in chunks && x.chunkId == p.0 && p.1 in x.locations;
    }
    forall a | a in c.locations ensures a in Replicas(e, c.chunkId) {
      assert (c.chunkId, a) in e.replicas;
    }
  }

  /** Surviving chunks keep their rows and their status; new chunks have R rows and new ids. */
  ghost predicate Carried(r: int, db: Db, e: Db, content: ContentMap) {
    forall id :: id in e.chunks ==>
      if id in db.chunks then Replicas(e, id) == Replicas(db, id) && (CommittedChunk(db, id) ==> CommittedChunk(e, id))
      else id !in content && |Replicas(e, id)| == r
  }

  lemma CarriedCounts(r: int, db: Db, e: Db, content: ContentMap, content': ContentMap, h: HealState)
    requires ViewOk(db, content, h) && CopyOk(r, h) && AtLeast(r, db, h) && Carried(r, db, e, content)
    requires forall id :: id in content ==> id in content'
    ensures ViewOk(e, content', h) && AtLeast(r, e, h)
    ensures Exactly(r, db, h) ==> Exactly(r, e, h)
  {}

  /** A chunk after `create_pending`: new with R rows, or as it was. */
  lemma CreateCarriedOne(db: Db, fn: Filename, size: int, ids: seq<ChunkId>, locs: seq<seq<Address>>, now: real,
      r: int, id: ChunkId)
    requires |ids| == |locs| && Distinct(ids) && PlacementOk(r, locs) && ForeignKeys(db)
    requires forall i :: 0 <= i < |ids| ==> ids[i] !in db.chunks
    ensures var e := CreatePending(db, fn, size, |ids|, Layout(ids, locs), now);
      && (id in ids ==> |Replicas(e, id)| == r)
      && (id !in ids && id !in ChunksOf(db, fn) ==> Replicas(e, id) == Replicas(db, id))
  {
    hide ForeignKeys, CreatePending, Replicas;
    var chunks := Layout(ids, locs);
    LayoutIds(ids, locs);
    if id in ids {
      var i :| 0 <= i < |ids| && ids[i] == id;
      assert chunks[i] in chunks && chunks[i] == ChunkMeta(id, i, locs[i]);
      FreshReplicas(db, fn, size, |ids|, chunks, now, chunks[i]);
      ElemsDistinct(locs[i]);
    } else if id !in ChunksOf(db, fn) {
      OldReplicas(db, fn, size, |ids|, chunks, now, id);
    }
  }

  lemma CreateCarried(db: Db, fn: Filename, size: int, ids: seq<ChunkId>, locs: seq<seq<Address>>, now: real,
      r: int, content: ContentMap)
    requires |ids| == |locs| && Distinct(ids) && PlacementOk(r, locs) && ForeignKeys(db)
    requires forall i :: 0 <= i < |ids| ==> ids[i] !in content
    requires forall id :: id in db.chunks ==> id in content
    ensures Carried(r, db, CreatePending(db, fn, size, |ids|, Layout(ids, locs), now), content)
  {
    hide Replicas, PlacementOk;
    var e := CreatePending(db, fn, size, |ids|, Layout(ids, locs), now);
    CreateRows(db, fn, size, ids, locs, now);
    forall id | id in e.chunks
      ensures if id in db.chunks then Replicas(e, id) == Replicas(db, id) && (CommittedChunk(db, id) ==>
        CommittedChunk(e, id))
              else id !in content && |Replicas(e, id)| == r
    {
      CreateCarriedOne(db, fn, size, ids, locs, now, r, id);
    }
  }

  lemma CreateCounts(s: State, fn: Filename, data: Bytes, ids: seq<ChunkId>, locs: seq<seq<Address>>, now: real)
    requires Inv(s) && CountInv(s) && CreateOk(s, data, ids, locs)
    ensures CountInv(AfterCreate(s, fn, data, ids, locs, now)) && ExactKept(s, AfterCreate(s, fn, data, ids, locs, now))
  {
    var t := AfterCreate(s, fn, data, ids, locs, now);
    CreateDb(s, fn, data, ids, locs, now);
    CreateSessions(s, fn, data, ids, locs, now);
    CreateCarried(s.db, fn, |data|, ids, locs, now, s.r, s.content);
    CarriedCounts(s.r, s.db, t.db, s.content, t.content, s.healer);
  }

  lemma DropCarried(r: int, db: Db, fn: Filename, content: ContentMap)
    ensures Carried(r, db, DropFile(db, fn), content)
  {
    var e := DropFile(db, fn);
    forall id | id in e.chunks
      ensures id in db.chunks && Replicas(e, id) == Replicas(db, id) && (CommittedChunk(db, id) ==>
        CommittedChunk(e, id))
    {
      DropFileSets(db, fn, id);
    }
  }

  lemma DropCounts(s: State, h: int)
    requires CountInv(s) && DeleteEnabled(s, DropMetadata(h))
    ensures CountInv(AfterDrop(s, h)) && ExactKept(s, AfterDrop(s, h))
  {
    DropCarried(s.r, s.db, s.deleters[h].filename, s.content);
    CarriedCounts(s.r, s.db, AfterDrop(s, h).db, s.content, s.content, s.healer);
  }

  lemma CommitCarried(r: int, db: Db, fn: Filename, content: ContentMap)
    ensures Carried(r, db, CommitFile(db, fn), content)
  {}

  lemma AddReplicaViews(db: Db, content: ContentMap, h: HealState, id: ChunkId, target: Address, phase: Phase)
    requires h.Pass? && ViewOk(db, content, h) && id in h.view && id in db.chunks
    ensures ViewOk(AddReplica(db, id, target).value, content,
        h.(view := h.view[id := h.view[id] + {target}], phase := phase))
  {
    AddReplicaSets(db, id, target);
    var e := AddReplica(db, id, target).value;
    assert forall x :: CommittedChunk(db, x) <==> CommittedChunk(e, x);
  }

  lemma AddReplicaCounts(r: int, db: Db, h: HealState, g: HealState, id: ChunkId, target: Address)
    requires id in db.chunks && target !in Replicas(db, id)
    requires forall x :: Surplus(h, x) == 0
    requires g.Pass? && g.phase == Gap(id)
    ensures AtLeast(r, db, h) ==> AtLeast(r, AddReplica(db, id, target).value, g)
    ensures Exactly(r, db, h) ==> Exactly(r, AddReplica(db, id, target).value, g)
  {
    AddReplicaSets(db, id, target);
  }

  lemma NotAllLive(db: Db, content: ContentMap, r: int, h: HealState)
    requires ViewOk(db, content, h) && CopyOk(r, h) && AtLeast(r, db, h) && h.Pass? && h.phase.Copying?
    ensures h.phase.id in db.chunks ==> exists a :: a in Replicas(db, h.phase.id) && a !in h.live
  {
    if h.phase.id in db.chunks {
      var known := h.view[h.phase.id];
      assert known * h.live != known;
    }
  }

  lemma ViewKnown(db: Db, content: ContentMap, h: HealState)
    requires ViewOk(db, content, h)
    ensures h.Pass? ==> forall id :: id in h.view && id in db.chunks ==> Replicas(db, id) == h.view[id]
  {}

  lemma IdleCounts(r: int, db: Db, content: ContentMap, h: HealState)
    requires ViewOk(db, content, h) && AtLeast(r, db, h) && (h.Pass? ==> !h.phase.Gap?)
    ensures ViewOk(db, content, Idle) && AtLeast(r, db, Idle) && (Exactly(r, db, h) ==> Exactly(r, db, Idle))
  {}

  lemma AddedCounts(s: State)
    requires CountInv(s) && HealEnabled(s, Add) && s.healer.phase.id in s.db.chunks
    ensures CountInv(AfterAdd(s)) && ExactKept(s, AfterAdd(s))
    ensures AfterAdd(s).healer.Pass? && AfterAdd(s).healer.phase == Gap(s.healer.phase.id)
  {
    hide ViewOk, AtLeast, Exactly, Replicas;
    var id, target := s.healer.phase.id, s.healer.phase.target;
    ViewKnown(s.db, s.content, s.healer);
    NotAllLive(s.db, s.content, s.r, s.healer);
    AddReplicaViews(s.db, s.content, s.healer, id, target, Gap(id));
    AddReplicaCounts(s.r, s.db, s.healer, AfterAdd(s).healer, id, target);
  }

  lemma RefusedCounts(s: State)
    requires CountInv(s) && HealEnabled(s, Add) && s.healer.phase.id !in s.db.chunks
    ensures CountInv(AfterAdd(s)) && ExactKept(s, AfterAdd(s))
  {
    hide ViewOk, AtLeast, Exactly, Replicas;
    IdleCounts(s.r, s.db, s.content, s.healer);
  }

  lemma AddCounts(s: State)
    requires CountInv(s) && HealEnabled(s, Add)
    ensures CountInv(AfterAdd(s)) && ExactKept(s, AfterAdd(s))
  {
    hide CountInv, AfterAdd, ExactKept;
    if s.healer.phase.id in s.db.chunks { AddedCounts(s); } else { RefusedCounts(s); }
  }

  lemma RemoveReplicaViews(db: Db, content: ContentMap, h: HealState, id: ChunkId, stale: Address)
    requires h.Pass? && ViewOk(db, content, h) && id in h.view
    ensures ViewOk(RemoveReplica(db, id, stale), content,
        h.(view := h.view[id := h.view[id] - {stale}], phase := Ready))
  {
    RemoveReplicaSets(db, id, stale);
    var e := RemoveReplica(db, id, stale);
    assert forall x :: CommittedChunk(db, x) <==> CommittedChunk(e, x);
  }

  lemma RemoveReplicaCounts(r: int, db: Db, h: HealState, g: HealState, id: ChunkId, stale: Address)
    requires id in db.chunks ==> stale in Replicas(db, id)
    requires h.Pass? && h.phase == Gap(id) && g.Pass? && g.phase == Ready
    ensures AtLeast(r, db, h) ==> AtLeast(r, RemoveReplica(db, id, stale), g)
    ensures Exactly(r, db, h) ==> Exactly(r, RemoveReplica(db, id, stale), g)
  {
    RemoveReplicaSets(db, id, stale);
  }

  lemma RemoveCounts(s: State, stale: Address)
    requires CountInv(s) && HealEnabled(s, Remove(stale))
    ensures CountInv(AfterRemove(s, stale)) && ExactKept(s, AfterRemove(s, stale))
  {
    var id := s.healer.phase.id;
    RemoveReplicaViews(s.db, s.content, s.healer, id, stale);
    RemoveReplicaCounts(s.r, s.db, s.healer, AfterRemove(s, stale).healer, id, stale);
  }

  lemma ScanCounts(s: State, live: set<Address>)
    requires Inv(s) && CountInv(s) && HealEnabled(s, Scan(live))
    ensures CountInv(AfterScan(s, live)) && ExactKept(s, AfterScan(s, live))
  {
    hide FilesOk, SessionsOk, DiskOk, PayloadsOk, LateDeletesOk, DeletersOk, ReadersOk, Replicas, CommittedChunk;
    forall id | id in s.db.chunks ensures id in s.content { RowsAreUsed(s, id); }
    ScanView(s.r, s.db, s.content, s.healer, AfterScan(s, live).healer);
  }

  lemma ScanView(r: int, db: Db, content: ContentMap, h: HealState, g: HealState)
    requires h.Idle? && g.Pass? && g.phase == Ready
    requires forall id :: id in db.chunks ==> id in content
    requires forall id :: id in g.view ==> id in db.chunks && CommittedChunk(db, id) && g.view[id] == Replicas(db, id)
    ensures ViewOk(db, content, g)
    ensures AtLeast(r, db, h) ==> AtLeast(r, db, g)
    ensures Exactly(r, db, h) ==> Exactly(r, db, g)
  {}

  // ---- every step ----

  lemma ClientCounts(s: State, c: ClientStep)
    requires Inv(s) && CountInv(s) && ClientEnabled(s, c)
    ensures CountInv(ClientApply(s, c)) && ExactKept(s, ClientApply(s, c))
  {
    match c
    case CreateFile(fn, data, ids, locs, now) => CreateCounts(s, fn, data, ids, locs, now);
    case Commit(w) =>
      CommitCarried(s.r, s.db, s.sessions[w].filename, s.content);
      CarriedCounts(s.r, s.db, ClientApply(s, c).db, s.content, s.content, s.healer);
    case BeginOverwrite(fn) =>
    case SendStore(w, id, a) =>
    case Abandon(w) =>
  }

  lemma DiskCounts(s: State, v: DiskStep)
    requires CountInv(s) && DiskEnabled(s, v)
    ensures CountInv(DiskApply(s, v)) && ExactKept(s, DiskApply(s, v))
  {
    DiskFrame(s, v);
    match v
    case CopyStore(target, id, data) =>
    case DeliverStore(a, id, data) =>
    case DeliverDelete(a, id, early) =>
    case ScrubRead(a) =>
    case ScrubApply(a) =>
    case CopyRead(target, id, source) =>
  }

  lemma DeleteCounts(s: State, d: DeleteStep)
    requires CountInv(s) && DeleteEnabled(s, d)
    ensures CountInv(DeleteApply(s, d)) && ExactKept(s, DeleteApply(s, d))
  {
    match d
    case DropMetadata(h) => DropCounts(s, h);
    case BeginDelete(h, fn, gc) =>
    case SendDelete(h, id, a) =>
  }

  lemma PhaseCounts(s: State, h: HealStep)
    requires CountInv(s) && HealEnabled(s, h) && (h.SendCopy? || h.CopyFailed? || h.EndPass?)
    ensures CountInv(HealApply(s, h)) && (StopsInGap(s, ByHeal(h)) || ExactKept(s, HealApply(s, h)))
  {
    match h
    case SendCopy(id, source, target) =>
    case CopyFailed =>
    case EndPass =>
  }

  lemma HealCounts(s: State, h: HealStep)
    requires Inv(s) && CountInv(s) && HealEnabled(s, h)
    ensures CountInv(HealApply(s, h)) && (StopsInGap(s, ByHeal(h)) || ExactKept(s, HealApply(s, h)))
  {
    match h
    case Scan(live) => ScanCounts(s, live);
    case Add => AddCounts(s);
    case Remove(stale) => RemoveCounts(s, stale);
    case _ => PhaseCounts(s, h);
  }

  lemma ReadCounts(s: State, q: ReadStep)
    requires CountInv(s) && ReadEnabled(s, q)
    ensures CountInv(ReadApply(s, q)) && ExactKept(s, ReadApply(s, q))
  {
    ReadFrame(s, q);
  }

  lemma CrashCounts(s: State)
    requires CountInv(s)
    ensures CountInv(AfterNamingCrash(s)) && (StopsInGap(s, NamingCrash) || ExactKept(s, AfterNamingCrash(s)))
  {}

  lemma StepCounts(s: State, e: Event)
    requires Inv(s) && CountInv(s) && Enabled(s, e)
    ensures CountInv(Apply(s, e)) && (StopsInGap(s, e) || ExactKept(s, Apply(s, e)))
  {
    hide Inv, CountInv, ExactKept, StopsInGap, ClientApply, DiskApply, DeleteApply, HealApply, ReadApply;
    hide AfterNamingCrash;
    match e
    case ByClient(c) => ClientCounts(s, c);
    case ByDisk(v) => DiskCounts(s, v);
    case ByDelete(d) => DeleteCounts(s, d);
    case ByHeal(h) => HealCounts(s, h);
    case ByRead(q) => ReadCounts(s, q);
    case NamingCrash => CrashCounts(s);
  }

  lemma {:induction false} RunCounts(s: State, es: seq<Event>)
    requires Inv(s) && CountInv(s) && Run(s, es)
    ensures Inv(After(s, es)) && CountInv(After(s, es))
    decreases |es|
  {
    hide Inv, CountInv, Enabled, Apply, StopsInGap, ExactKept;
    if es != [] {
      StepKeeps(s, es[0]);
      StepCounts(s, es[0]);
      RunCounts(Apply(s, es[0]), es[1..]);
    }
  }

  lemma StepKeepsR(s: State, e: Event)
    requires Enabled(s, e)
    ensures Apply(s, e).r == s.r
  {
    match e
    case ByClient(c) => if !c.CreateFile? { ClientFrame(s, c); }
    case ByDisk(v) => DiskFrame(s, v);
    case ByDelete(d) => DeleteFrame(s, d);
    case ByHeal(h) => HealFrame(s, h);
    case ByRead(q) => ReadFrame(s, q);
    case NamingCrash =>
  }

  lemma {:induction false} RunKeepsR(s: State, es: seq<Event>)
    requires Run(s, es)
    ensures After(s, es).r == s.r
    decreases |es|
  {
    if es != [] {
      StepKeepsR(s, es[0]);
      RunKeepsR(Apply(s, es[0]), es[1..]);
    }
  }

  /** The guard before `remove_replica` never fails: a recorded repair always finds a dead
      replica to retire. */
  lemma RepairFindsStale(r: int, es: seq<Event>, s: State)
    requires Reachable(r, es, s) && HealEnabled(s, Add) && s.healer.phase.id in s.db.chunks
    ensures exists a :: a in Replicas(s.db, s.healer.phase.id) && a !in s.healer.live
  {
    InitInv(r);
    RunCounts(Init(r), es);
    RunKeepsR(Init(r), es);
    NotAllLive(s.db, s.content, s.r, s.healer);
  }
}
