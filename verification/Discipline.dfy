/** Runs that keep the assumptions the code relies on, and what holds in all of them. */
module Discipline {
  import opened Base
  import opened Tables
  import opened Protocol
  import opened Safety
  import opened Replication

  /** - one write session in flight per name, because CommitFile names only the file;
      - CreateFile starts its deletes together with the swap of the metadata;
      - the pending cleanup does not remove a name that was committed after it was listed;
      - a scrub is not applied when the expected set it read lacks an acknowledged copy that is recorded
        there by now, or a repair copy that is stored there and about to be recorded. */
  ghost predicate Disciplined(s: State, e: Event)
    requires Enabled(s, e)
  {
    match e
    case ByClient(c) => ClientDisciplined(s, c)
    case ByDisk(v) => v.ScrubApply? ==> ScrubSafe(s, v.addr)
    case ByDelete(d) => d.DropMetadata? ==> DropSafe(s, s.deleters[d.handler])
    case _ => true
  }

  ghost predicate ClientDisciplined(s: State, c: ClientStep) {
    && !c.BeginOverwrite?
    && (c.CreateFile? ==> forall w :: w in s.open && 0 <= w < |s.sessions| ==> s.sessions[w].filename != c.filename)
  }

  /** An acknowledged copy that is recorded, or a repair copy that is stored and about to be recorded. */
  ghost predicate Needed(s: State, a: Address, id: ChunkId) {
    || ((id, a) in s.db.replicas && Stored(a, id) in s.msgs)
    || (id in s.db.chunks && s.healer.Pass? && s.healer.phase == Copying(id, a, true))
  }

  ghost predicate ScrubSafe(s: State, a: Address)
    requires a in s.scrubs
  {
    forall id :: Needed(s, a, id) ==> id in s.scrubs[a]
  }

  ghost predicate DropSafe(s: State, d: Deleter) {
    d.gc && d.filename in s.db.files ==> s.db.files[d.filename].status == Pending
  }

  // ---- the invariant ----

  ghost predicate MsgsDisciplined(msgs: set<Msg>, content: ContentMap) {
    && (forall m :: m in msgs && m.Delete? ==> !m.early)
    && (forall m :: m in msgs && m.Stored? ==> m.id in content)
  }

  /** A session in flight still owns its name, unless the name was deleted. */
  ghost predicate OpenOk(open: set<int>, sessions: seq<Session>, current: map<Filename, int>) {
    forall w :: w in open ==> 0 <= w < |sessions| && (sessions[w].filename in current ==>
      current[sessions[w].filename] == w)
  }

  ghost predicate RowKept(db: Db, p: (ChunkId, Address), disk: map<(Address, ChunkId), Bytes>, msgs: set<Msg>) {
    && (Stored(p.1, p.0) in msgs ==> (p.1, p.0) in disk)
    && (CommittedChunk(db, p.0) ==> Stored(p.1, p.0) in msgs)
  }

  ghost predicate RowsKept(db: Db, disk: map<(Address, ChunkId), Bytes>, msgs: set<Msg>) {
    forall p :: p in db.replicas ==> RowKept(db, p, disk, msgs)
  }

  /** The replica rows of an uncommitted chunk are those its writer was told to fill. */
  ghost predicate RowsPlanned(db: Db, sessions: seq<Session>, origin: map<ChunkId, int>) {
    forall p :: p in db.replicas && !CommittedChunk(db, p.0) ==>
      p.0 in origin && 0 <= origin[p.0] < |sessions| && p in sessions[origin[p.0]].plan
  }

  ghost predicate CopyKept(chunks: map<ChunkId, ChunkRow>, h: HealState, disk: map<(Address, ChunkId), Bytes>,
      msgs: set<Msg>) {
    h.Pass? && h.phase.Copying? && h.phase.stored && h.phase.id in chunks ==>
      (h.phase.target, h.phase.id) in disk && Stored(h.phase.target, h.phase.id) in msgs
  }

  ghost predicate DInv(s: State) {
    && MsgsDisciplined(s.msgs, s.content)
    && OpenOk(s.open, s.sessions, s.current)
    && RowsKept(s.db, s.disk, s.msgs)
    && RowsPlanned(s.db, s.sessions, s.origin)
    && CopyKept(s.db.chunks, s.healer, s.disk, s.msgs)
  }

  // ---- preservation ----

  /** Rows that survive a change of metadata, with new rows only for chunks never stored before. */
  lemma SurvivingRows(db: Db, e: Db, disk: map<(Address, ChunkId), Bytes>, msgs: set<Msg>, msgs': set<Msg>)
    requires RowsKept(db, disk, msgs)
    requires forall m :: m in msgs' && m.Stored? ==> m in msgs
    requires msgs <= msgs'
    requires forall p :: p in e.replicas ==>
      || (p in db.replicas && (CommittedChunk(e, p.0) ==> CommittedChunk(db, p.0)))
      || (!CommittedChunk(e, p.0) && Stored(p.1, p.0) !in msgs)
    ensures RowsKept(e, disk, msgs')
  {
    forall p | p in e.replicas ensures RowKept(e, p, disk, msgs') {
      if p in db.replicas { assert RowKept(db, p, disk, msgs); }
    }
  }

  ghost predicate RowsFrom(db: Db, e: Db, chunks: seq<ChunkMeta>) {
    forall p :: p in e.replicas ==>
      if p.0 in Ids(chunks) then p in ReplicaRows(chunks) && !CommittedChunk(e, p.0)
      else p in db.replicas && (CommittedChunk(e, p.0) <==> CommittedChunk(db, p.0))
  }

  lemma CreateStatus(db: Db, fn: Filename, size: int, n: int, chunks: seq<ChunkMeta>, now: real, id: ChunkId)
    requires DistinctIds(chunks) && forall x :: x in Ids(chunks) ==> x !in db.chunks
    ensures var e := CreatePending(db, fn, size, n, chunks, now);
      && (id in Ids(chunks) ==> !CommittedChunk(e, id))
      && (id !in Ids(chunks) && id !in ChunksOf(db, fn) ==> (CommittedChunk(e, id) <==> CommittedChunk(db, id)))
  {
    if id in Ids(chunks) {
      assert ChunkRows(fn, chunks)[id].filename == fn;
    }
  }

  lemma CreateRowsFrom(db: Db, fn: Filename, size: int, n: int, chunks: seq<ChunkMeta>, now: real)
    requires DistinctIds(chunks) && ForeignKeys(db) && forall id :: id in Ids(chunks) ==> id !in db.chunks
    ensures RowsFrom(db, CreatePending(db, fn, size, n, chunks, now), chunks)
  {
    hide CommittedChunk;
    var e := CreatePending(db, fn, size, n, chunks, now);
    forall p | p in e.replicas
      ensures if p.0 in Ids(chunks) then p in ReplicaRows(chunks) && !CommittedChunk(e, p.0)
              else p in db.replicas && (CommittedChunk(e, p.0) <==> CommittedChunk(db, p.0))
    {
      CreateStatus(db, fn, size, n, chunks, now, p.0);
    }
  }

  lemma CreateRowsKept(db: Db, e: Db, chunks: seq<ChunkMeta>, content: ContentMap,
      disk: map<(Address, ChunkId), Bytes>, msgs: set<Msg>, msgs': set<Msg>)
    requires RowsKept(db, disk, msgs) && RowsFrom(db, e, chunks) && MsgsDisciplined(msgs, content)
    requires forall id :: id in Ids(chunks) ==> id !in content
    requires msgs <= msgs' && forall m :: m in msgs' && m.Stored? ==> m in msgs
    ensures RowsKept(e, disk, msgs')
  {
    SurvivingRows(db, e, disk, msgs, msgs');
  }

  lemma CreatePlanned(db: Db, e: Db, chunks: seq<ChunkMeta>, sessions: seq<Session>, x: Session,
      origin: map<ChunkId, int>, origin': map<ChunkId, int>)
    requires RowsPlanned(db, sessions, origin) && RowsFrom(db, e, chunks) && x.plan == ReplicaRows(chunks)
    requires forall id :: id in Ids(chunks) ==> id in origin' && origin'[id] == |sessions|
    requires forall id :: id in origin && id !in Ids(chunks) ==> id in origin' && origin'[id] == origin[id]
    ensures RowsPlanned(e, sessions + [x], origin')
  {}

  lemma FreshIds(s: State, data: Bytes, ids: seq<ChunkId>, locs: seq<seq<Address>>)
    requires Inv(s) && CreateOk(s, data, ids, locs)
    ensures forall id :: id in Ids(Layout(ids, locs)) ==> id !in s.content && id !in s.db.chunks
    ensures forall id :: id in Ids(Layout(ids, locs)) <==> id in ids
    ensures ForeignKeys(s.db)
  {
    LayoutIds(ids, locs);
    forall id | id in s.db.chunks ensures id in s.content { RowsAreUsed(s, id); }
  }

  lemma CreateRowsDisciplined(s: State, fn: Filename, data: Bytes, ids: seq<ChunkId>, locs: seq<seq<Address>>,
      now: real)
    requires Inv(s) && MsgsDisciplined(s.msgs, s.content) && RowsKept(s.db, s.disk, s.msgs)
    requires CreateOk(s, data, ids, locs)
    ensures var t := AfterCreate(s, fn, data, ids, locs, now);
      RowsKept(t.db, t.disk, t.msgs) && RowsFrom(s.db, t.db, Layout(ids, locs))
  {
    var chunks := Layout(ids, locs);
    var t := AfterCreate(s, fn, data, ids, locs, now);
    FreshIds(s, data, ids, locs);
    CreateRowsFrom(s.db, fn, |data|, |ids|, chunks, now);
    CreateRowsKept(s.db, t.db, chunks, s.content, s.disk, s.msgs, t.msgs);
  }

  lemma CreatePlanDisciplined(s: State, fn: Filename, data: Bytes, ids: seq<ChunkId>, locs: seq<seq<Address>>,
      now: real)
    requires RowsPlanned(s.db, s.sessions, s.origin) && |ids| == |locs| == |Chunking.SplitChunks(data)| && Distinct(ids)
    requires RowsFrom(s.db, AfterCreate(s, fn, data, ids, locs, now).db, Layout(ids, locs))
    ensures var t := AfterCreate(s, fn, data, ids, locs, now); RowsPlanned(t.db, t.sessions, t.origin)
  {
    var t := AfterCreate(s, fn, data, ids, locs, now);
    LayoutIds(ids, locs);
    CreatePlanned(s.db, t.db, Layout(ids, locs), s.sessions, t.sessions[|s.sessions|], s.origin, t.origin);
  }

  lemma CreateDisciplined(s: State, fn: Filename, data: Bytes, ids: seq<ChunkId>, locs: seq<seq<Address>>, now: real)
    requires Inv(s) && CountInv(s) && DInv(s) && CreateOk(s, data, ids, locs)
    requires ClientDisciplined(s, CreateFile(fn, data, ids, locs, now))
    ensures DInv(AfterCreate(s, fn, data, ids, locs, now))
  {
    var t := AfterCreate(s, fn, data, ids, locs, now);
    CreateRowsDisciplined(s, fn, data, ids, locs, now);
    CreatePlanDisciplined(s, fn, data, ids, locs, now);
    CreateDb(s, fn, data, ids, locs, now);
    CreateCopyKept(s, t, ids);
    CreateMsgs(s, t, fn);
    CreateOpen(s, fn, t.sessions[|s.sessions|]);
  }

  lemma CreateMsgs(s: State, t: State, fn: Filename)
    requires MsgsDisciplined(s.msgs, s.content) && t.msgs == s.msgs + DeleteMsgs(RowPairs(s.db, fn), false)
    requires forall id :: id in s.content ==> id in t.content
    ensures MsgsDisciplined(t.msgs, t.content)
  {}

  lemma CreateOpen(s: State, fn: Filename, x: Session)
    requires OpenOk(s.open, s.sessions, s.current) && x.filename == fn
    requires forall w :: w in s.open && 0 <= w < |s.sessions| ==> s.sessions[w].filename != fn
    ensures OpenOk(s.open + {|s.sessions|}, s.sessions + [x], s.current[fn := |s.sessions|])
  {}

  lemma CreateCopyKept(s: State, t: State, ids: seq<ChunkId>)
    requires CopyKept(s.db.chunks, s.healer, s.disk, s.msgs) && CopyOk(s.r, s.healer)
    requires ViewOk(s.db, s.content, s.healer)
    requires t.healer == s.healer && t.disk == s.disk && s.msgs <= t.msgs
    requires forall id :: id in ids ==> id !in s.content
    requires forall id :: id in t.db.chunks && id !in ids ==> id in s.db.chunks
    ensures CopyKept(t.db.chunks, t.healer, t.disk, t.msgs)
  {}

  // ---- deletes ----

  lemma DropRowsKept(db: Db, fn: Filename, disk: map<(Address, ChunkId), Bytes>, msgs: set<Msg>,
      sessions: seq<Session>, origin: map<ChunkId, int>)
    requires RowsKept(db, disk, msgs) && RowsPlanned(db, sessions, origin) && ForeignKeys(db)
    ensures RowsKept(DropFile(db, fn), disk, msgs) && RowsPlanned(DropFile(db, fn), sessions, origin)
  {
    var e := DropFile(db, fn);
    forall p | p in e.replicas ensures CommittedChunk(e, p.0) <==> CommittedChunk(db, p.0) {}
    SurvivingRows(db, e, disk, msgs, msgs);
  }

  lemma DeleteDisciplined(s: State, d: DeleteStep)
    requires Inv(s) && DInv(s) && DeleteEnabled(s, d)
    ensures DInv(DeleteApply(s, d))
  {
    match d
    case BeginDelete(h, fn, gc) =>
    case DropMetadata(h) => DropRowsKept(s.db, s.deleters[h].filename, s.disk, s.msgs, s.sessions, s.origin);
    case SendDelete(h, id, a) => SendKept(s, {Delete(a, id, false)});
  }

  // ---- commit ----

  /** Only the name's own session can make its chunks readable. */
  lemma NewlyCommitted(s: State, w: int, p: (ChunkId, Address))
    requires Inv(s) && OpenOk(s.open, s.sessions, s.current) && w in s.open && 0 <= w < |s.sessions|
    requires p in s.db.replicas
    requires CommittedChunk(CommitFile(s.db, s.sessions[w].filename), p.0) && !CommittedChunk(s.db, p.0)
    ensures p.0 in s.origin && s.origin[p.0] == w
  {
    RowsAreUsed(s, p.0);
  }

  lemma CommitRowsKept(s: State, w: int)
    requires Inv(s) && DInv(s) && ClientEnabled(s, Commit(w))
    ensures RowsKept(CommitFile(s.db, s.sessions[w].filename), s.disk, s.msgs)
  {
    var e := CommitFile(s.db, s.sessions[w].filename);
    forall p | p in e.replicas ensures RowKept(e, p, s.disk, s.msgs) {
      assert RowKept(s.db, p, s.disk, s.msgs);
      if CommittedChunk(e, p.0) && !CommittedChunk(s.db, p.0) {
        NewlyCommitted(s, w, p);
      }
    }
  }

  lemma CommitDisciplined(s: State, w: int)
    requires Inv(s) && DInv(s) && ClientEnabled(s, Commit(w))
    ensures DInv(s.(db := CommitFile(s.db, s.sessions[w].filename), open := s.open - {w}))
  {
    CommitRowsKept(s, w);
    CommitPlanned(s.db, s.sessions[w].filename, s.sessions, s.origin);
  }

  lemma CommitPlanned(db: Db, fn: Filename, sessions: seq<Session>, origin: map<ChunkId, int>)
    requires RowsPlanned(db, sessions, origin)
    ensures RowsPlanned(CommitFile(db, fn), sessions, origin)
  {
    assert forall id :: CommittedChunk(db, id) ==> CommittedChunk(CommitFile(db, fn), id);
  }

  lemma SendKept(s: State, more: set<Msg>)
    requires DInv(s)
    requires forall m :: m in more ==> !m.Stored? && (m.Delete? ==> !m.early)
    ensures MsgsDisciplined(s.msgs + more, s.content) && RowsKept(s.db, s.disk, s.msgs + more)
    ensures CopyKept(s.db.chunks, s.healer, s.disk, s.msgs + more)
  {
    SurvivingRows(s.db, s.db, s.disk, s.msgs, s.msgs + more);
  }

  lemma ClientDisciplinedKeeps(s: State, c: ClientStep)
    requires Inv(s) && CountInv(s) && DInv(s) && ClientEnabled(s, c) && ClientDisciplined(s, c)
    ensures DInv(ClientApply(s, c))
  {
    match c
    case CreateFile(fn, data, ids, locs, now) => CreateDisciplined(s, fn, data, ids, locs, now);
    case SendStore(w, id, a) => SendKept(s, {Store(a, id, s.content[id])});
    case Commit(w) => CommitDisciplined(s, w);
    case Abandon(w) =>
  }

  // ---- disks ----

  lemma PutKept(db: Db, h: HealState, disk: map<(Address, ChunkId), Bytes>, msgs: set<Msg>, a: Address,
      id: ChunkId, data: Bytes)
    requires RowsKept(db, disk, msgs) && CopyKept(db.chunks, h, disk, msgs)
    ensures RowsKept(db, disk[(a, id) := data], msgs + {Stored(a, id)})
    ensures CopyKept(db.chunks, h, disk[(a, id) := data], msgs + {Stored(a, id)})
  {
    forall p | p in db.replicas ensures RowKept(db, p, disk[(a, id) := data], msgs + {Stored(a, id)}) {
      assert RowKept(db, p, disk, msgs);
    }
  }

  /** What is taken off a disk is no needed copy. */
  lemma TakeKept(s: State, disk: map<(Address, ChunkId), Bytes>)
    requires DInv(s)
    requires forall k :: k in s.disk && k !in disk ==> !Needed(s, k.0, k.1)
    ensures RowsKept(s.db, disk, s.msgs) && CopyKept(s.db.chunks, s.healer, disk, s.msgs)
  {
    forall p | p in s.db.replicas ensures RowKept(s.db, p, disk, s.msgs) {
      assert RowKept(s.db, p, s.disk, s.msgs);
      assert Stored(p.1, p.0) in s.msgs ==> Needed(s, p.1, p.0);
    }
    if s.healer.Pass? && s.healer.phase.Copying? && s.healer.phase.stored && s.healer.phase.id in s.db.chunks {
      assert Needed(s, s.healer.phase.target, s.healer.phase.id);
    }
  }

  lemma PutDisciplined(s: State, a: Address, id: ChunkId, data: Bytes)
    requires DInv(s) && id in s.content
    ensures MsgsDisciplined(s.msgs + {Stored(a, id)}, s.content)
    ensures RowsKept(s.db, s.disk[(a, id) := data], s.msgs + {Stored(a, id)})
    ensures CopyKept(s.db.chunks, AfterCopyStore(s, a, id, data).healer, s.disk[(a, id) := data],
        s.msgs + {Stored(a, id)})
    ensures CopyKept(s.db.chunks, s.healer, s.disk[(a, id) := data], s.msgs + {Stored(a, id)})
  {
    PutKept(s.db, s.healer, s.disk, s.msgs, a, id, data);
  }

  lemma DiskDisciplined(s: State, v: DiskStep)
    requires Inv(s) && DInv(s) && DiskEnabled(s, v) && (v.ScrubApply? ==> ScrubSafe(s, v.addr))
    ensures DInv(DiskApply(s, v))
  {
    match v
    case DeliverStore(a, id, data) => PutDisciplined(s, a, id, data);
    case CopyStore(target, id, data) => PutDisciplined(s, target, id, data);
    case DeliverDelete(a, id, early) => DeliverDeleteDisciplined(s, a, id, early);
    case ScrubRead(a) =>
    case ScrubApply(a) => ScrubDisciplined(s, a);
    case CopyRead(target, id, source) => SendKept(s, {CopyData(target, id, s.disk[(source, id)])});
  }

  lemma GoneUnrecorded(db: Db, id: ChunkId, a: Address, early: bool, msgs: set<Msg>, content: ContentMap)
    requires ForeignKeys(db) && LateDeletesOk(msgs, db.chunks, content) && MsgsDisciplined(msgs, content)
    requires Delete(a, id, early) in msgs
    ensures id !in db.chunks && forall b :: (id, b) !in db.replicas
  {
    assert Gone(Delete(a, id, early).id, db.chunks, content);
  }

  lemma OtherDisk(s: State, disk: map<(Address, ChunkId), Bytes>)
    requires DInv(s) && RowsKept(s.db, disk, s.msgs) && CopyKept(s.db.chunks, s.healer, disk, s.msgs)
    ensures DInv(s.(disk := disk))
  {
    hide RowsKept, CopyKept, RowsPlanned, OpenOk, MsgsDisciplined;
  }

  lemma DeliverDeleteDisciplined(s: State, a: Address, id: ChunkId, early: bool)
    requires DInv(s) && Delete(a, id, early) in s.msgs
    requires ForeignKeys(s.db) && LateDeletesOk(s.msgs, s.db.chunks, s.content)
    ensures DInv(s.(disk := s.disk - {(a, id)}))
  {
    hide RowsKept, CopyKept, RowsPlanned, OpenOk;
    GoneUnrecorded(s.db, id, a, early, s.msgs, s.content);
    var disk := s.disk - {(a, id)};
    assert forall k :: k in s.disk && k !in disk ==> k == (a, id);
    TakeKept(s, disk);
    OtherDisk(s, disk);
  }

  lemma ScrubDisciplined(s: State, a: Address)
    requires Inv(s) && DInv(s) && a in s.scrubs && ScrubSafe(s, a)
    ensures DInv(DiskApply(s, ScrubApply(a)))
  {
    TakeKept(s, DiskApply(s, ScrubApply(a)).disk);
  }

  /** A scrub that takes a needed copy breaks the invariant. */
  lemma UnsafeScrub(s: State, a: Address)
    requires DInv(s) && a in s.scrubs && !ScrubSafe(s, a)
    ensures !DInv(DiskApply(s, ScrubApply(a)))
  {
    var disk := DiskApply(s, ScrubApply(a)).disk;
    var id :| Needed(s, a, id) && id !in s.scrubs[a];
    if (id, a) in s.db.replicas && Stored(a, id) in s.msgs {
      assert RowKept(s.db, (id, a), s.disk, s.msgs) && !RowKept(s.db, (id, a), disk, s.msgs);
    }
  }

  // ---- healing ----

  lemma AddKept(s: State, id: ChunkId, target: Address)
    requires DInv(s) && id in s.db.chunks && CommittedChunk(s.db, id)
    requires (target, id) in s.disk && Stored(target, id) in s.msgs
    ensures RowsKept(AddReplica(s.db, id, target).value, s.disk, s.msgs)
    ensures RowsPlanned(AddReplica(s.db, id, target).value, s.sessions, s.origin)
  {
    var e := AddReplica(s.db, id, target).value;
    forall p | p in e.replicas ensures RowKept(e, p, s.disk, s.msgs) {
      if p in s.db.replicas { assert RowKept(s.db, p, s.disk, s.msgs); }
    }
  }

  lemma RemoveKept(s: State, id: ChunkId, stale: Address)
    requires DInv(s)
    ensures RowsKept(RemoveReplica(s.db, id, stale), s.disk, s.msgs)
    ensures RowsPlanned(RemoveReplica(s.db, id, stale), s.sessions, s.origin)
  {
    var e := RemoveReplica(s.db, id, stale);
    forall p | p in e.replicas ensures RowKept(e, p, s.disk, s.msgs) {
      assert RowKept(s.db, p, s.disk, s.msgs);
    }
  }

  lemma AddDisciplined(s: State)
    requires CountInv(s) && DInv(s) && HealEnabled(s, Add)
    ensures DInv(AfterAdd(s))
  {
    if s.healer.phase.id in s.db.chunks {
      AddKept(s, s.healer.phase.id, s.healer.phase.target);
    }
  }

  lemma RemoveDisciplined(s: State, stale: Address)
    requires DInv(s) && HealEnabled(s, Remove(stale))
    ensures DInv(AfterRemove(s, stale))
  {
    RemoveKept(s, s.healer.phase.id, stale);
  }

  lemma HealDisciplined(s: State, h: HealStep)
    requires Inv(s) && CountInv(s) && DInv(s) && HealEnabled(s, h)
    ensures DInv(HealApply(s, h))
  {
    match h
    case Scan(live) =>
    case SendCopy(id, source, target) => SendKept(s, {Replicate(target, id, source)});
    case CopyFailed =>
    case Add => AddDisciplined(s);
    case Remove(stale) => RemoveDisciplined(s, stale);
    case EndPass =>
  }

  lemma ReadDisciplined(s: State, q: ReadStep)
    requires DInv(s) && ReadEnabled(s, q)
    ensures DInv(ReadApply(s, q))
  {
    ReadFrame(s, q);
  }

  lemma CrashDisciplined(s: State)
    requires DInv(s)
    ensures DInv(AfterNamingCrash(s))
  {}

  lemma StepDisciplined(s: State, e: Event)
    requires Inv(s) && CountInv(s) && DInv(s) && Enabled(s, e) && Disciplined(s, e)
    ensures DInv(Apply(s, e))
  {
    hide Inv, CountInv, DInv, ClientApply, DiskApply, DeleteApply, HealApply, ReadApply, AfterNamingCrash;
    match e
    case ByClient(c) => ClientDisciplinedKeeps(s, c);
    case ByDisk(v) => DiskDisciplined(s, v);
    case ByDelete(d) => DeleteDisciplined(s, d);
    case ByHeal(h) => HealDisciplined(s, h);
    case ByRead(q) => ReadDisciplined(s, q);
    case NamingCrash => CrashDisciplined(s);
  }

  // ---- whole runs ----

  ghost predicate DRun(s: State, es: seq<Event>)
    decreases |es|
  {
    es == [] || (Enabled(s, es[0]) && Disciplined(s, es[0]) && DRun(Apply(s, es[0]), es[1..]))
  }

  ghost predicate Good(s: State) {
    Inv(s) && CountInv(s) && DInv(s)
  }

  lemma {:induction false} DRunKeeps(s: State, es: seq<Event>)
    requires Good(s) && DRun(s, es)
    ensures Run(s, es) && Good(After(s, es))
    decreases |es|
  {
    hide Inv, CountInv, DInv, Enabled, Apply, Disciplined, StopsInGap, ExactKept;
    if es != [] {
      StepKeeps(s, es[0]);
      StepCounts(s, es[0]);
      StepDisciplined(s, es[0]);
      DRunKeeps(Apply(s, es[0]), es[1..]);
    }
  }

  lemma GoodDisk(s: State, id: ChunkId, a: Address)
    requires Good(s) && (id, a) in s.db.replicas && CommittedChunk(s.db, id)
    ensures id in s.content && (a, id) in s.disk && s.disk[(a, id)] == s.content[id]
  {
    assert RowKept(s.db, (id, a), s.disk, s.msgs);
  }

  /** The disciplined run leads from `s` to `t`. */
  ghost predicate Leads(s: State, es: seq<Event>, t: State) {
    Path(s, es, t) && DRun(s, es)
  }

  lemma NoEvents(s: State)
    ensures Leads(s, [], s)
  {}

  lemma LeadsOne(s: State, e: Event)
    requires Enabled(s, e) && Disciplined(s, e)
    ensures Leads(s, [e], Apply(s, e))
  {
    hide Enabled, Disciplined, Apply;
    assert [e][1..] == [];
    assert Leads(Apply(s, e), [], Apply(s, e));
  }

  lemma {:induction false} LeadsThen(s: State, es: seq<Event>, t: State, fs: seq<Event>, u: State)
    requires Leads(s, es, t) && Leads(t, fs, u)
    ensures Leads(s, es + fs, u)
    decreases |es|
  {
    hide Enabled, Disciplined, Apply;
    PathThen(s, es, t, fs, u);
    if es == [] {
      assert es + fs == fs;
    } else {
      assert (es + fs)[1..] == es[1..] + fs;
      LeadsThen(Apply(s, es[0]), es[1..], t, fs, u);
    }
  }

  /** The end of a disciplined run from the empty system. */
  ghost predicate Reached(r: int, es: seq<Event>, s: State) {
    Leads(Init(r), es, s)
  }

  lemma ReachedGood(r: int, es: seq<Event>, s: State)
    requires Reached(r, es, s)
    ensures Good(s) && s.r == r
  {
    hide Inv, CountInv, DInv;
    InitStart(r);
    DRunKeeps(Init(r), es);
    RunKeepsR(Init(r), es);
  }

  lemma InitStart(r: int)
    ensures Good(Init(r)) && Init(r).r == r
  {
    InitInv(r);
  }

  /** At the end of every disciplined run, every recorded replica of a committed chunk is on its server's
      disk with the writer's bytes. */
  lemma DiskInvariant(r: int, es: seq<Event>, s: State, id: ChunkId, a: Address)
    requires Reached(r, es, s) && (id, a) in s.db.replicas && CommittedChunk(s.db, id)
    ensures id in s.content && (a, id) in s.disk && s.disk[(a, id)] == s.content[id]
  {
    ReachedGood(r, es, s);
    GoodDisk(s, id, a);
  }
}
