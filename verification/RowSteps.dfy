/** What one step does to the replica rows of one chunk, and how many rows a chunk has after a run. */
module RowSteps {
  import opened Base
  import opened Chunking
  import opened Tables
  import opened Protocol
  import opened Safety
  import opened Reads
  import opened Replication
  import opened Discipline

  // ---- one step ----

  /** Only the healing pass moves the rows of a chunk that stays: its add and its remove. */
  ghost function RowsAfter(s: State, e: Event, id: ChunkId): set<Address>
    requires Enabled(s, e)
  {
    var rows := Replicas(s.db, id);
    match e
    case ByHeal(Add) => if s.healer.phase.id == id then rows + {s.healer.phase.target} else rows
    case ByHeal(Remove(stale)) => if s.healer.phase.id == id then rows - {stale} else rows
    case _ => rows
  }

  /** The chunk keeps its place and its status, with the given rows. */
  ghost predicate Carries(db: Db, e: Db, id: ChunkId, rows: set<Address>) {
    && id in db.chunks && id in e.chunks && e.chunks[id] == db.chunks[id]
    && (CommittedChunk(db, id) ==> CommittedChunk(e, id)) && Replicas(e, id) == rows
  }

  lemma CreateFacts(s: State, c: ClientStep)
    requires ClientEnabled(s, c) && c.CreateFile?
    ensures |c.ids| == |c.locs| && Distinct(c.ids) && PlacementOk(s.r, c.locs)
    ensures ClientApply(s, c).db == CreatePending(s.db, c.filename, |c.data|, |c.ids|, Layout(c.ids, c.locs), c.now)
    ensures forall i :: 0 <= i < |c.ids| ==> c.ids[i] !in s.content
  {
    hide CreatePending, SplitChunks, DeleteMsgs, RowPairs, Pair, Mark, Layout, PlacementOk;
  }

  /** The rows refer to rows that are there, under ids that were used. */
  ghost predicate Used(db: Db, content: ContentMap) {
    ForeignKeys(db) && forall id :: id in db.chunks ==> id in content
  }

  lemma ChunksUsed(s: State)
    requires Inv(s)
    ensures Used(s.db, s.content)
  {
    InvFk(s);
    forall id | id in s.db.chunks ensures id in s.content { RowsAreUsed(s, id); }
  }

  lemma CreateStays(db: Db, e: Db, fn: Filename, ids: seq<ChunkId>, id: ChunkId)
    requires RowsAfterCreate(db, e, fn, ids) && id in e.chunks && id !in ids
    ensures id in db.chunks && db.chunks[id].filename != fn && e.chunks[id] == db.chunks[id] && id !in ChunksOf(db, fn)
  {}

  lemma CreateNew(db: Db, e: Db, fn: Filename, ids: seq<ChunkId>, id: ChunkId)
    requires RowsAfterCreate(db, e, fn, ids) && id in e.chunks && id !in db.chunks
    ensures id in ids
  {}

  lemma CreateCarries(s: State, c: ClientStep, id: ChunkId)
    requires Used(s.db, s.content) && ClientEnabled(s, c) && c.CreateFile?
    requires id in s.db.chunks && id in ClientApply(s, c).db.chunks
    ensures Carries(s.db, ClientApply(s, c).db, id, Replicas(s.db, id))
  {
    hide Replicas, CreatePending, PlacementOk, CommittedChunk, RowsAfterCreate, Layout, ForeignKeys, ChunksOf;
    hide ClientApply, ClientEnabled;
    CreateFacts(s, c);
    CreateCarriedOne(s.db, c.filename, |c.data|, c.ids, c.locs, c.now, s.r, id);
    LayoutIds(c.ids, c.locs);
    CreateStatus(s.db, c.filename, |c.data|, |c.ids|, Layout(c.ids, c.locs), c.now, id);
    CreateRows(s.db, c.filename, |c.data|, c.ids, c.locs, c.now);
    CreateStays(s.db, ClientApply(s, c).db, c.filename, c.ids, id);
  }

  lemma CommitCarries(db: Db, fn: Filename, id: ChunkId)
    requires id in db.chunks
    ensures Carries(db, Tables.CommitFile(db, fn), id, Replicas(db, id))
  {}

  lemma DropCarries(db: Db, fn: Filename, id: ChunkId)
    requires id in DropFile(db, fn).chunks
    ensures Carries(db, DropFile(db, fn), id, Replicas(db, id))
  {
    DropFileSets(db, fn, id);
  }

  lemma AddCarries(db: Db, x: ChunkId, target: Address, id: ChunkId)
    requires x in db.chunks && id in db.chunks
    ensures Carries(db, AddReplica(db, x, target).value, id, Replicas(db, id) + if x == id then {target} else {})
  {
    AddReplicaSets(db, x, target);
  }

  lemma RemoveCarries(db: Db, x: ChunkId, stale: Address, id: ChunkId)
    requires id in db.chunks
    ensures Carries(db, RemoveReplica(db, x, stale), id, Replicas(db, id) - if x == id then {stale} else {})
  {
    RemoveReplicaSets(db, x, stale);
  }

  lemma SameCarries(db: Db, id: ChunkId)
    requires id in db.chunks
    ensures Carries(db, db, id, Replicas(db, id))
  {}

  lemma ClientCarries(s: State, c: ClientStep, id: ChunkId)
    requires Used(s.db, s.content) && ClientEnabled(s, c) && id in s.db.chunks && id in ClientApply(s, c).db.chunks
    ensures Carries(s.db, ClientApply(s, c).db, id, Replicas(s.db, id))
  {
    hide Used, Carries, AfterCreate, CreateOk;
    SameCarries(s.db, id);
    match c
    case CreateFile(fn, data, ids, locs, now) => CreateCarries(s, c, id);
    case Commit(w) => CommitCarries(s.db, s.sessions[w].filename, id);
    case BeginOverwrite(fn) =>
    case SendStore(w, x, a) =>
    case Abandon(w) =>
  }

  lemma AddRefusedWhenGone(db: Db, x: ChunkId, target: Address)
    ensures AddReplica(db, x, target).Some? <==> x in db.chunks
  {}

  lemma AddStepCarries(s: State, id: ChunkId)
    requires HealEnabled(s, Add) && id in s.db.chunks
    ensures Carries(s.db, AfterAdd(s).db, id, RowsAfter(s, ByHeal(Add), id))
  {
    hide Carries, Replicas, AddReplica;
    SameCarries(s.db, id);
    AddRefusedWhenGone(s.db, s.healer.phase.id, s.healer.phase.target);
    if s.healer.phase.id in s.db.chunks {
      assert Replicas(s.db, id) + {} == Replicas(s.db, id);
      AddCarries(s.db, s.healer.phase.id, s.healer.phase.target, id);
    }
  }

  lemma RemoveStepCarries(s: State, stale: Address, id: ChunkId)
    requires HealEnabled(s, Remove(stale)) && id in s.db.chunks
    ensures Carries(s.db, AfterRemove(s, stale).db, id, RowsAfter(s, ByHeal(Remove(stale)), id))
  {
    hide Carries, Replicas, RemoveReplica;
    assert Replicas(s.db, id) - {} == Replicas(s.db, id);
    RemoveCarries(s.db, s.healer.phase.id, stale, id);
  }

  lemma OtherHealDb(s: State, h: HealStep)
    requires HealEnabled(s, h) && !h.Add? && !h.Remove?
    ensures HealApply(s, h).db == s.db
  {}

  lemma HealCarries(s: State, h: HealStep, id: ChunkId)
    requires HealEnabled(s, h) && id in s.db.chunks
    ensures Carries(s.db, HealApply(s, h).db, id, RowsAfter(s, ByHeal(h), id))
  {
    hide Carries, Replicas, AfterAdd, AfterRemove, HealEnabled;
    if h.Add? {
      AddStepCarries(s, id);
    } else if h.Remove? {
      RemoveStepCarries(s, h.stale, id);
    } else {
      OtherHealDb(s, h);
      SameCarries(s.db, id);
    }
  }

  lemma DeleteCarries(s: State, d: DeleteStep, id: ChunkId)
    requires DeleteEnabled(s, d) && id in s.db.chunks && id in DeleteApply(s, d).db.chunks
    ensures Carries(s.db, DeleteApply(s, d).db, id, Replicas(s.db, id))
  {
    hide Carries, DropFile;
    SameCarries(s.db, id);
    if d.DropMetadata? { DropCarries(s.db, s.deleters[d.handler].filename, id); }
  }

  /** A chunk that is there before and after a step. */
  lemma StepCarries(s: State, e: Event, id: ChunkId)
    requires Used(s.db, s.content) && Enabled(s, e) && id in s.db.chunks && id in Apply(s, e).db.chunks
    ensures Carries(s.db, Apply(s, e).db, id, RowsAfter(s, e, id))
  {
    hide Used, Carries, Replicas, ClientApply, DiskApply, DeleteApply, HealApply, ReadApply;
    hide ClientEnabled, DiskEnabled, DeleteEnabled, HealEnabled, ReadEnabled;
    match e
    case ByClient(c) => ClientCarries(s, c, id);
    case ByDisk(v) => DiskFrame(s, v); SameCarries(s.db, id);
    case ByDelete(d) => DeleteCarries(s, d, id);
    case ByHeal(h) => HealCarries(s, h, id);
    case ByRead(q) => ReadFrame(s, q); SameCarries(s.db, id);
    case NamingCrash => SameCarries(s.db, id);
  }

  /** A chunk that a create brings: pending, under an id never used, with the R rows of its placement. */
  ghost predicate Brought(s: State, e: Event, db: Db, id: ChunkId) {
    && e.ByClient? && e.c.CreateFile? && id !in s.content && !CommittedChunk(db, id) && |Replicas(db, id)| == s.r
    && exists i :: 0 <= i < |e.c.locs| && Replicas(db, id) == Elems(e.c.locs[i])
  }

  lemma CreateBrings(s: State, c: ClientStep, id: ChunkId)
    requires Used(s.db, s.content) && ClientEnabled(s, c) && c.CreateFile?
    requires id !in s.db.chunks && id in ClientApply(s, c).db.chunks
    ensures Brought(s, ByClient(c), ClientApply(s, c).db, id)
  {
    hide Replicas, CreatePending, CommittedChunk, RowsAfterCreate, ForeignKeys, ChunksOf;
    hide ClientApply, ClientEnabled;
    CreateFacts(s, c);
    var chunks := Layout(c.ids, c.locs);
    LayoutIds(c.ids, c.locs);
    CreateRows(s.db, c.filename, |c.data|, c.ids, c.locs, c.now);
    CreateNew(s.db, ClientApply(s, c).db, c.filename, c.ids, id);
    var i :| 0 <= i < |c.ids| && c.ids[i] == id;
    assert chunks[i] in chunks && chunks[i] == ChunkMeta(id, i, c.locs[i]);
    FreshReplicas(s.db, c.filename, |c.data|, |c.ids|, chunks, c.now, chunks[i]);
    ElemsDistinct(c.locs[i]);
    CreateStatus(s.db, c.filename, |c.data|, |c.ids|, chunks, c.now, id);
  }

  lemma DropShrinks(s: State, d: DeleteStep)
    requires DeleteEnabled(s, d)
    ensures forall id :: id in DeleteApply(s, d).db.chunks ==> id in s.db.chunks
  {}

  lemma StepShrinks(s: State, e: Event)
    requires Enabled(s, e) && !(e.ByClient? && e.c.CreateFile?)
    ensures forall id :: id in Apply(s, e).db.chunks ==> id in s.db.chunks
  {
    hide ClientApply, DiskApply, DeleteApply, HealApply, ReadApply;
    hide ClientEnabled, DiskEnabled, DeleteEnabled, HealEnabled, ReadEnabled;
    match e
    case ByClient(c) => ClientFrame(s, c);
    case ByDisk(v) => DiskFrame(s, v);
    case ByDelete(d) => DropShrinks(s, d);
    case ByHeal(h) => HealFrame(s, h);
    case ByRead(q) => ReadFrame(s, q);
    case NamingCrash =>
  }

  lemma StepBrings(s: State, e: Event, id: ChunkId)
    requires Used(s.db, s.content) && Enabled(s, e) && id !in s.db.chunks && id in Apply(s, e).db.chunks
    ensures Brought(s, e, Apply(s, e).db, id)
  {
    hide Used, Brought, ClientApply, DiskApply, DeleteApply, HealApply, ReadApply;
    hide ClientEnabled, DiskEnabled, DeleteEnabled, HealEnabled, ReadEnabled;
    if e.ByClient? && e.c.CreateFile? {
      CreateBrings(s, e.c, id);
    } else {
      StepShrinks(s, e);
    }
  }

  // ---- how many rows after a run ----

  /** 1 when the step stops the pass in the gap of this chunk. */
  ghost function StopAt(s: State, e: Event, id: ChunkId): nat {
    if StopsInGap(s, e) && s.healer.phase == Gap(id) then 1 else 0
  }

  /** How often the run stops a pass, or crashes the naming server, in the gap of this chunk. */
  ghost function Stops(s: State, es: seq<Event>, id: ChunkId): nat
    requires Run(s, es)
    decreases |es|
  {
    if es == [] then 0 else StopAt(s, es[0], id) + Stops(Apply(s, es[0]), es[1..], id)
  }

  /** The rows of the chunk, less the one the pass is about to remove. */
  ghost function NetRows(s: State, id: ChunkId): int {
    |Replicas(s.db, id)| - Surplus(s.healer, id)
  }

  lemma AddSurplus(s: State, id: ChunkId)
    requires CountInv(s) && HealEnabled(s, Add) && id in s.db.chunks
    ensures Surplus(AfterAdd(s).healer, id) == if s.healer.phase.id == id then 1 else 0
    ensures Surplus(s.healer, id) == 0
    ensures s.healer.phase.id == id ==> s.healer.phase.target !in Replicas(s.db, id)
  {
    hide Replicas, AtLeast, Exactly, CountInv;
    if s.healer.phase.id in s.db.chunks {
      AddedCounts(s);
      TargetNew(s);
    }
  }

  lemma TargetNew(s: State)
    requires CountInv(s) && HealEnabled(s, Add) && s.healer.phase.id in s.db.chunks
    ensures s.healer.phase.target !in Replicas(s.db, s.healer.phase.id)
  {}

  lemma RemoveSurplus(s: State, stale: Address, id: ChunkId)
    requires CountInv(s) && HealEnabled(s, Remove(stale)) && id in s.db.chunks
    ensures Surplus(AfterRemove(s, stale).healer, id) == 0
    ensures Surplus(s.healer, id) == if s.healer.phase.id == id then 1 else 0
    ensures s.healer.phase.id == id ==> stale in Replicas(s.db, id)
  {}

  /** The step changes the net count by its stops in the gap only. */
  ghost predicate Nets(s: State, e: Event, h: HealState, id: ChunkId)
    requires Enabled(s, e)
  {
    |RowsAfter(s, e, id)| - Surplus(h, id) == NetRows(s, id) + StopAt(s, e, id)
  }

  /** Neither the add nor the remove. */
  lemma OtherHealNets(s: State, h: HealStep, id: ChunkId)
    requires HealEnabled(s, h) && !h.Add? && !h.Remove?
    ensures Surplus(HealApply(s, h).healer, id) == Surplus(s.healer, id) - StopAt(s, ByHeal(h), id)
  {
    match h
    case Scan(live) =>
    case SendCopy(x, source, target) =>
    case CopyFailed =>
    case EndPass =>
  }

  lemma HealSettles(s: State, h: HealStep, id: ChunkId)
    requires Enabled(s, ByHeal(h)) && CountInv(s) && id in s.db.chunks
    ensures Nets(s, ByHeal(h), Apply(s, ByHeal(h)).healer, id)
  {
    hide CountInv, Replicas, HealEnabled, HealApply, Surplus;
    if h.Add? {
      AddSurplus(s, id);
      AddNets(s, id);
    } else if h.Remove? {
      RemoveSurplus(s, h.stale, id);
      RemoveNets(s, h.stale, id);
    } else {
      OtherHealNets(s, h, id);
    }
  }

  lemma AddNets(s: State, id: ChunkId)
    requires HealEnabled(s, Add) && Surplus(s.healer, id) == 0
    requires Surplus(AfterAdd(s).healer, id) == if s.healer.phase.id == id then 1 else 0
    requires s.healer.phase.id == id ==> s.healer.phase.target !in Replicas(s.db, id)
    ensures Nets(s, ByHeal(Add), HealApply(s, Add).healer, id)
  {
    hide Replicas, Surplus, AfterAdd;
  }

  lemma RemoveNets(s: State, stale: Address, id: ChunkId)
    requires HealEnabled(s, Remove(stale)) && Surplus(AfterRemove(s, stale).healer, id) == 0
    requires Surplus(s.healer, id) == if s.healer.phase.id == id then 1 else 0
    requires s.healer.phase.id == id ==> stale in Replicas(s.db, id)
    ensures Nets(s, ByHeal(Remove(stale)), HealApply(s, Remove(stale)).healer, id)
  {
    hide Replicas, Surplus, AfterRemove;
  }

  /** Apart from stops in its gap, no step moves a chunk's net count. */
  lemma StepSettles(s: State, e: Event, id: ChunkId)
    requires Used(s.db, s.content) && CountInv(s) && Enabled(s, e) && id in s.db.chunks && id in Apply(s, e).db.chunks
    ensures NetRows(Apply(s, e), id) == NetRows(s, id) + StopAt(s, e, id)
  {
    hide Used, CountInv, Replicas, ClientApply, HealApply, DeleteApply, DiskApply, ReadApply;
    hide ClientEnabled, DiskEnabled, DeleteEnabled, HealEnabled, ReadEnabled;
    StepCarries(s, e, id);
    match e
    case ByClient(c) => ClientHealer(s, c);
    case ByDisk(v) => DiskSurplus(s, v, id);
    case ByDelete(d) => DeleteFrame(s, d);
    case ByHeal(h) => HealSettles(s, h, id);
    case ByRead(q) => ReadFrame(s, q);
    case NamingCrash =>
  }

  lemma ClientHealer(s: State, c: ClientStep)
    requires ClientEnabled(s, c)
    ensures ClientApply(s, c).healer == s.healer
  {}

  lemma DiskSurplus(s: State, v: DiskStep, id: ChunkId)
    requires DiskEnabled(s, v)
    ensures Surplus(DiskApply(s, v).healer, id) == Surplus(s.healer, id)
  {}

  /** A pass knows only chunks that were created before, so a new one is in nobody's gap. */
  lemma StepStarts(s: State, e: Event, id: ChunkId)
    requires Used(s.db, s.content) && CountInv(s) && Enabled(s, e) && id !in s.db.chunks && id in Apply(s, e).db.chunks
    ensures NetRows(Apply(s, e), id) == s.r && id !in s.content
  {
    hide Used, Replicas, ClientApply, AtLeast, ClientEnabled;
    StepBrings(s, e, id);
    ClientHealer(s, e.c);
  }

  lemma UnknownNoStop(s: State, e: Event, id: ChunkId)
    requires CountInv(s) && id !in s.content
    ensures StopAt(s, e, id) == 0
  {}

  /** The net count of a chunk after a run: what it was before, or R for a chunk created on the way,
      and one more for each stop in its gap. */
  lemma {:induction false} RunSettles(s: State, es: seq<Event>, id: ChunkId)
    requires Inv(s) && CountInv(s) && Run(s, es) && id in After(s, es).db.chunks
    ensures id in s.db.chunks || id !in s.content
    ensures NetRows(After(s, es), id) == (if id in s.db.chunks then NetRows(s, id) else s.r) + Stops(s, es, id)
    decreases |es|
  {
    hide Inv, CountInv, Used, Enabled, Apply, NetRows, StopAt, StopsInGap, ExactKept;
    ChunksUsed(s);
    if es == [] {
      UsedId(s, id);
    } else {
      var t := Apply(s, es[0]);
      StepKeeps(s, es[0]);
      StepCounts(s, es[0]);
      StepKeepsR(s, es[0]);
      RunSettles(t, es[1..], id);
      if id in s.db.chunks {
        StaysOnTheWay(s, es, id);
        StepSettles(s, es[0], id);
      } else {
        GoneNever(s, es, id);
        UnknownNoStop(s, es[0], id);
        if id in t.db.chunks { StepStarts(s, es[0], id); }
      }
    }
  }

  lemma UsedId(s: State, id: ChunkId)
    requires Used(s.db, s.content)
    ensures id in s.db.chunks ==> id in s.content
  {}

  /** A chunk that is there before and after a run is there all the way. */
  lemma StaysOnTheWay(s: State, es: seq<Event>, id: ChunkId)
    requires Inv(s) && Run(s, es) && es != [] && id in s.db.chunks && id in After(s, es).db.chunks
    ensures id in Apply(s, es[0]).db.chunks
  {
    hide Inv, Enabled, Apply, ContentGrows;
    var t := Apply(s, es[0]);
    StepKeeps(s, es[0]);
    ChunksUsed(s);
    StepContent(s, es[0]);
    GrowsAt(s, t, id);
    if id !in t.db.chunks {
      GoneForever(t, es[1..], id);
    }
  }

  lemma GrowsAt(s: State, t: State, id: ChunkId)
    requires ContentGrows(s, t) && id in s.content
    ensures id in t.content
  {}

  lemma GoneNever(s: State, es: seq<Event>, id: ChunkId)
    requires Inv(s) && Run(s, es) && id !in s.db.chunks && id in After(s, es).db.chunks
    ensures id !in s.content
  {
    hide Inv, Enabled, Apply;
    if id in s.content {
      GoneForever(s, es, id);
    }
  }

  // ---- in every reachable state ----

  /** Every chunk has exactly R rows, one more while the pass is in its gap, and one more for each pass
      that was ever stopped there. */
  lemma ExactCount(r: int, es: seq<Event>, s: State, id: ChunkId)
    requires Reachable(r, es, s) && id in s.db.chunks
    ensures |Replicas(s.db, id)| == r + Surplus(s.healer, id) + Stops(Init(r), es, id)
  {
    InitInv(r);
    RunSettles(Init(r), es, id);
  }

  /** So the count is exact if and only if no pass was ever stopped in the gap of this chunk. */
  lemma ExactlyR(r: int, es: seq<Event>, s: State, id: ChunkId)
    requires Reachable(r, es, s) && id in s.db.chunks
    ensures |Replicas(s.db, id)| == r + Surplus(s.healer, id) <==> Stops(Init(r), es, id) == 0
  {
    hide Reachable;
    ExactCount(r, es, s, id);
  }

  /** And every chunk always has at least R rows, crashes of the naming server included. */
  lemma AtLeastR(r: int, es: seq<Event>, s: State, id: ChunkId)
    requires Reachable(r, es, s) && id in s.db.chunks
    ensures |Replicas(s.db, id)| >= r
  {
    hide Reachable;
    ExactCount(r, es, s, id);
  }
}
