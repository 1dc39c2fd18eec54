/** The replicated-storage protocol, one step per SQL statement or per RPC delivery.

    `msgs` only grows and a delivery does not consume its message, so a message may be delayed for
    ever (lost), reordered or delivered again, and a step may take effect while its reply is lost.
    A storage server that is down delivers nothing; its disk is intact when it comes back. */
module Protocol {
  import opened Base
  import opened Chunking
  import opened Tables

  /** One accepted CreateFile: the bytes its client is writing and the placement it was given. */
  datatype Session = Session(filename: Filename, data: Bytes, pieces: seq<Bytes>, ids: seq<ChunkId>,
      plan: set<(ChunkId, Address)>)

  datatype Msg =
    | Store(addr: Address, id: ChunkId, data: Bytes)
    | Stored(addr: Address, id: ChunkId)
    | Delete(addr: Address, id: ChunkId, early: bool)
    | Replicate(target: Address, id: ChunkId, source: Address)
    | CopyData(target: Address, id: ChunkId, data: Bytes)

  /** A DeleteFile handler, or (gc) one file of a pass of the pending cleanup. */
  datatype Deleter = Deleter(filename: Filename, gc: bool, pairs: set<(ChunkId, Address)>, dropped: bool)

  datatype Reader = Reader(filename: Filename, session: int, ids: seq<ChunkId>, parts: map<ChunkId, Bytes>)

  datatype Phase = Ready | Copying(id: ChunkId, target: Address, stored: bool) | Gap(id: ChunkId)
  datatype HealState = Idle | Pass(live: set<Address>, view: map<ChunkId, set<Address>>, phase: Phase)

  /** `sessions`, `current`, `origin` and `content` are history: which write session made what. */
  datatype State = State(
    r: int, db: Db, disk: map<(Address, ChunkId), Bytes>, msgs: set<Msg>,
    sessions: seq<Session>, current: map<Filename, int>, origin: map<ChunkId, int>, content: map<ChunkId, Bytes>,
    open: set<int>, deleters: map<int, Deleter>, readers: map<int, Reader>,
    scrubs: map<Address, set<ChunkId>>, healer: HealState)

  /** Client processes and the naming server's write handlers. */
  datatype ClientStep =
    | CreateFile(filename: Filename, data: Bytes, ids: seq<ChunkId>, locs: seq<seq<Address>>, now: real)
    | BeginOverwrite(filename: Filename)
    | SendStore(session: int, id: ChunkId, addr: Address)
    | Commit(session: int)
    | Abandon(session: int)

  /** Handlers of the storage servers. */
  datatype DiskStep =
    | DeliverStore(addr: Address, id: ChunkId, data: Bytes)
    | DeliverDelete(addr: Address, id: ChunkId, early: bool)
    | ScrubRead(addr: Address)
    | ScrubApply(addr: Address)
    | CopyRead(target: Address, id: ChunkId, source: Address)
    | CopyStore(target: Address, id: ChunkId, data: Bytes)

  /** DeleteFile handlers and the pending cleanup, statement by statement. */
  datatype DeleteStep =
    | BeginDelete(handler: int, filename: Filename, gc: bool)
    | DropMetadata(handler: int)
    | SendDelete(handler: int, id: ChunkId, addr: Address)

  datatype HealStep =
    | Scan(live: set<Address>)
    | SendCopy(id: ChunkId, source: Address, target: Address)
    | CopyFailed
    | Add
    | Remove(stale: Address)
    | EndPass

  datatype ReadStep =
    | ReadStart(reader: int, filename: Filename, ids: seq<ChunkId>)
    | ReadFetch(reader: int, addr: Address, id: ChunkId)

  datatype Event =
    | ByClient(c: ClientStep)
    | ByDisk(v: DiskStep)
    | ByDelete(d: DeleteStep)
    | ByHeal(h: HealStep)
    | ByRead(q: ReadStep)
    | NamingCrash

  function Init(r: int): State {
    State(r, EMPTY_DB, map[], {}, [], map[], map[], map[], {}, map[], map[], map[], Idle)
  }

  function Layout(ids: seq<ChunkId>, locs: seq<seq<Address>>): (chunks: seq<ChunkMeta>)
    requires |ids| == |locs|
    ensures Distinct(ids) ==> DistinctIds(chunks)
  {
    seq(|ids|, i requires 0 <= i < |ids| => ChunkMeta(ids[i], i, locs[i]))
  }

  /** What `get_file` returns: the chunk rows of the name in strictly ascending index order. */
  ghost predicate IsSnapshot(db: Db, fn: Filename, ids: seq<ChunkId>) {
    && (forall i :: 0 <= i < |ids| ==> ids[i] in db.chunks && db.chunks[ids[i]].filename == fn)
    && (forall i, j :: 0 <= i < j < |ids| ==> db.chunks[ids[i]].idx < db.chunks[ids[j]].idx)
    && (forall id :: id in db.chunks && db.chunks[id].filename == fn ==> id in ids)
  }

  /** The (chunk, address) rows of a name: what the handlers collect for their delete fan-out. */
  function RowPairs(db: Db, fn: Filename): set<(ChunkId, Address)> {
    set p | p in db.replicas && p.0 in db.chunks && db.chunks[p.0].filename == fn
  }

  function DeleteMsgs(pairs: set<(ChunkId, Address)>, early: bool): set<Msg> {
    set p | p in pairs :: Delete(p.1, p.0, early)
  }

  ghost predicate PlacementOk(r: int, locs: seq<seq<Address>>) {
    forall i :: 0 <= i < |locs| ==> |locs[i]| == r && Distinct(locs[i])
  }

  ghost predicate CreateOk(s: State, data: Bytes, ids: seq<ChunkId>, locs: seq<seq<Address>>) {
    && |ids| == |locs| == |SplitChunks(data)|
    && Distinct(ids) && (forall i :: 0 <= i < |ids| ==> ids[i] !in s.content)
    && PlacementOk(s.r, locs)
  }

  ghost predicate ClientEnabled(s: State, c: ClientStep) {
    match c
    case CreateFile(fn, data, ids, locs, now) => CreateOk(s, data, ids, locs)
    case BeginOverwrite(fn) => fn in s.db.files
    case SendStore(w, id, a) => w in s.open && 0 <= w < |s.sessions| && (id, a) in s.sessions[w].plan && id in s.content
    case Commit(w) =>
      && w in s.open && 0 <= w < |s.sessions|
      && forall p :: p in s.sessions[w].plan ==> Stored(p.1, p.0) in s.msgs
    case Abandon(w) => w in s.open
  }

  ghost predicate DiskEnabled(s: State, v: DiskStep) {
    match v
    case DeliverStore(a, id, data) => Store(a, id, data) in s.msgs
    case DeliverDelete(a, id, early) => Delete(a, id, early) in s.msgs
    case ScrubRead(a) => true
    case ScrubApply(a) => a in s.scrubs
    case CopyRead(target, id, source) => Replicate(target, id, source) in s.msgs && (source, id) in s.disk
    case CopyStore(target, id, data) => CopyData(target, id, data) in s.msgs
  }

  ghost predicate DeleteEnabled(s: State, d: DeleteStep) {
    match d
    case BeginDelete(h, fn, gc) => fn in s.db.files && (gc ==> s.db.files[fn].status == Pending)
    case DropMetadata(h) => h in s.deleters && !s.deleters[h].dropped
    case SendDelete(h, id, a) => h in s.deleters && s.deleters[h].dropped && (id, a) in s.deleters[h].pairs
  }

  ghost predicate HealEnabled(s: State, h: HealStep) {
    match h
    case Scan(live) => s.healer.Idle? && |live| >= s.r
    case SendCopy(id, source, target) =>
      && s.healer.Pass? && s.healer.phase.Ready? && id in s.healer.view
      && |s.healer.view[id] * s.healer.live| < s.r
      && source in s.healer.view[id] * s.healer.live && target in s.healer.live - s.healer.view[id]
    case CopyFailed => s.healer.Pass? && s.healer.phase.Copying?
    case Add => s.healer.Pass? && s.healer.phase.Copying? && s.healer.phase.stored && s.healer.phase.id in s.healer.view
    case Remove(stale) =>
      && s.healer.Pass? && s.healer.phase.Gap? && s.healer.phase.id in s.healer.view
      && stale in s.healer.view[s.healer.phase.id] - s.healer.live
    case EndPass => s.healer.Pass?
  }

  ghost predicate ReadEnabled(s: State, q: ReadStep) {
    match q
    case ReadStart(k, fn, ids) =>
      fn in s.db.files && fn in s.current && s.db.files[fn].status == Committed && IsSnapshot(s.db, fn, ids)
    case ReadFetch(k, a, id) => k in s.readers && id in s.readers[k].ids && (a, id) in s.disk
  }

  ghost predicate Enabled(s: State, e: Event) {
    match e
    case ByClient(c) => ClientEnabled(s, c)
    case ByDisk(v) => DiskEnabled(s, v)
    case ByDelete(d) => DeleteEnabled(s, d)
    case ByHeal(h) => HealEnabled(s, h)
    case ByRead(q) => ReadEnabled(s, q)
    case NamingCrash => true
  }

  function Pair<V>(ids: seq<ChunkId>, vs: seq<V>): (m: map<ChunkId, V>)
    requires |ids| == |vs| && Distinct(ids)
    ensures forall i :: 0 <= i < |ids| ==> ids[i] in m && m[ids[i]] == vs[i]
    ensures forall id :: id in m ==> id in ids
  {
    if ids == [] then map[] else
      var n := |ids| - 1;
      Pair(ids[..n], vs[..n])[ids[n] := vs[n]]
  }

  function Mark(ids: seq<ChunkId>, w: int): (m: map<ChunkId, int>)
    ensures forall i :: 0 <= i < |ids| ==> ids[i] in m && m[ids[i]] == w
    ensures forall id :: id in m ==> id in ids
  {
    if ids == [] then map[] else Mark(ids[..|ids| - 1], w)[ids[|ids| - 1] := w]
  }

  function AfterCreate(s: State, fn: Filename, data: Bytes, ids: seq<ChunkId>, locs: seq<seq<Address>>,
      now: real): State
    requires |ids| == |locs| == |SplitChunks(data)| && Distinct(ids)
  {
    var chunks := Layout(ids, locs);
    var w := |s.sessions|;
    s.(db := CreatePending(s.db, fn, |data|, |ids|, chunks, now),
       msgs := s.msgs + DeleteMsgs(RowPairs(s.db, fn), false),
       sessions := s.sessions + [Session(fn, data, SplitChunks(data), ids, ReplicaRows(chunks))],
       current := s.current[fn := w],
       origin := s.origin + Mark(ids, w),
       content := s.content + Pair(ids, SplitChunks(data)),
       open := s.open + {w})
  }

  function AfterDrop(s: State, h: int): State
    requires h in s.deleters
  {
    var d := s.deleters[h];
    s.(db := DropFile(s.db, d.filename), current := s.current - {d.filename},
       deleters := s.deleters[h := d.(dropped := true)])
  }

  ghost function AfterScan(s: State, live: set<Address>): State {
    s.(healer := Pass(live,
      map id | id in s.db.chunks && CommittedChunk(s.db, id) && |Replicas(s.db, id) * live| < s.r :: Replicas(s.db, id),
      Ready))
  }

  function AfterCopyStore(s: State, target: Address, id: ChunkId, data: Bytes): State {
    s.(disk := s.disk[(target, id) := data], msgs := s.msgs + {Stored(target, id)},
       healer := if s.healer.Pass? && s.healer.phase.Copying? && s.healer.phase.id == id
           && s.healer.phase.target == target
                 then s.healer.(phase := Copying(id, target, true)) else s.healer)
  }

  /** `add_replica`; a refused insert ends the pass. A replaced dead server opens the gap. */
  function AfterAdd(s: State): State
    requires s.healer.Pass? && s.healer.phase.Copying? && s.healer.phase.id in s.healer.view
  {
    var id, target := s.healer.phase.id, s.healer.phase.target;
    match AddReplica(s.db, id, target)
    case None => s.(healer := Idle)
    case Some(db) =>
      s.(db := db, healer := s.healer.(
        view := s.healer.view[id := s.healer.view[id] + {target}],
        phase := if s.healer.view[id] <= s.healer.live then Ready else Gap(id)))
  }

  function AfterRemove(s: State, stale: Address): State
    requires s.healer.Pass? && s.healer.phase.Gap? && s.healer.phase.id in s.healer.view
  {
    var id := s.healer.phase.id;
    s.(db := RemoveReplica(s.db, id, stale),
       healer := s.healer.(view := s.healer.view[id := s.healer.view[id] - {stale}], phase := Ready))
  }

  ghost function ClientApply(s: State, c: ClientStep): State
    requires ClientEnabled(s, c)
  {
    match c
    case CreateFile(fn, data, ids, locs, now) => AfterCreate(s, fn, data, ids, locs, now)
    case BeginOverwrite(fn) => s.(msgs := s.msgs + DeleteMsgs(RowPairs(s.db, fn), true))
    case SendStore(w, id, a) => s.(msgs := s.msgs + {Store(a, id, s.content[id])})
    case Commit(w) => s.(db := CommitFile(s.db, s.sessions[w].filename), open := s.open - {w})
    case Abandon(w) => s.(open := s.open - {w})
  }

  ghost function DiskApply(s: State, v: DiskStep): State
    requires DiskEnabled(s, v)
  {
    match v
    case DeliverStore(a, id, data) => s.(disk := s.disk[(a, id) := data], msgs := s.msgs + {Stored(a, id)})
    case DeliverDelete(a, id, early) => s.(disk := s.disk - {(a, id)})
    case ScrubRead(a) => s.(scrubs := s.scrubs[a := set p | p in s.db.replicas && p.1 == a :: p.0])
    case ScrubApply(a) => s.(disk := s.disk - set k | k in s.disk && k.0 == a && k.1 !in s.scrubs[a])
    case CopyRead(target, id, source) => s.(msgs := s.msgs + {CopyData(target, id, s.disk[(source, id)])})
    case CopyStore(target, id, data) => AfterCopyStore(s, target, id, data)
  }

  ghost function DeleteApply(s: State, d: DeleteStep): State
    requires DeleteEnabled(s, d)
  {
    match d
    case BeginDelete(h, fn, gc) => s.(deleters := s.deleters[h := Deleter(fn, gc, RowPairs(s.db, fn), false)])
    case DropMetadata(h) => AfterDrop(s, h)
    case SendDelete(h, id, a) => s.(msgs := s.msgs + {Delete(a, id, false)})
  }

  ghost function HealApply(s: State, h: HealStep): State
    requires HealEnabled(s, h)
  {
    match h
    case Scan(live) => AfterScan(s, live)
    case SendCopy(id, source, target) =>
      s.(msgs := s.msgs + {Replicate(target, id, source)}, healer := s.healer.(phase := Copying(id, target, false)))
    case CopyFailed => s.(healer := s.healer.(phase := Ready))
    case Add => AfterAdd(s)
    case Remove(stale) => AfterRemove(s, stale)
    case EndPass => s.(healer := Idle)
  }

  ghost function ReadApply(s: State, q: ReadStep): State
    requires ReadEnabled(s, q)
  {
    match q
    case ReadStart(k, fn, ids) => s.(readers := s.readers[k := Reader(fn, s.current[fn], ids, map[])])
    case ReadFetch(k, a, id) =>
      s.(readers := s.readers[k := s.readers[k].(parts := s.readers[k].parts[id := s.disk[(a, id)]])])
  }

  /** The naming server's memory is lost; the tables are on disk. */
  ghost function AfterNamingCrash(s: State): State {
    s.(deleters := map[], healer := Idle)
  }

  ghost function Apply(s: State, e: Event): State
    requires Enabled(s, e)
  {
    match e
    case ByClient(c) => ClientApply(s, c)
    case ByDisk(v) => DiskApply(s, v)
    case ByDelete(d) => DeleteApply(s, d)
    case ByHeal(h) => HealApply(s, h)
    case ByRead(q) => ReadApply(s, q)
    case NamingCrash => AfterNamingCrash(s)
  }

  // Which steps may touch which part of the state.

  lemma ClientFrame(s: State, c: ClientStep)
    requires ClientEnabled(s, c) && !c.CreateFile?
    ensures var t := ClientApply(s, c);
      t == s.(db := s.db.(files := t.db.files), msgs := t.msgs, open := t.open) && s.msgs <= t.msgs
          && t.db.files.Keys == s.db.files.Keys
  {
    match c
    case BeginOverwrite(fn) =>
    case SendStore(w, id, a) =>
    case Commit(w) =>
    case Abandon(w) =>
  }

  lemma DiskFrame(s: State, v: DiskStep)
    requires DiskEnabled(s, v)
    ensures var t := DiskApply(s, v);
      t == s.(disk := t.disk, msgs := t.msgs, scrubs := t.scrubs, healer := t.healer) && s.msgs <= t.msgs
  {
    match v
    case DeliverStore(a, id, data) =>
    case DeliverDelete(a, id, early) =>
    case ScrubRead(a) =>
    case ScrubApply(a) =>
    case CopyRead(target, id, source) =>
    case CopyStore(target, id, data) =>
  }

  lemma DeleteFrame(s: State, d: DeleteStep)
    requires DeleteEnabled(s, d)
    ensures var t := DeleteApply(s, d);
      t == s.(db := t.db, current := t.current, deleters := t.deleters, msgs := t.msgs) && s.msgs <= t.msgs
    ensures !d.DropMetadata? ==> DeleteApply(s, d).db == s.db && DeleteApply(s, d).current == s.current
  {
    match d
    case BeginDelete(h, fn, gc) =>
    case DropMetadata(h) =>
    case SendDelete(h, id, a) =>
  }

  lemma AddFrame(s: State)
    requires HealEnabled(s, Add)
    ensures AfterAdd(s) == s.(db := s.db.(replicas := AfterAdd(s).db.replicas), healer := AfterAdd(s).healer)
  {
    AddReplicaFrame(s.db, s.healer.phase.id, s.healer.phase.target);
  }

  lemma AddReplicaFrame(db: Db, id: ChunkId, a: Address)
    ensures AddReplica(db, id, a).Some? ==>
      AddReplica(db, id, a).value == db.(replicas := AddReplica(db, id, a).value.replicas)
    ensures db == db.(replicas := db.replicas)
  {}

  lemma HealFrame(s: State, h: HealStep)
    requires HealEnabled(s, h)
    ensures var t := HealApply(s, h);
      t == s.(db := s.db.(replicas := t.db.replicas), msgs := t.msgs, healer := t.healer) && s.msgs <= t.msgs
  {
    match h
    case Scan(live) =>
    case SendCopy(id, source, target) =>
    case CopyFailed =>
    case Add => AddFrame(s);
    case Remove(stale) =>
    case EndPass =>
  }

  lemma ReadFrame(s: State, q: ReadStep)
    requires ReadEnabled(s, q)
    ensures ReadApply(s, q) == s.(readers := ReadApply(s, q).readers)
  {
    match q
    case ReadStart(k, fn, ids) =>
    case ReadFetch(k, a, id) =>
  }

  ghost predicate Run(s: State, es: seq<Event>)
    decreases |es|
  {
    es == [] || (Enabled(s, es[0]) && Run(Apply(s, es[0]), es[1..]))
  }

  ghost function After(s: State, es: seq<Event>): State
    requires Run(s, es)
    decreases |es|
  {
    if es == [] then s else After(Apply(s, es[0]), es[1..])
  }

  /** The run leads from `s` to `t`. */
  ghost predicate Path(s: State, es: seq<Event>, t: State) {
    Run(s, es) && After(s, es) == t
  }

  lemma PathOne(s: State, e: Event)
    requires Enabled(s, e)
    ensures Path(s, [e], Apply(s, e))
  {
    hide Enabled, Apply;
    assert [e][1..] == [];
    assert Path(Apply(s, e), [], Apply(s, e));
  }

  lemma {:induction false} PathThen(s: State, es: seq<Event>, t: State, fs: seq<Event>, u: State)
    requires Path(s, es, t) && Path(t, fs, u)
    ensures Path(s, es + fs, u)
    decreases |es|
  {
    hide Enabled, Apply;
    if es == [] {
      assert es + fs == fs;
    } else {
      assert (es + fs)[1..] == es[1..] + fs;
      PathThen(Apply(s, es[0]), es[1..], t, fs, u);
    }
  }
}
