/** What a healing pass does, step by step, while other steps fall between its own. */
module PassSteps {
  import opened Base
  import opened Tables
  import opened Protocol
  import opened Safety
  import opened Replication
  import opened RowSteps
  import opened Repairs

  ghost predicate AllWithin(es: seq<Event>) {
    forall i :: 0 <= i < |es| ==> Within(es[i])
  }

  /** Any step but the scan of another pass. */
  ghost predicate Within(e: Event) {
    e.ByHeal? ==> !e.h.Scan?
  }

  // ---- a pass among other steps ----

  /** What a pass over `live` that began in `m` has done so far to a chunk of `m`. */
  ghost predicate Follows(m: State, s: State, live: set<Address>, id: ChunkId) {
    && s.healer.Pass? && s.healer.live == live
    && (id in s.healer.view <==> CommittedChunk(m.db, id) && |LiveReplicas(m.db, id, live)| < m.r)
    && LiveReplicas(m.db, id, live) <= Replicas(s.db, id) <= Replicas(m.db, id) + live
    && (id !in s.healer.view || LiveReplicas(m.db, id, live) == {} ==> Replicas(s.db, id) == Replicas(m.db, id))
    && (LiveReplicas(m.db, id, live) == {} ==> s.healer.phase.Ready? || s.healer.phase.id != id)
  }

  lemma ScanFollows(m: State, live: set<Address>, id: ChunkId)
    requires id in m.db.chunks
    ensures Follows(m, AfterScan(m, live), live, id)
  {}

  /** The phase stays with its chunk, or turns to one with a live copy. */
  ghost predicate PhaseMoves(h: HealState, g: HealState)
    requires h.Pass? && g.Pass?
  {
    || g.phase.Ready?
    || (!h.phase.Ready? && g.phase.id == h.phase.id)
    || (g.phase.id in h.view && h.view[g.phase.id] * h.live != {})
  }

  ghost predicate HealerMoves(h: HealState, g: HealState) {
    h.Pass? && g.Pass? && g.live == h.live && g.view.Keys == h.view.Keys && PhaseMoves(h, g)
  }

  /** The pass changes the rows of its chunk and stays with it or is ready for the next. */
  lemma RowsMove(h: HealState, rows: set<Address>, phase: Phase)
    requires h.Pass? && !h.phase.Ready? && h.phase.id in h.view && (phase.Ready? || phase.id == h.phase.id)
    ensures HealerMoves(h, h.(view := h.view[h.phase.id := rows], phase := phase))
  {
    assert h.view[h.phase.id := rows].Keys == h.view.Keys;
  }

  lemma AddHealer(s: State)
    requires HealEnabled(s, Add) && AddReplica(s.db, s.healer.phase.id, s.healer.phase.target).Some?
    ensures var h := s.healer;
      AfterAdd(s).healer == h.(view := h.view[h.phase.id := h.view[h.phase.id] + {h.phase.target}],
          phase := if h.view[h.phase.id] <= h.live then Ready else Gap(h.phase.id))
  {
    hide AddReplica;
  }

  lemma RefusedAddEnds(s: State)
    requires HealEnabled(s, Add) && AddReplica(s.db, s.healer.phase.id, s.healer.phase.target).None?
    ensures AfterAdd(s).healer.Idle? && AfterAdd(s).db == s.db && AfterAdd(s).r == s.r
  {
    hide AddReplica;
  }

  lemma AddMoves(s: State)
    requires HealEnabled(s, Add) && AfterAdd(s).healer.Pass?
    ensures HealerMoves(s.healer, AfterAdd(s).healer)
  {
    hide AddReplica, HealerMoves, AfterAdd;
    var h := s.healer;
    if AddReplica(s.db, h.phase.id, h.phase.target).None? {
      RefusedAddEnds(s);
    } else {
      AddHealer(s);
      RowsMove(h, h.view[h.phase.id] + {h.phase.target},
          if h.view[h.phase.id] <= h.live then Ready else Gap(h.phase.id));
    }
  }

  lemma RemoveMoves(s: State, stale: Address)
    requires HealEnabled(s, Remove(stale))
    ensures HealerMoves(s.healer, AfterRemove(s, stale).healer)
  {
    hide RemoveReplica, HealerMoves;
    RowsMove(s.healer, s.healer.view[s.healer.phase.id] - {stale}, Ready);
  }

  lemma CopyMoves(h: HealState, id: ChunkId, source: Address, target: Address)
    requires h.Pass? && id in h.view && source in h.view[id] * h.live
    ensures HealerMoves(h, h.(phase := Copying(id, target, false)))
  {}

  lemma HealStepMoves(s: State, h: HealStep)
    requires HealEnabled(s, h) && Within(ByHeal(h)) && HealApply(s, h).healer.Pass?
    ensures HealerMoves(s.healer, HealApply(s, h).healer)
  {
    hide HealerMoves, AfterAdd, AfterRemove;
    match h
    case SendCopy(id, source, target) => CopyMoves(s.healer, id, source, target);
    case CopyFailed => ReadyMoves(s.healer);
    case Add => AddMoves(s);
    case Remove(stale) => RemoveMoves(s, stale);
  }

  lemma ReadyMoves(h: HealState)
    requires h.Pass?
    ensures HealerMoves(h, h.(phase := Ready))
  {}

  lemma DiskStepMoves(s: State, v: DiskStep)
    requires DiskEnabled(s, v)
    ensures DiskApply(s, v).healer == s.healer || (s.healer.Pass? && HealerMoves(s.healer, DiskApply(s, v).healer))
  {
    match v
    case DeliverStore(a, id, data) =>
    case DeliverDelete(a, id, early) =>
    case ScrubRead(a) =>
    case ScrubApply(a) =>
    case CopyRead(target, id, source) =>
    case CopyStore(target, id, data) =>
  }

  /** Until it is over a pass keeps its live set and its selection. */
  lemma StepMoves(s: State, e: Event)
    requires Enabled(s, e) && Within(e)
    ensures var h, g := s.healer, Apply(s, e).healer; g.Pass? ==> g == h || HealerMoves(h, g)
    ensures s.healer.Idle? ==> Apply(s, e).healer.Idle?
  {
    hide ClientApply, DiskApply, DeleteApply, HealApply, ReadApply, ClientEnabled, DiskEnabled, DeleteEnabled;
    hide ReadEnabled;
    match e
    case ByClient(c) => ClientHealer(s, c);
    case ByDisk(v) => DiskStepMoves(s, v);
    case ByDelete(d) => DeleteFrame(s, d);
    case ByHeal(h) => if HealApply(s, h).healer.Pass? { HealStepMoves(s, h); }
    case ByRead(q) => ReadFrame(s, q);
    case NamingCrash =>
  }

  lemma ViewRows(s: State, id: ChunkId)
    requires CountInv(s) && s.healer.Pass?
    ensures id in s.healer.view && id in s.db.chunks ==> s.healer.view[id] == Replicas(s.db, id)
    ensures s.healer.phase.Copying? || s.healer.phase.Gap? ==> s.healer.phase.id in s.healer.view
    ensures s.healer.phase.Copying? ==> s.healer.phase.target in s.healer.live
  {}

  /** The rows of a chunk with a live copy lose dead ones and gain live ones; those of the others stay. */
  lemma FollowRows(m: State, s: State, e: Event, live: set<Address>, id: ChunkId)
    requires Enabled(s, e) && Follows(m, s, live, id)
    requires s.healer.phase.Copying? || s.healer.phase.Gap? ==> s.healer.phase.id in s.healer.view
    requires s.healer.phase.Copying? ==> s.healer.phase.target in s.healer.live
    ensures LiveReplicas(m.db, id, live) <= RowsAfter(s, e, id) <= Replicas(m.db, id) + live
    ensures id !in s.healer.view || LiveReplicas(m.db, id, live) == {} ==> RowsAfter(s, e, id) == Replicas(m.db, id)
  {
    hide Replicas, ClientEnabled, DiskEnabled, DeleteEnabled, ReadEnabled;
    if e.ByHeal? && e.h.Remove? {
      assert e.h.stale !in live;
    }
  }

  lemma FollowStep(m: State, s: State, e: Event, live: set<Address>, id: ChunkId)
    requires Used(s.db, s.content) && CountInv(s) && Enabled(s, e) && Within(e) && Apply(s, e).healer.Pass?
    requires Follows(m, s, live, id) && id in s.db.chunks && id in Apply(s, e).db.chunks
    ensures Follows(m, Apply(s, e), live, id)
  {
    hide Used, CountInv, Apply, Enabled, Within, Replicas, CommittedChunk, RowsAfter;
    StepCarries(s, e, id);
    StepMoves(s, e);
    ViewRows(s, id);
    FollowRows(m, s, e, live, id);
  }

  lemma {:induction false} IdleStays(s: State, es: seq<Event>)
    requires Run(s, es) && AllWithin(es) && s.healer.Idle?
    ensures After(s, es).healer.Idle?
    decreases |es|
  {
    hide Enabled, Apply, Within;
    if es != [] {
      StepMoves(s, es[0]);
      assert forall i :: 0 <= i < |es[1..]| ==> es[1..][i] == es[i + 1];
      IdleStays(Apply(s, es[0]), es[1..]);
    }
  }

  lemma {:induction false} RunFollows(m: State, s: State, es: seq<Event>, live: set<Address>, id: ChunkId)
    requires Inv(s) && CountInv(s) && Run(s, es) && AllWithin(es) && After(s, es).healer.Pass?
    requires Follows(m, s, live, id) && id in s.db.chunks && id in After(s, es).db.chunks
    ensures Follows(m, After(s, es), live, id)
    decreases |es|
  {
    hide Inv, Used, CountInv, Enabled, Apply, Within, Follows, StopsInGap, ExactKept;
    if es != [] {
      var t := Apply(s, es[0]);
      StepKeeps(s, es[0]);
      StepCounts(s, es[0]);
      StaysOnTheWay(s, es, id);
      assert forall i :: 0 <= i < |es[1..]| ==> es[1..][i] == es[i + 1];
      if t.healer.Idle? { IdleStays(t, es[1..]); }
      ChunksUsed(s);
      FollowStep(m, s, es[0], live, id);
      RunFollows(m, t, es[1..], live, id);
    }
  }

  /** While a pass goes on in any interleaving, a chunk it selected that had a live copy at the scan loses
      dead rows and gains live ones only, and every other chunk keeps its rows. */
  lemma PassFollows(r: int, run: seq<Event>, m: State, live: set<Address>, es: seq<Event>, id: ChunkId)
    requires Reachable(r, run, m) && HealEnabled(m, Scan(live)) && Run(AfterScan(m, live), es) && AllWithin(es)
    requires var t := After(AfterScan(m, live), es); t.healer.Pass? && id in m.db.chunks && id in t.db.chunks
    ensures Follows(m, After(AfterScan(m, live), es), live, id)
  {
    hide Reachable, Run, AllWithin, Inv, CountInv, Follows;
    ReachableCounts(r, run, m);
    ScanKeeps(m, live);
    ScanFollows(m, live, id);
    RunFollows(m, AfterScan(m, live), es, live, id);
  }

  lemma ReachableCounts(r: int, run: seq<Event>, m: State)
    requires Reachable(r, run, m)
    ensures Inv(m) && CountInv(m)
  {
    hide Run, Inv;
    InitInv(r);
    RunCounts(Init(r), run);
  }

  lemma ScanKeeps(m: State, live: set<Address>)
    requires Inv(m) && CountInv(m) && HealEnabled(m, Scan(live))
    ensures Inv(AfterScan(m, live)) && CountInv(AfterScan(m, live))
  {
    hide Inv, CountInv;
    StepKeeps(m, ByHeal(Scan(live)));
    StepCounts(m, ByHeal(Scan(live)));
  }
}
