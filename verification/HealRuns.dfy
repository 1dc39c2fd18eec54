/** A healing pass as one coarse step is a run of the fine-grained protocol. */
module HealRuns {
  import opened Base
  import opened Tables
  import opened Protocol
  import opened Safety
  import opened Reads
  import opened RowSteps
  import opened Discipline
  import opened Refinement
  import opened Repairs
  import Healer

  // ---- one repair ----

  /** The messages and statements behind one recorded repair. */
  function CopyEvents(x: Repair, data: Bytes): seq<Event> {
    [ByHeal(SendCopy(x.id, x.source, x.target)), ByDisk(CopyRead(x.target, x.id, x.source)),
        ByDisk(CopyStore(x.target, x.id, data))]
  }

  function RecordEvents(x: Repair): seq<Event> {
    [ByHeal(Add)] + if x.stale.Some? then [ByHeal(Remove(x.stale.value))] else []
  }

  function Content(content: ContentMap, id: ChunkId): Bytes {
    if id in content then content[id] else []
  }

  function RepairEvents(content: ContentMap, x: Repair): seq<Event> {
    CopyEvents(x, Content(content, x.id)) + RecordEvents(x)
  }

  ghost predicate ReadyFor(s: State, live: set<Address>, x: Repair) {
    && s.healer.Pass? && s.healer.phase.Ready? && s.healer.live == live
    && x.id in s.healer.view && s.healer.view[x.id] == Replicas(s.db, x.id)
    && Valid(s.db, s.r, live, x) && x.stale.Some?
    && (x.source, x.id) in s.disk && x.id in s.content && s.disk[(x.source, x.id)] == s.content[x.id]
  }

  ghost function Copied(s: State, x: Repair): State
    requires s.healer.Pass? && x.id in s.content
  {
    s.(msgs := s.msgs + {Replicate(x.target, x.id, x.source)} + {CopyData(x.target, x.id, s.content[x.id])}
        + {Stored(x.target, x.id)},
       disk := s.disk[(x.target, x.id) := s.content[x.id]],
       healer := s.healer.(phase := Copying(x.id, x.target, true)))
  }

  lemma CopyRuns(s: State, live: set<Address>, x: Repair)
    requires ReadyFor(s, live, x)
    ensures Leads(s, CopyEvents(x, Content(s.content, x.id)), Copied(s, x))
  {
    hide Leads;
    var data := s.content[x.id];
    var e0, e1, e2 := ByHeal(SendCopy(x.id, x.source, x.target)), ByDisk(CopyRead(x.target, x.id, x.source)),
        ByDisk(CopyStore(x.target, x.id, data));
    LeadsOne(s, e0);
    var s1 := Apply(s, e0);
    LeadsOne(s1, e1);
    var s2 := Apply(s1, e1);
    LeadsOne(s2, e2);
    assert Apply(s2, e2) == Copied(s, x);
    LeadsThen(s1, [e1], s2, [e2], Copied(s, x));
    LeadsThen(s, [e0], s1, [e1] + [e2], Copied(s, x));
    assert [e0] + ([e1] + [e2]) == CopyEvents(x, data);
  }

  ghost function AfterRecord(s: State, x: Repair): State
    requires s.healer.Pass? && x.id in s.healer.view && x.stale.Some?
  {
    s.(db := ApplyRepair(s.db, x),
       healer := s.healer.(view := s.healer.view[x.id := s.healer.view[x.id] + {x.target} - {x.stale.value}],
           phase := Ready))
  }

  lemma RecordRuns(s: State, live: set<Address>, x: Repair)
    requires s.healer.Pass? && s.healer.phase == Copying(x.id, x.target, true) && s.healer.live == live
    requires x.id in s.healer.view && s.healer.view[x.id] == Replicas(s.db, x.id) && x.id in s.db.chunks
    requires x.stale.Some? && x.stale.value in Replicas(s.db, x.id) - live && x.target in live
    ensures Leads(s, RecordEvents(x), AfterRecord(s, x))
  {
    hide Leads, Replicas;
    var e0, e1 := ByHeal(Add), ByHeal(Remove(x.stale.value));
    LeadsOne(s, e0);
    var s1 := Apply(s, e0);
    assert s1.healer.phase == Gap(x.id);
    LeadsOne(s1, e1);
    assert Apply(s1, e1).healer.view == AfterRecord(s, x).healer.view;
    assert Apply(s1, e1) == AfterRecord(s, x);
    LeadsThen(s, [e0], s1, [e1], AfterRecord(s, x));
    assert [e0] + [e1] == RecordEvents(x);
  }

  ghost function Repaired(s: State, x: Repair): State
    requires s.healer.Pass? && x.id in s.content && x.id in s.healer.view && x.stale.Some?
  {
    AfterRecord(Copied(s, x), x)
  }

  lemma RepairRuns(s: State, live: set<Address>, x: Repair)
    requires ReadyFor(s, live, x)
    ensures Leads(s, RepairEvents(s.content, x), Repaired(s, x))
  {
    hide Leads, Replicas;
    CopyRuns(s, live, x);
    RecordRuns(Copied(s, x), live, x);
    LeadsThen(s, CopyEvents(x, Content(s.content, x.id)), Copied(s, x), RecordEvents(x), Repaired(s, x));
  }

  /** A copy that fails leaves the tables and the disks alone, and the pass goes on with its selection. */
  lemma FailedCopyRuns(r: int, run: seq<Event>, s: State, live: set<Address>, x: Repair)
    requires Reached(r, run, s) && InPass(s, live) && Valid(s.db, r, live, x)
    ensures var es := [ByHeal(SendCopy(x.id, x.source, x.target)), ByHeal(CopyFailed)];
            var t := s.(msgs := s.msgs + {Replicate(x.target, x.id, x.source)});
      Leads(s, es, t) && InPass(t, live) && Valid(t.db, r, live, x)
  {
    hide Reached, Good, Leads, Valid, Covers;
    ReachedGood(r, run, s);
    ReadyWhenGood(s, live, x);
    FailedCopy(s, live, x);
  }

  lemma FailedCopy(s: State, live: set<Address>, x: Repair)
    requires ReadyFor(s, live, x)
    ensures var es := [ByHeal(SendCopy(x.id, x.source, x.target)), ByHeal(CopyFailed)];
      Leads(s, es, s.(msgs := s.msgs + {Replicate(x.target, x.id, x.source)}))
  {
    hide Leads;
    var e0, e1 := ByHeal(SendCopy(x.id, x.source, x.target)), ByHeal(CopyFailed);
    LeadsOne(s, e0);
    LeadsOne(Apply(s, e0), e1);
    LeadsThen(s, [e0], Apply(s, e0), [e1], Apply(Apply(s, e0), e1));
    assert [e0] + [e1] == [e0, e1];
    assert Apply(Apply(s, e0), e1) == s.(msgs := s.msgs + {Replicate(x.target, x.id, x.source)});
  }

  // ---- a pass ----

  /** Every chunk still short of live replicas was selected when the pass began. */
  ghost predicate Covers(db: Db, r: int, live: set<Address>, view: map<ChunkId, set<Address>>) {
    forall id :: CommittedChunk(db, id) && |LiveReplicas(db, id, live)| < r ==> id in view
  }

  ghost predicate InPass(s: State, live: set<Address>) {
    s.healer.Pass? && s.healer.phase.Ready? && s.healer.live == live && Covers(s.db, s.r, live, s.healer.view)
  }

  lemma ReadyWhenGood(s: State, live: set<Address>, x: Repair)
    requires Good(s) && InPass(s, live) && Valid(s.db, s.r, live, x)
    ensures ReadyFor(s, live, x)
  {
    hide Inv, DInv;
    assert x.id in s.healer.view;
    StaleExists(s.db, s.r, live, x);
    assert (x.id, x.source) in s.db.replicas;
    GoodDisk(s, x.id, x.source);
  }

  lemma CoversNext(db: Db, r: int, live: set<Address>, view: map<ChunkId, set<Address>>,
      view': map<ChunkId, set<Address>>, x: Repair)
    requires Covers(db, r, live, view) && Valid(db, r, live, x) && view.Keys <= view'.Keys
    ensures Covers(ApplyRepair(db, x), r, live, view')
  {
    forall id | CommittedChunk(ApplyRepair(db, x), id) && |LiveReplicas(ApplyRepair(db, x), id, live)| < r
      ensures id in view'
    {
      RepairOne(db, r, live, x, id);
    }
  }

  function TraceEvents(content: ContentMap, xs: seq<Repair>): seq<Event> {
    if xs == [] then [] else RepairEvents(content, xs[0]) + TraceEvents(content, xs[1..])
  }

  /** `s` and `t` differ in replica rows, in disks and messages that only grew, and in the healer. */
  ghost predicate OnlyHealed(s: State, t: State) {
    && t == s.(db := s.db.(replicas := t.db.replicas), disk := t.disk, msgs := t.msgs, healer := t.healer)
    && s.msgs <= t.msgs
  }

  lemma RepairedOnlyHeals(s: State, live: set<Address>, x: Repair)
    requires ReadyFor(s, live, x) && Covers(s.db, s.r, live, s.healer.view)
    ensures var t := Repaired(s, x); OnlyHealed(s, t) && t.db == ApplyRepair(s.db, x) && InPass(t, live)
  {
    hide Covers, Valid, Replicas;
    CoversNext(s.db, s.r, live, s.healer.view, Repaired(s, x).healer.view, x);
  }

  lemma {:induction false} TraceRuns(s: State, live: set<Address>, xs: seq<Repair>) returns (t: State)
    requires Good(s) && InPass(s, live) && ValidTrace(s.db, s.r, live, xs)
    ensures Leads(s, TraceEvents(s.content, xs), t) && Good(t)
    ensures t.db == ApplyTrace(s.db, xs) && InPass(t, live) && OnlyHealed(s, t)
    decreases |xs|
  {
    hide Good, InPass, Leads, Valid, ApplyRepair, RepairEvents, Repaired, ReadyFor, Covers;
    if xs == [] {
      NoEvents(s);
      t := s;
    } else {
      ReadyWhenGood(s, live, xs[0]);
      InPassCovers(s, live);
      RepairedFacts(s, live, xs[0]);
      var s1 := Repaired(s, xs[0]);
      RepairRuns(s, live, xs[0]);
      RepairedOnlyHeals(s, live, xs[0]);
      LeadsGood(s, RepairEvents(s.content, xs[0]), s1);
      t := TraceRuns(s1, live, xs[1..]);
      LeadsThen(s, RepairEvents(s.content, xs[0]), s1, TraceEvents(s.content, xs[1..]), t);
    }
  }

  lemma InPassCovers(s: State, live: set<Address>)
    requires InPass(s, live)
    ensures s.healer.Pass? && Covers(s.db, s.r, live, s.healer.view)
  {}

  lemma RepairedFacts(s: State, live: set<Address>, x: Repair)
    requires ReadyFor(s, live, x)
    ensures s.healer.Pass? && x.id in s.content && x.id in s.healer.view && x.stale.Some?
  {}

  lemma LeadsGood(s: State, es: seq<Event>, t: State)
    requires Good(s) && Leads(s, es, t)
    ensures Good(t)
  {
    hide Good;
    DRunKeeps(s, es);
  }

  function PassEvents(content: ContentMap, live: set<Address>, xs: seq<Repair>): seq<Event> {
    [ByHeal(Scan(live))] + TraceEvents(content, xs) + [ByHeal(EndPass)]
  }

  lemma ScanCovers(s: State, live: set<Address>)
    requires HealEnabled(s, Scan(live))
    ensures InPass(AfterScan(s, live), live)
  {}

  /** The pass up to its last repair. */
  lemma GoodPassWorks(s: State, live: set<Address>, xs: seq<Repair>) returns (u: State)
    requires Good(s) && s.healer.Idle? && |live| >= s.r && ValidTrace(s.db, s.r, live, xs)
    ensures Leads(s, [ByHeal(Scan(live))] + TraceEvents(s.content, xs), u) && Good(u)
    ensures u.db == ApplyTrace(s.db, xs) && InPass(u, live) && OnlyHealed(s, u)
  {
    hide Good, Leads, InPass, ValidTrace, ApplyTrace;
    var e0 := ByHeal(Scan(live));
    var s1 := Apply(s, e0);
    LeadsOne(s, e0);
    LeadsGood(s, [e0], s1);
    ScanCovers(s, live);
    u := TraceRuns(s1, live, xs);
    LeadsThen(s, [e0], s1, TraceEvents(s.content, xs), u);
  }

  lemma GoodPassRuns(s: State, live: set<Address>, xs: seq<Repair>) returns (t: State)
    requires Good(s) && s.healer.Idle? && |live| >= s.r && ValidTrace(s.db, s.r, live, xs)
    ensures Leads(s, PassEvents(s.content, live, xs), t) && Good(t)
    ensures t.db == ApplyTrace(s.db, xs) && t.healer.Idle? && OnlyHealed(s, t) && Visible(t) == Visible(s)
  {
    hide Good, Leads, InPass, Visible, ValidTrace, ApplyTrace;
    var u := GoodPassWorks(s, live, xs);
    InPassCovers(u, live);
    var e1 := ByHeal(EndPass);
    LeadsOne(u, e1);
    t := Apply(u, e1);
    LeadsThen(s, [ByHeal(Scan(live))] + TraceEvents(s.content, xs), u, [e1], t);
    LeadsGood(s, PassEvents(s.content, live, xs), t);
    SameVisible(s, t);
  }

  /** From a reachable state with no pass in progress, any sequence of valid repairs is what some
      disciplined fine-grained run of one pass does, and a reader sees no difference. */
  lemma PassRuns(r: int, run: seq<Event>, s: State, live: set<Address>, xs: seq<Repair>) returns (t: State)
    requires Reached(r, run, s) && s.healer.Idle? && |live| >= r && ValidTrace(s.db, r, live, xs)
    ensures Leads(s, PassEvents(s.content, live, xs), t)
    ensures t.db == ApplyTrace(s.db, xs) && t.healer.Idle? && OnlyHealed(s, t) && Visible(t) == Visible(s)
  {
    hide Reached, Good, Leads, Visible, ValidTrace, ApplyTrace, PassEvents;
    ReachedGood(r, run, s);
    t := GoodPassRuns(s, live, xs);
  }

  // ---- the short-circuit in reachable states ----

  /** In every reachable state, if all addresses known to committed chunks are live, no chunk is
      under-replicated: skipping the scan hides no repair. */
  lemma ReachableShortCircuit(r: int, es: seq<Event>, s: State, live: set<Address>)
    requires Reachable(r, es, s) && KnownAddresses(s.db) <= live
    ensures UnderReplicated(s.db, r, live) == {}
  {
    hide Reachable, KnownAddresses, UnderReplicated, Replicas;
    forall id | CommittedChunk(s.db, id) ensures |Replicas(s.db, id)| >= r {
      AtLeastR(r, es, s, id);
    }
    ShortCircuitSound(s.db, r, live);
  }

  /** In a reachable state at rest in which no pass was ever stopped in a gap, a pass without failures
      converges exactly when every committed chunk has a live replica. */
  lemma ReachableHealable(r: int, es: seq<Event>, s: State, live: set<Address>)
    requires Reachable(r, es, s) && s.healer.Idle? && |live| >= r
    requires forall id :: CommittedChunk(s.db, id) ==> Stops(Init(r), es, id) == 0
    ensures Healer.Healable(s.db, r, live)
      <==> forall id :: CommittedChunk(s.db, id) ==> LiveReplicas(s.db, id, live) != {}
  {
    hide Reachable, Replicas, LiveReplicas;
    forall id | CommittedChunk(s.db, id) ensures |Replicas(s.db, id)| == r {
      ExactCount(r, es, s, id);
    }
  }
}
