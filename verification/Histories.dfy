/** Whole histories in which servers fail, come back and fail again, with healing passes in between. */
module Histories {
  import opened Base
  import opened Chunking
  import opened Tables
  import opened Protocol
  import opened Safety
  import opened Reads
  import opened Replication
  import opened RowSteps
  import opened Discipline
  import opened Refinement
  import opened Repairs
  import opened PassSteps
  import opened HealRuns
  import opened Fetch
  import opened NamingServer
  import opened FaultTolerance
  import opened Progress

  // ---- what a state can still lose ----

  /** At most R-1 servers are down beside those in `gone`; the others answer. */
  ghost predicate Failing(t: State, gone: set<Address>, down: set<Address>, answer: Answers) {
    |down| < t.r && Honest(answer, t.content) && UpAnswers(answer, t.disk, gone + down)
  }

  /** The read loop returns the committed bytes of the file. */
  ghost predicate ReadsBack(t: State, fn: Filename, ps: seq<Placement>, answer: Answers) {
    fn in Visible(t) && Fetched(ps, answer).Some? && Concat(Fetched(ps, answer).value) == Visible(t)[fn]
  }

  /** The file reads back byte for byte whichever further R-1 servers are down. */
  ghost predicate Tolerant(t: State, gone: set<Address>, fn: Filename, ps: seq<Placement>) {
    forall down, answer :: Failing(t, gone, down, answer) ==> ReadsBack(t, fn, ps, answer)
  }

  ghost predicate EnoughBeside(db: Db, r: int, gone: set<Address>, id: ChunkId) {
    |Replicas(db, id) - gone| >= r
  }

  lemma HeldBeside(t: State, gone: set<Address>, fn: Filename, down: set<Address>)
    requires |down| < t.r && forall id :: id in ChunksOf(t.db, fn) ==> EnoughBeside(t.db, t.r, gone, id)
    ensures StillHeld(t.db, fn, gone + down)
  {
    forall id | id in t.db.chunks && t.db.chunks[id].filename == fn ensures Replicas(t.db, id) - (gone + down) != {} {
      assert EnoughBeside(t.db, t.r, gone, id);
      if Replicas(t.db, id) - gone <= down {
        SubsetSize(Replicas(t.db, id) - gone, down);
      } else {
        var a :| a in Replicas(t.db, id) - gone && a !in down;
        assert a in Replicas(t.db, id) - (gone + down);
      }
    }
  }

  /** What the servers that are up answer when each reads its disk. */
  ghost function FromDisks(disk: map<(Address, ChunkId), Bytes>, down: set<Address>): Answers {
    (a, id) => if a !in down && (a, id) in disk then Some(disk[(a, id)]) else None
  }

  /** With all recorded holders of one chunk down, the read fails. */
  lemma LostChunk(t: State, fn: Filename, ps: seq<Placement>, id: ChunkId, down: set<Address>)
    requires id in ChunksOf(t.db, fn) && PlacementsOf(t.db, fn, ps) && Replicas(t.db, id) <= down
    ensures Fetched(ps, FromDisks(t.disk, down)).None?
  {
    assert id in IdList(ps);
    var i :| 0 <= i < |ps| && IdList(ps)[i] == id;
    var answer := FromDisks(t.disk, down);
    forall a | a in ps[i].locations ensures answer(a, id).None? {
      assert a in Elems(ps[i].locations);
    }
    assert !Answered(ps, answer);
    SortedAnswered(ps, answer);
  }

  lemma DisksFail(t: State, gone: set<Address>, down: set<Address>)
    requires Inv(t) && |down| < t.r
    ensures Failing(t, gone, down, FromDisks(t.disk, gone + down))
  {}

  /** A committed file survives every further loss of R-1 servers exactly when each of its chunks has R
      recorded replicas beside the servers lost already. */
  lemma TolerantExactly(r: int, es: seq<Event>, t: State, gone: set<Address>, fn: Filename, ps: seq<Placement>)
    requires Reached(r, es, t) && r > 0 && fn in Visible(t) && PlacementsOf(t.db, fn, ps)
    ensures Tolerant(t, gone, fn, ps) <==> forall id :: id in ChunksOf(t.db, fn) ==> EnoughBeside(t.db, r, gone, id)
  {
    hide Reached;
    ReachedGood(r, es, t);
    GoodTolerantExactly(t, gone, fn, ps);
  }

  lemma GoodTolerantExactly(t: State, gone: set<Address>, fn: Filename, ps: seq<Placement>)
    requires Good(t) && t.r > 0 && fn in Visible(t) && PlacementsOf(t.db, fn, ps)
    ensures Tolerant(t, gone, fn, ps) <==> forall id :: id in ChunksOf(t.db, fn) ==> EnoughBeside(t.db, t.r, gone, id)
  {
    hide Good, Visible, Fetched, PlacementsOf, StillHeld, Honest, UpAnswers;
    if forall id :: id in ChunksOf(t.db, fn) ==> EnoughBeside(t.db, t.r, gone, id) {
      forall down, answer | Failing(t, gone, down, answer) ensures ReadsBack(t, fn, ps, answer) {
        HeldBeside(t, gone, fn, down);
        ReadSucceeds(t, fn, ps, gone + down, answer);
      }
    } else {
      var id :| id in ChunksOf(t.db, fn) && !EnoughBeside(t.db, t.r, gone, id);
      NotTolerant(t, gone, fn, ps, id);
    }
  }

  lemma NotTolerant(t: State, gone: set<Address>, fn: Filename, ps: seq<Placement>, id: ChunkId)
    requires Good(t) && PlacementsOf(t.db, fn, ps)
    requires id in ChunksOf(t.db, fn) && |Replicas(t.db, id) - gone| < t.r
    ensures !Tolerant(t, gone, fn, ps)
  {
    hide Inv, CountInv, DInv, PlacementsOf, Fetched, Visible, Honest, UpAnswers, FromDisks;
    var down := Replicas(t.db, id) - gone;
    DisksFail(t, gone, down);
    LostChunk(t, fn, ps, id, gone + down);
    assert !ReadsBack(t, fn, ps, FromDisks(t.disk, gone + down));
  }

  // ---- episodes ----

  /** - Ordinary operation that places nothing on lost servers.
      - Lost servers come back with their disks.
      - An outage of more servers and a pass over the live ones, with any other disciplined steps
        between its scan and the step that ends it: its end, a refused insert or a crash. */
  datatype Episode =
    | Operation(run: seq<Event>)
    | Comeback(back: set<Address>)
    | Outage(fail: set<Address>, live: set<Address>, run: seq<Event>, fin: Event)

  /** When the pass begins, every holder of a committed chunk is live or lost. */
  ghost predicate OutageOk(m: State, k: Ledger, e: Episode)
    requires e.Outage?
  {
    && m.healer.Idle? && m.r <= |e.live| && e.live !! k.gone + e.fail
    && forall p :: p in m.db.replicas && CommittedChunk(m.db, p.0) ==> p.1 in e.live + k.gone + e.fail
  }

  /** The pass of the outage, from its scan in `m` to the moment `u` before it ends. */
  ghost predicate Passes(m: State, k: Ledger, e: Episode, u: State) {
    && e.Outage? && OutageOk(m, k, e) && Leads(m, [ByHeal(Scan(e.live))] + e.run, u)
    && AllWithin(e.run) && AllAvoid(e.run, LostThen(k, e))
    && u.healer.Pass? && Enabled(u, e.fin) && Disciplined(u, e.fin) && Apply(u, e.fin).healer.Idle?
  }

  ghost function LostThen(k: Ledger, e: Episode): Ledger
    requires e.Outage?
  {
    Ledger(k.gone + e.fail, {})
  }

  /** The chunks a pass leaves short: committed ones with fewer than R live copies at its end, and pending
      ones that were short before, since the pass looks at committed chunks only. */
  ghost predicate LeftShort(m: State, k: Ledger, e: Episode, u: State, id: ChunkId)
    requires e.Outage?
  {
    if CommittedChunk(m.db, id) then |LiveReplicas(u.db, id, e.live)| < m.r
    else !EnoughBeside(m.db, m.r, k.gone + e.fail, id)
  }

  ghost function AfterOutage(m: State, k: Ledger, e: Episode, u: State): Ledger
    requires e.Outage?
  {
    Ledger(k.gone + e.fail, set id | id in m.db.chunks && LeftShort(m, k, e, u, id))
  }

  /** Servers that came back count again, with the disks they had. */
  ghost function AfterComeback(s: State, k: Ledger, back: set<Address>): Ledger {
    Ledger(k.gone - back, set id | id in k.exposed
        && |Replicas(s.db, id) - (k.gone - back)| < s.r + Surplus(s.healer, id))
  }

  ghost predicate Happens(s: State, k: Ledger, e: Episode, t: State, l: Ledger) {
    match e
    case Operation(run) => Leads(s, run, t) && AllAvoid(run, k) && l == k
    case Comeback(back) => t == s && l == AfterComeback(s, k, back)
    case Outage(_, _, _, fin) => exists u :: Passes(s, k, e, u) && t == Apply(u, fin) && l == AfterOutage(s, k, e, u)
  }

  ghost predicate History(s: State, k: Ledger, episodes: seq<Episode>, t: State, l: Ledger)
    decreases |episodes|
  {
    if episodes == [] then t == s && l == k
    else exists u, j :: Happens(s, k, episodes[0], u, j) && History(u, j, episodes[1..], t, l)
  }

  /** Some history leads from the empty system to `t`, with the losses of `l`. */
  ghost predicate Endured(r: int, t: State, l: Ledger) {
    exists episodes :: History(Init(r), NONE_LOST, episodes, t, l)
  }

  // ---- what a pass restores ----

  /** The pass as a scan and the rest. */
  lemma PassParts(m: State, k: Ledger, e: Episode, u: State)
    requires Passes(m, k, e, u)
    ensures Enabled(m, ByHeal(Scan(e.live))) && Run(AfterScan(m, e.live), e.run)
    ensures DRun(AfterScan(m, e.live), e.run) && After(AfterScan(m, e.live), e.run) == u
  {
    hide AllAvoid, AllWithin, OutageOk;
    var es := [ByHeal(Scan(e.live))] + e.run;
    assert es[0] == ByHeal(Scan(e.live)) && es[1..] == e.run;
  }

  lemma PassSoFar(m: State, k: Ledger, e: Episode, u: State, id: ChunkId)
    requires Good(m) && Passes(m, k, e, u) && id in m.db.chunks && id in u.db.chunks
    ensures Follows(m, u, e.live, id) && u.r == m.r
  {
    hide Inv, CountInv, DInv, Follows, OutageOk, AllAvoid, AllWithin, Run, DRun, Enabled, Disciplined;
    PassParts(m, k, e, u);
    var s := AfterScan(m, e.live);
    StepKeeps(m, ByHeal(Scan(e.live)));
    StepCounts(m, ByHeal(Scan(e.live)));
    ScanFollows(m, e.live, id);
    RunFollows(m, s, e.run, e.live, id);
    RunKeepsR(s, e.run);
  }

  lemma LiveOutside(db: Db, id: ChunkId, live: set<Address>, gone: set<Address>)
    requires live !! gone && Replicas(db, id) <= live + gone
    ensures Replicas(db, id) - gone == LiveReplicas(db, id, live)
  {}

  lemma HoldersThen(m: State, k: Ledger, e: Episode, id: ChunkId)
    requires e.Outage? && OutageOk(m, k, e) && CommittedChunk(m.db, id)
    ensures Replicas(m.db, id) <= e.live + (k.gone + e.fail) && e.live !! k.gone + e.fail
  {
    forall a | a in Replicas(m.db, id) ensures a in e.live + k.gone + e.fail { assert (id, a) in m.db.replicas; }
  }

  lemma GoodPassRestores(m: State, k: Ledger, e: Episode, u: State, id: ChunkId)
    requires Good(m) && Passes(m, k, e, u) && id in m.db.chunks && id in u.db.chunks
    ensures EnoughBeside(u.db, m.r, k.gone + e.fail, id) <==> !LeftShort(m, k, e, u, id)
  {
    hide Good, Leads, AllAvoid, AllWithin, Replicas, LiveReplicas, OutageOk, CommittedChunk, Enabled, Disciplined;
    hide Apply;
    PassSoFar(m, k, e, u, id);
    if CommittedChunk(m.db, id) {
      HoldersThen(m, k, e, id);
      assert Replicas(u.db, id) <= Replicas(m.db, id) + e.live;
      LiveOutside(u.db, id, e.live, k.gone + e.fail);
    }
  }

  /** Nothing is under way, and each chunk the pass selected that is still there and has a live copy has
      all that the live servers can hold. */
  ghost predicate PassFull(u: State, live: set<Address>) {
    && u.healer.Pass? && u.healer.phase.Ready?
    && forall id :: id in u.healer.view && id in u.db.chunks && LiveReplicas(u.db, id, live) != {} ==>
         Settled(u.db, u.r, live, id, {})
  }

  lemma LiveSource(m: State, k: Ledger, e: Episode, id: ChunkId)
    requires Surviving(m.r, m.db, m.healer, k) && e.Outage? && OutageOk(m, k, e) && |e.fail| < m.r
    requires id in m.db.chunks && CommittedChunk(m.db, id) && id !in k.exposed
    ensures LiveReplicas(m.db, id, e.live) != {}
  {
    if LiveReplicas(m.db, id, e.live) == {} {
      forall a | a in Replicas(m.db, id) - k.gone ensures a in e.fail {
        assert (id, a) in m.db.replicas;
      }
      SubsetSize(Replicas(m.db, id) - k.gone, e.fail);
    }
  }

  lemma SettledCount(e: Db, r: int, live: set<Address>, id: ChunkId)
    requires Settled(e, r, live, id, {}) && |live| >= r
    ensures |LiveReplicas(e, id, live)| >= r
  {
    if forall a :: a in live ==> a in Replicas(e, id) {
      assert LiveReplicas(e, id, live) == live;
    }
  }

  lemma LiveKept(m: State, u: State, live: set<Address>, id: ChunkId)
    requires LiveReplicas(m.db, id, live) <= Replicas(u.db, id)
    ensures LiveReplicas(m.db, id, live) <= LiveReplicas(u.db, id, live)
    ensures |LiveReplicas(m.db, id, live)| <= |LiveReplicas(u.db, id, live)|
  {
    SubsetSize(LiveReplicas(m.db, id, live), LiveReplicas(u.db, id, live));
  }

  lemma GoodFullPass(m: State, k: Ledger, e: Episode, u: State, id: ChunkId)
    requires Good(m) && Robust(m, k) && Passes(m, k, e, u) && PassFull(u, e.live) && |e.fail| < m.r
    requires id in m.db.chunks && id in u.db.chunks
    ensures CommittedChunk(m.db, id) ==>
      (LeftShort(m, k, e, u, id) <==> id in k.exposed && LiveReplicas(m.db, id, e.live) == {})
    ensures !CommittedChunk(m.db, id) ==>
      (LeftShort(m, k, e, u, id) <==> !EnoughBeside(m.db, m.r, k.gone + e.fail, id))
  {
    hide Good, Leads, AllAvoid, AllWithin, Replicas, LiveReplicas, Settled, CommittedChunk, Enabled, Disciplined, Apply;
    if CommittedChunk(m.db, id) {
      PassSoFar(m, k, e, u, id);
      if LiveReplicas(m.db, id, e.live) == {} {
        if id !in k.exposed { LiveSource(m, k, e, id); }
        SameLive(m, u, e.live, id);
      } else {
        LiveKept(m, u, e.live, id);
        if id in u.healer.view { SettledCount(u.db, u.r, e.live, id); }
      }
    }
  }

  lemma SameLive(m: State, u: State, live: set<Address>, id: ChunkId)
    requires Replicas(u.db, id) == Replicas(m.db, id)
    ensures LiveReplicas(u.db, id, live) == LiveReplicas(m.db, id, live)
  {}

  /** A chunk created during the pass has R replicas beside the lost servers. */
  lemma NewInPass(m: State, k: Ledger, e: Episode, u: State)
    requires Good(m) && Passes(m, k, e, u)
    ensures Good(u) && u.r == m.r
    ensures forall id :: id in u.db.chunks && id !in m.db.chunks ==> EnoughBeside(u.db, m.r, k.gone + e.fail, id)
  {
    hide Good, AllWithin, Run, DRun, Enabled, Disciplined, Replicas, LeftShort, Apply;
    PassParts(m, k, e, u);
    var s, l := AfterScan(m, e.live), Ledger(k.gone + e.fail, m.db.chunks.Keys);
    ScanGood(m, e.live);
    SameAvoid(e.run, LostThen(k, e), l);
    RunEnough(s, e.run, l);
    RunKeepsR(s, e.run);
  }

  lemma ScanGood(m: State, live: set<Address>)
    requires Good(m) && Enabled(m, ByHeal(Scan(live)))
    ensures Good(AfterScan(m, live))
  {
    hide Good;
    GoodStep(m, ByHeal(Scan(live)));
  }

  lemma SameAvoid(es: seq<Event>, k: Ledger, l: Ledger)
    requires AllAvoid(es, k) && l.gone == k.gone
    ensures AllAvoid(es, l)
  {
    forall i | 0 <= i < |es| ensures Avoids(es[i], l) { assert Avoids(es[i], k); }
  }

  /** The step that ends a pass leaves the tables alone. */
  lemma EndKeepsTables(u: State, e: Event)
    requires Enabled(u, e) && u.healer.Pass? && Apply(u, e).healer.Idle?
    ensures Apply(u, e).db == u.db && Apply(u, e).r == u.r
  {
    hide ClientApply, DiskApply, DeleteApply, ReadApply, ClientEnabled, DiskEnabled, DeleteEnabled, ReadEnabled;
    match e
    case ByClient(c) => ClientHealer(u, c);
    case ByDisk(v) => DiskStepMoves(u, v);
    case ByDelete(d) => DeleteFrame(u, d);
    case ByHeal(h) => HealEndKeeps(u, h);
    case ByRead(q) => ReadFrame(u, q);
    case NamingCrash =>
  }

  lemma HealEndKeeps(u: State, h: HealStep)
    requires HealEnabled(u, h) && HealApply(u, h).healer.Idle?
    ensures HealApply(u, h).db == u.db && HealApply(u, h).r == u.r
  {
    hide AddReplica, AfterAdd, RemoveReplica;
    if h.Add? {
      if AddReplica(u.db, u.healer.phase.id, u.healer.phase.target).Some? { AddHealer(u); } else { RefusedAddEnds(u); }
    } else if h.EndPass? {
    } else {
      OtherHealGoesOn(u, h);
    }
  }

  lemma OtherHealGoesOn(u: State, h: HealStep)
    requires HealEnabled(u, h) && !h.Add? && !h.EndPass?
    ensures HealApply(u, h).healer.Pass?
  {
    hide RemoveReplica;
    match h
    case Scan(live) =>
    case SendCopy(id, source, target) =>
    case CopyFailed =>
    case Remove(stale) =>
  }

  function PassRun(e: Episode): seq<Event>
    requires e.Outage?
  {
    [ByHeal(Scan(e.live))] + e.run + [e.fin]
  }

  /** After the outage and its pass, with whatever ran beside it, every chunk that is not left short has R
      replicas beside the lost servers. */
  lemma OutageKeeps(m: State, k: Ledger, e: Episode, u: State)
    requires Good(m) && Passes(m, k, e, u)
    ensures Leads(m, PassRun(e), Apply(u, e.fin)) && Apply(u, e.fin).r == m.r
    ensures Good(Apply(u, e.fin)) && Robust(Apply(u, e.fin), AfterOutage(m, k, e, u))
    ensures AfterOutage(m, k, e, u).gone == k.gone + e.fail
    ensures forall id :: id in u.db.chunks ==>
      (id in AfterOutage(m, k, e, u).exposed <==> !EnoughBeside(u.db, m.r, k.gone + e.fail, id))
  {
    hide Good, Leads, Robust, LeftShort, EnoughBeside, OutageOk, AllWithin, AllAvoid, Enabled, Disciplined, Apply;
    NewInPass(m, k, e, u);
    LeadsOne(u, e.fin);
    LeadsThen(m, [ByHeal(Scan(e.live))] + e.run, u, [e.fin], Apply(u, e.fin));
    GoodStep(u, e.fin);
    EndKeepsTables(u, e.fin);
    var t := Apply(u, e.fin);
    forall id | id in t.db.chunks
      ensures id in AfterOutage(m, k, e, u).exposed <==> !EnoughBeside(t.db, t.r, k.gone + e.fail, id)
    {
      if id in m.db.chunks { GoodPassRestores(m, k, e, u, id); }
    }
    IdleRobust(t, AfterOutage(m, k, e, u));
  }

  lemma IdleRobust(t: State, l: Ledger)
    requires t.healer.Idle?
    requires forall id :: id in t.db.chunks && id !in l.exposed ==> EnoughBeside(t.db, t.r, l.gone, id)
    ensures Robust(t, l)
  {}

  lemma ComebackKeeps(s: State, k: Ledger, back: set<Address>)
    requires Robust(s, k)
    ensures Robust(s, AfterComeback(s, k, back))
    ensures AfterComeback(s, k, back).gone == k.gone - back
    ensures forall id :: id in AfterComeback(s, k, back).exposed ==>
      id in k.exposed && |Replicas(s.db, id) - (k.gone - back)| < s.r + Surplus(s.healer, id)
  {
    var l := AfterComeback(s, k, back);
    forall id | id in s.db.chunks && id !in l.exposed
      ensures |Replicas(s.db, id) - l.gone| >= s.r + Surplus(s.healer, id)
    {
      SubsetSize(Replicas(s.db, id) - k.gone, Replicas(s.db, id) - l.gone);
    }
  }

  // ---- whole histories ----

  lemma EpisodeKeeps(s: State, k: Ledger, e: Episode, t: State, l: Ledger) returns (es: seq<Event>)
    requires Good(s) && Robust(s, k) && Happens(s, k, e, t, l)
    ensures Good(t) && Robust(t, l) && t.r == s.r && Leads(s, es, t)
  {
    hide Good, Robust, Run, DRun, AllAvoid, PassRun, AfterOutage, AfterComeback, Enabled, Disciplined, Apply;
    hide AllWithin, OutageOk;
    match e
    case Operation(run) =>
      RunEnough(s, run, k);
      RunKeepsR(s, run);
      es := run;
    case Comeback(back) =>
      ComebackKeeps(s, k, back);
      es := [];
      NoEvents(s);
    case Outage(_, _, _, fin) =>
      var u :| Passes(s, k, e, u) && t == Apply(u, fin) && l == AfterOutage(s, k, e, u);
      OutageKeeps(s, k, e, u);
      es := PassRun(e);
  }

  lemma {:induction false} HistoryKeeps(s: State, k: Ledger, episodes: seq<Episode>, t: State, l: Ledger)
    returns (es: seq<Event>)
    requires Good(s) && Robust(s, k) && History(s, k, episodes, t, l)
    ensures Good(t) && Robust(t, l) && t.r == s.r && Leads(s, es, t)
    decreases |episodes|
  {
    hide Good, Robust, Leads, Happens;
    if episodes == [] {
      NoEvents(s);
      es := [];
    } else {
      var u, j :| Happens(s, k, episodes[0], u, j) && History(u, j, episodes[1..], t, l);
      var first := EpisodeKeeps(s, k, episodes[0], u, j);
      var rest := HistoryKeeps(u, j, episodes[1..], t, l);
      LeadsThen(s, first, u, rest, t);
      es := first + rest;
    }
  }

  lemma {:induction false} HistoryThen(s: State, k: Ledger, episodes: seq<Episode>, t: State, l: Ledger,
      e: Episode, u: State, j: Ledger)
    requires History(s, k, episodes, t, l) && Happens(t, l, e, u, j)
    ensures History(s, k, episodes + [e], u, j)
    decreases |episodes|
  {
    hide Happens;
    if episodes == [] {
      assert ([e])[1..] == [];
      assert History(u, j, [], u, j);
      assert [] + [e] == [e];
    } else {
      var v, i :| Happens(s, k, episodes[0], v, i) && History(v, i, episodes[1..], t, l);
      HistoryThen(v, i, episodes[1..], t, l, e, u, j);
      assert (episodes + [e])[1..] == episodes[1..] + [e];
    }
  }

  lemma InitR(r: int)
    ensures Init(r).r == r
  {}

  /** Every history is a disciplined run, after which each chunk that is not exposed has R replicas beside
      the servers lost. */
  lemma EnduredRobust(r: int, t: State, l: Ledger) returns (es: seq<Event>)
    requires Endured(r, t, l)
    ensures Reached(r, es, t)
    ensures forall id :: id in t.db.chunks && id !in l.exposed ==> EnoughBeside(t.db, r, l.gone, id)
  {
    hide Good, Robust, Leads, History, Init, Run, DRun;
    es := EnduredRun(r, t, l);
    RobustCount(t, l);
  }

  lemma RobustCount(t: State, l: Ledger)
    requires Robust(t, l)
    ensures forall id :: id in t.db.chunks && id !in l.exposed ==> EnoughBeside(t.db, t.r, l.gone, id)
  {}

  lemma EnduredRun(r: int, t: State, l: Ledger) returns (es: seq<Event>)
    requires Endured(r, t, l)
    ensures Reached(r, es, t) && Good(t) && Robust(t, l) && t.r == r
  {
    hide Good, Robust, Leads, History, Init, Run, DRun;
    InitGood(r);
    InitR(r);
    RobustAtFirst(r);
    var episodes :| History(Init(r), NONE_LOST, episodes, t, l);
    es := HistoryKeeps(Init(r), NONE_LOST, episodes, t, l);
  }

  /** However far the pass comes and however it ends: the chunks with R replicas beside all lost servers
      are exactly those it does not leave short. */
  lemma PassRestoresExactly(r: int, m: State, k: Ledger, e: Episode, u: State, id: ChunkId)
    requires Endured(r, m, k) && Passes(m, k, e, u) && id in m.db.chunks && id in u.db.chunks
    ensures EnoughBeside(u.db, r, k.gone + e.fail, id) <==> !LeftShort(m, k, e, u, id)
  {
    hide Endured, Good, Robust, Passes, EnoughBeside, LeftShort;
    var _ := EnduredRun(r, m, k);
    GoodPassRestores(m, k, e, u, id);
  }

  /** After an outage of up to R-1 servers a full pass leaves short exactly the exposed committed chunks
      without any live copy to heal from, and the pending ones that were short before. */
  lemma FullPassExactly(r: int, m: State, k: Ledger, e: Episode, u: State, id: ChunkId)
    requires Endured(r, m, k) && Passes(m, k, e, u) && PassFull(u, e.live) && |e.fail| < r
    requires id in m.db.chunks && id in u.db.chunks
    ensures CommittedChunk(m.db, id) ==>
      (LeftShort(m, k, e, u, id) <==> id in k.exposed && LiveReplicas(m.db, id, e.live) == {})
    ensures !CommittedChunk(m.db, id) ==>
      (LeftShort(m, k, e, u, id) <==> !EnoughBeside(m.db, r, k.gone + e.fail, id))
  {
    hide Endured, Good, Robust, Passes, PassFull, EnoughBeside, LeftShort, CommittedChunk, LiveReplicas;
    var _ := EnduredRun(r, m, k);
    PassEndEnabled(m, k, e, u);
    GoodFullPass(m, k, e, u, id);
  }

  /** For any number of alternations: servers fail, a pass heals, some come back, others fail. At any moment
      yet another R-1 servers may be down beside those lost, and every committed file none of whose chunks is
      exposed reads back byte for byte. */
  lemma Alternation(r: int, t: State, l: Ledger, fn: Filename, ps: seq<Placement>)
    requires Endured(r, t, l) && r > 0 && fn in Visible(t) && PlacementsOf(t.db, fn, ps)
    requires ChunksOf(t.db, fn) !! l.exposed
    ensures Tolerant(t, l.gone, fn, ps)
  {
    hide Endured, Visible, PlacementsOf, Reached, Tolerant, EnoughBeside;
    var es := EnduredRobust(r, t, l);
    TolerantExactly(r, es, t, l.gone, fn, ps);
  }

  /** The pass that does nothing but repairs is one. */
  lemma PlainPass(m: State, k: Ledger, fail: set<Address>, live: set<Address>, xs: seq<Repair>)
    returns (e: Episode, u: State)
    requires Good(m) && OutageOk(m, k, Outage(fail, live, [], ByHeal(EndPass)))
    requires ValidTrace(m.db, m.r, live, xs) && PassDone(m.db, ApplyTrace(m.db, xs), m.r, live, {})
    ensures e.Outage? && e.fail == fail && e.live == live && Passes(m, k, e, u) && PassFull(u, live)
    ensures u.db == ApplyTrace(m.db, xs) && OnlyHealed(m, Apply(u, e.fin)) && Apply(u, e.fin).db == u.db
  {
    hide Good, Leads, ValidTrace, ApplyTrace, PassDone, LostThen, AllAvoid, AllWithin;
    e := Outage(fail, live, TraceEvents(m.content, xs), ByHeal(EndPass));
    u := GoodPassWorks(m, live, xs);
    TraceEventsPlain(m.content, xs, LostThen(k, e));
    DonePassFull(m, u, live, xs);
  }

  lemma RepairEventsPlain(content: ContentMap, x: Repair, k: Ledger)
    ensures AllWithin(RepairEvents(content, x)) && AllAvoid(RepairEvents(content, x), k)
  {
    forall i | 0 <= i < |RepairEvents(content, x)|
      ensures Within(RepairEvents(content, x)[i]) && Avoids(RepairEvents(content, x)[i], k)
    {}
  }

  lemma PlainThen(es: seq<Event>, fs: seq<Event>, k: Ledger)
    requires AllWithin(es) && AllAvoid(es, k) && AllWithin(fs) && AllAvoid(fs, k)
    ensures AllWithin(es + fs) && AllAvoid(es + fs, k)
  {
    hide Within, Avoids;
  }

  lemma {:induction false} TraceEventsPlain(content: ContentMap, xs: seq<Repair>, k: Ledger)
    ensures AllWithin(TraceEvents(content, xs)) && AllAvoid(TraceEvents(content, xs), k)
  {
    hide Within, Avoids, RepairEvents;
    if xs != [] {
      RepairEventsPlain(content, xs[0], k);
      TraceEventsPlain(content, xs[1..], k);
      PlainThen(RepairEvents(content, xs[0]), TraceEvents(content, xs[1..]), k);
    }
  }

  lemma DonePassFull(m: State, u: State, live: set<Address>, xs: seq<Repair>)
    requires Good(u) && InPass(u, live) && OnlyHealed(m, u) && u.db == ApplyTrace(m.db, xs)
    requires ValidTrace(m.db, m.r, live, xs) && PassDone(m.db, u.db, m.r, live, {})
    ensures PassFull(u, live)
  {
    hide Inv, DInv, ValidTrace, ApplyTrace, Replicas, LiveReplicas, Settled;
    forall id | id in u.healer.view && id in u.db.chunks && LiveReplicas(u.db, id, live) != {}
      ensures Settled(u.db, u.r, live, id, {})
    {
      TraceBounds(m.db, m.r, live, xs, id);
    }
  }

  lemma PassEndEnabled(m: State, k: Ledger, e: Episode, u: State)
    requires Passes(m, k, e, u)
    ensures e.Outage? && Enabled(u, e.fin)
  {}

  /** Every history can go on with any outage the placement rules can meet: the pass that heals it exists,
      and one that touches committed chunks only. */
  lemma OutageExists(r: int, m: State, k: Ledger, fail: set<Address>, live: set<Address>)
    returns (e: Episode, u: State, t: State)
    requires Endured(r, m, k)
    requires m.healer.Idle? && r <= |live| && live !! k.gone + fail
    requires forall p :: p in m.db.replicas && CommittedChunk(m.db, p.0) ==> p.1 in live + k.gone + fail
    ensures e.Outage? && e.fail == fail && e.live == live && Passes(m, k, e, u) && PassFull(u, live)
    ensures t == Apply(u, e.fin) && Endured(r, t, AfterOutage(m, k, e, u))
    ensures OnlyHealed(m, t) && forall id :: !CommittedChunk(m.db, id) ==> Replicas(t.db, id) == Replicas(m.db, id)
  {
    hide Endured, ValidTrace, ApplyTrace, PassDone, Replicas, Good, Robust, Leads, AfterOutage, CommittedChunk, Passes;
    hide PassFull, Apply;
    var _ := EnduredRun(r, m, k);
    var xs := PassExists(m.db, r, live);
    e, u := PlainPass(m, k, fail, live, xs);
    PassEndEnabled(m, k, e, u);
    t := Apply(u, e.fin);
    assert Happens(m, k, e, t, AfterOutage(m, k, e, u));
    EnduredThen(r, m, k, e, t, AfterOutage(m, k, e, u));
    forall id | !CommittedChunk(m.db, id) ensures Replicas(t.db, id) == Replicas(m.db, id) {
      PendingUntouched(m.db, r, live, xs, id);
    }
  }

  lemma {:induction false} PendingUntouched(db: Db, r: int, live: set<Address>, xs: seq<Repair>, id: ChunkId)
    requires ValidTrace(db, r, live, xs) && !CommittedChunk(db, id)
    ensures Replicas(ApplyTrace(db, xs), id) == Replicas(db, id)
    decreases |xs|
  {
    hide Replicas;
    if xs != [] {
      RepairSets(db, r, live, xs[0]);
      RepairOne(db, r, live, xs[0], id);
      PendingUntouched(ApplyRepair(db, xs[0]), r, live, xs[1..], id);
    }
  }

  lemma EnduredThen(r: int, s: State, k: Ledger, e: Episode, t: State, l: Ledger)
    requires Endured(r, s, k) && Happens(s, k, e, t, l)
    ensures Endured(r, t, l)
  {
    hide Happens, History, Init;
    var episodes :| History(Init(r), NONE_LOST, episodes, s, k);
    HistoryThen(Init(r), NONE_LOST, episodes, s, k, e, t, l);
  }

  // ---- a write in flight during the pass ----

  /** Create and upload, up to the acknowledgement of every copy. */
  lemma UploadRuns(s: State, fn: Filename, data: Bytes, ids: seq<ChunkId>, locs: seq<seq<Address>>, now: real)
    returns (es: seq<Event>, m: State)
    requires Good(s) && CreateOk(s, data, ids, locs) && ClientDisciplined(s, CreateFile(fn, data, ids, locs, now))
    ensures Leads(s, es, m) && Good(m) && AllStored(m, |s.sessions|, fn, data)
    ensures m.db == CreatePending(s.db, fn, |data|, |ids|, Layout(ids, locs), now) && m.r == s.r && m.healer == s.healer
    ensures Visible(m) == Visible(s) - {fn}
  {
    hide Visible;
    hide Good, Run, DRun, CreatePending, CreateOk, OpenSession, ClientDisciplined, Layout, Enabled, Disciplined, Apply;
    hide AfterCreate;
    var e0 := ByClient(CreateFile(fn, data, ids, locs, now));
    CreateStep(s, fn, data, ids, locs, now);
    LeadsOne(s, e0);
    var s1 := Apply(s, e0);
    LeadsGood(s, [e0], s1);
    StepRefines(s, e0);
    NewSessionOpen(s, fn, data, ids, locs, now);
    SessionFacts(s1, |s.sessions|);
    var es1;
    es1, m := StoreAll(s1, |s.sessions|, s1.sessions[|s.sessions|].plan);
    SameVisible(s1, m);
    LeadsThen(s, [e0], s1, es1, m);
    es := [e0] + es1;
    LeadsGood(s, es, m);
    StoredSession(s1, m, |s.sessions|, fn, data);
    RunKeepsR(s, es);
  }

  ghost predicate AllStored(m: State, w: int, fn: Filename, data: Bytes) {
    && OpenSession(m, w) && m.sessions[w].filename == fn && m.sessions[w].data == data && fn in m.db.files
    && forall p :: p in m.sessions[w].plan ==> Stored(p.1, p.0) in m.msgs
  }

  lemma StoredSession(s: State, m: State, w: int, fn: Filename, data: Bytes)
    requires OpenSession(s, w) && s.sessions[w].filename == fn && s.sessions[w].data == data && fn in s.db.files
    requires OnlyStored(s, m) && forall p :: p in s.sessions[w].plan ==> Stored(p.1, p.0) in m.msgs
    ensures AllStored(m, w, fn, data)
  {}

  lemma CommitAfterPass(m: State, u: State, w: int, fn: Filename, data: Bytes) returns (t: State)
    requires Good(u) && AllStored(m, w, fn, data) && OnlyHealed(m, u)
    ensures Leads(u, [ByClient(Commit(w))], t) && t.db == Tables.CommitFile(u.db, fn)
    ensures Visible(t) == Visible(u)[fn := data]
  {
    hide Good, Leads, Visible;
    var e := ByClient(Commit(w));
    CommitStep(u, w);
    LeadsOne(u, e);
    t := Apply(u, e);
    StepRefines(u, e);
  }

  lemma UploadRows(db: Db, fn: Filename, size: int, ids: seq<ChunkId>, locs: seq<seq<Address>>, now: real, i: nat)
    requires |ids| == |locs| && Distinct(ids) && i < |ids| && ForeignKeys(db)
    requires forall x :: x in ids ==> x !in db.chunks
    ensures var e := CreatePending(db, fn, size, |ids|, Layout(ids, locs), now);
      && Replicas(e, ids[i]) == Elems(locs[i]) && !CommittedChunk(e, ids[i])
      && ids[i] in e.chunks && e.chunks[ids[i]].filename == fn
  {
    hide Replicas, CreatePending, CommittedChunk, ForeignKeys;
    var chunks := Layout(ids, locs);
    assert chunks[i] in chunks && chunks[i] == ChunkMeta(ids[i], i, locs[i]);
    LayoutIds(ids, locs);
    assert ids[i] in ids;
    FreshReplicas(db, fn, size, |ids|, chunks, now, chunks[i]);
    CreateStatus(db, fn, size, |ids|, chunks, now, ids[i]);
    CreateRows(db, fn, size, ids, locs, now);
  }

  /** The holders of committed chunks after the upload are those before it. */
  lemma UploadHolders(db: Db, fn: Filename, size: int, ids: seq<ChunkId>, locs: seq<seq<Address>>, now: real,
      up: set<Address>)
    requires |ids| == |locs| && Distinct(ids) && ForeignKeys(db) && forall x :: x in ids ==> x !in db.chunks
    requires forall p :: p in db.replicas && CommittedChunk(db, p.0) ==> p.1 in up
    ensures var e := CreatePending(db, fn, size, |ids|, Layout(ids, locs), now);
      forall p :: p in e.replicas && CommittedChunk(e, p.0) ==> p.1 in up
  {
    hide CreatePending, CommittedChunk;
    LayoutIds(ids, locs);
    CreateRowsFrom(db, fn, size, |ids|, Layout(ids, locs), now);
  }

  lemma FreshForUpload(s: State, data: Bytes, ids: seq<ChunkId>, locs: seq<seq<Address>>, i: nat)
    requires Good(s) && CreateOk(s, data, ids, locs) && i < |ids|
    ensures |ids| == |locs| && Distinct(ids) && ForeignKeys(s.db) && forall x :: x in ids ==> x !in s.db.chunks
    ensures |Elems(locs[i])| == s.r
  {
    hide CountInv, DInv, SplitChunks;
    FreshIds(s, data, ids, locs);
    ElemsDistinct(locs[i]);
  }

  lemma StillThere(db: Db, fn: Filename, id: ChunkId)
    requires id in db.chunks && db.chunks[id].filename == fn
    ensures var e := Tables.CommitFile(db, fn); id in ChunksOf(e, fn) && Replicas(e, id) == Replicas(db, id)
  {}

  lemma NothingToAvoid(es: seq<Event>)
    ensures AllAvoid(es, NONE_LOST)
  {}

  lemma CommitAvoids(w: int, k: Ledger)
    ensures AllAvoid([ByClient(Commit(w))], k)
  {}

  lemma ReachedEndured(r: int, es: seq<Event>, s: State)
    requires Reached(r, es, s)
    ensures Endured(r, s, NONE_LOST)
  {
    hide Run, DRun, AllAvoid, Init, NONE_LOST;
    NothingToAvoid(es);
    assert Happens(Init(r), NONE_LOST, Operation(es), s, NONE_LOST);
    assert History(Init(r), NONE_LOST, [], Init(r), NONE_LOST);
    HistoryThen(Init(r), NONE_LOST, [], Init(r), NONE_LOST, Operation(es), s, NONE_LOST);
  }

  /** Chunk `id` of the upload in flight in `m` is at `holders`, acknowledged by all of them. */
  ghost predicate InFlight(m: State, w: int, fn: Filename, data: Bytes, id: ChunkId, holders: set<Address>) {
    && AllStored(m, w, fn, data) && Replicas(m.db, id) == holders && !CommittedChunk(m.db, id)
    && id in m.db.chunks && m.db.chunks[id].filename == fn
  }

  ghost predicate HoldersIn(db: Db, up: set<Address>) {
    forall p :: p in db.replicas && CommittedChunk(db, p.0) ==> p.1 in up
  }

  lemma UploadInFlight(r: int, run: seq<Event>, s: State, fn: Filename, data: Bytes, ids: seq<ChunkId>,
                       locs: seq<seq<Address>>, now: real, i: nat, up: set<Address>) returns (m: State)
    requires Reached(r, run, s) && CreateOk(s, data, ids, locs) && i < |ids|
    requires ClientDisciplined(s, CreateFile(fn, data, ids, locs, now)) && HoldersIn(s.db, up)
    ensures Endured(r, m, NONE_LOST) && m.healer == s.healer && m.r == r && |Elems(locs[i])| == r
    ensures InFlight(m, |s.sessions|, fn, data, ids[i], Elems(locs[i])) && HoldersIn(m.db, up)
    ensures Visible(m) == Visible(s) - {fn}
  {
    hide Reached, Endured, Good, Leads, CreateOk, ClientDisciplined, CreatePending, AllStored, Replicas;
    hide CommittedChunk, Visible;
    ReachedGood(r, run, s);
    ReachedEndured(r, run, s);
    FreshForUpload(s, data, ids, locs, i);
    var es;
    es, m := UploadRuns(s, fn, data, ids, locs, now);
    UploadRows(s.db, fn, |data|, ids, locs, now, i);
    UploadHolders(s.db, fn, |data|, ids, locs, now, up);
    NothingToAvoid(es);
    Operates(r, s, NONE_LOST, es, m);
  }

  lemma SkippedByPass(m: State, e: Episode, v: State, u: State, id: ChunkId)
    requires e.Outage? && OnlyHealed(m, u) && id in m.db.chunks && !CommittedChunk(m.db, id)
    requires |Replicas(m.db, id) - e.fail| < m.r
    ensures id in AfterOutage(m, NONE_LOST, e, v).exposed && u.db.chunks == m.db.chunks && Visible(u) == Visible(m)
  {
    hide Replicas, Visible;
    SameVisible(m, u);
    assert NONE_LOST.gone + e.fail == e.fail;
  }

  /** The pass leaves the upload alone and exposes the chunk; the commit then makes it readable. */
  lemma ExposedCommit(r: int, m: State, w: int, fn: Filename, data: Bytes, id: ChunkId, holders: set<Address>,
                      a: Address, live: set<Address>) returns (t: State, l: Ledger)
    requires Endured(r, m, NONE_LOST) && m.healer.Idle? && m.r == r && 1 < r <= |live| && a !in live
    requires InFlight(m, w, fn, data, id, holders) && a in holders && |holders| == r && HoldersIn(m.db, live + {a})
    ensures Endured(r, t, l) && l.gone == {a} && id in l.exposed
    ensures Visible(t) == Visible(m)[fn := data] && id in ChunksOf(t.db, fn) && Replicas(t.db, id) == holders
  {
    hide Endured, Good, Robust, Leads, Visible, AllStored, Replicas, Happens, CommittedChunk, Tables.CommitFile;
    hide OnlyHealed, LeftShort, ChunksOf;
    var es0 := EnduredRun(r, m, NONE_LOST);
    var e, v, u := OutageExists(r, m, NONE_LOST, {a}, live);
    l := AfterOutage(m, NONE_LOST, e, v);
    OneShort(holders, a);
    assert NONE_LOST.gone + {a} == {a};
    SkippedByPass(m, e, v, u, id);
    var es1 := EnduredRun(r, u, l);
    t := CommitAfterPass(m, u, w, fn, data);
    CommitAvoids(w, l);
    Operates(r, u, l, [ByClient(Commit(w))], t);
    StillThere(u.db, fn, id);
  }

  /** A server fails after it acknowledged its copies of an upload; the pass does not look at the pending
      file; the file commits. Then the chunk has only R-1 replicas beside the failed server, and the loss
      of those makes the file unreadable, although at most R-1 servers fail before the pass and at most
      R-1 after it. */
  lemma PendingThroughPass(r: int, run: seq<Event>, s: State, fn: Filename, data: Bytes, ids: seq<ChunkId>,
                           locs: seq<seq<Address>>, now: real, i: nat, a: Address, live: set<Address>)
    returns (t: State, l: Ledger)
    requires Reached(r, run, s) && s.healer.Idle? && CreateOk(s, data, ids, locs)
    requires ClientDisciplined(s, CreateFile(fn, data, ids, locs, now))
    requires i < |ids| && a in locs[i] && a !in live && 1 < r <= |live| && HoldersIn(s.db, live + {a})
    ensures Endured(r, t, l) && l.gone == {a} && ids[i] in l.exposed && Visible(t) == Visible(s)[fn := data]
    ensures forall ps :: PlacementsOf(t.db, fn, ps) ==> !Tolerant(t, {a}, fn, ps)
  {
    hide Reached, Endured, Good, CreateOk, ClientDisciplined, Visible, InFlight, Tolerant, PlacementsOf, HoldersIn;
    hide Replicas;
    ReachedGood(r, run, s);
    FreshForUpload(s, data, ids, locs, i);
    var m := UploadInFlight(r, run, s, fn, data, ids, locs, now, i, live + {a});
    t, l := ExposedCommit(r, m, |s.sessions|, fn, data, ids[i], Elems(locs[i]), a, live);
    var es := EnduredRun(r, t, l);
    OneShort(Elems(locs[i]), a);
    forall ps | PlacementsOf(t.db, fn, ps) ensures !Tolerant(t, {a}, fn, ps) {
      NotTolerant(t, {a}, fn, ps, ids[i]);
    }
    assert (Visible(s) - {fn})[fn := data] == Visible(s)[fn := data];
  }

  lemma OneShort(holders: set<Address>, a: Address)
    requires a in holders
    ensures |holders - {a}| == |holders| - 1
  {}

  lemma Operates(r: int, s: State, k: Ledger, es: seq<Event>, t: State)
    requires Endured(r, s, k) && Leads(s, es, t) && AllAvoid(es, k)
    ensures Endured(r, t, k)
  {
    hide Endured, AllAvoid, Run, DRun;
    EnduredThen(r, s, k, Operation(es), t, k);
  }
}
