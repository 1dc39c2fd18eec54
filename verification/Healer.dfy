/** `heal_once` of gfs/naming_server/server.py, run against the store. */
module Healer {
  import opened Base
  import opened Tables
  import opened Repairs
  import opened MetadataStore

  /** Whether the ReplicateChunk call for (chunk, target, source) succeeds. A pass makes each such
      call at most once, so the outcomes may be fixed in advance. */
  type Copies = (ChunkId, Address, Address) -> bool

  /** The list without later repetitions. */
  function Dedup(xs: seq<Address>): (ys: seq<Address>)
    ensures Distinct(ys) && Elems(ys) == Elems(xs)
  {
    if xs == [] then [] else
      var ys := Dedup(xs[1..]);
      assert Elems(xs) == {xs[0]} + Elems(xs[1..]);
      [xs[0]] + Filter(a => a != xs[0], ys)
  }

  /** The first of the locations that is live. */
  ghost predicate FirstLive(locations: seq<Address>, live: set<Address>, a: Address) {
    exists k :: 0 <= k < |locations| && locations[k] == a && a in live
      && forall j :: 0 <= j < k ==> locations[j] !in live
  }

  lemma FirstLiveLater(xs: seq<Address>, live: set<Address>, a: Address)
    requires xs != [] && xs[0] !in live && FirstLive(xs[1..], live, a)
    ensures FirstLive(xs, live, a)
  {
    var k :| 0 <= k < |xs[1..]| && xs[1..][k] == a && forall j :: 0 <= j < k ==> xs[1..][j] !in live;
    assert forall j :: 1 <= j < k + 1 ==> xs[j] == xs[1..][j - 1];
    assert xs[k + 1] == a;
  }

  lemma DedupSkip(xs: seq<Address>, live: seq<Address>)
    requires xs != [] && xs[0] !in live
    ensures Filter((a: Address) => a in live, Dedup(xs)) == Filter((a: Address) => a in live, Dedup(xs[1..]))
  {
    var p, q := (a: Address) => a in live, (a: Address) => a != xs[0];
    FilterTwice(p, q, Dedup(xs[1..]));
    assert Dedup(xs) == [xs[0]] + Filter(q, Dedup(xs[1..]));
  }

  /** The list without repetitions begins with the same live location. */
  lemma {:induction false} DedupFirstLive(xs: seq<Address>, live: seq<Address>)
    ensures var here := Filter((a: Address) => a in live, Dedup(xs));
      here != [] ==> FirstLive(xs, Elems(live), here[0])
  {
    var here := Filter((a: Address) => a in live, Dedup(xs));
    if xs != [] {
      if xs[0] in live {
        assert xs[0] in Elems(live);
      } else {
        hide FirstLive, Dedup;
        DedupFirstLive(xs[1..], live);
        DedupSkip(xs, live);
        if here != [] { FirstLiveLater(xs, Elems(live), here[0]); }
      }
    }
  }

  // ---- traces about one chunk, and in sequence ----

  ghost predicate AllOf(xs: seq<Repair>, id: ChunkId) {
    forall x :: x in xs ==> x.id == id
  }

  lemma {:induction false} TraceOthers(db: Db, r: int, live: set<Address>, xs: seq<Repair>, id: ChunkId, other: ChunkId)
    requires ValidTrace(db, r, live, xs) && AllOf(xs, id) && other != id
    ensures Replicas(ApplyTrace(db, xs), other) == Replicas(db, other)
    decreases |xs|
  {
    if xs != [] {
      assert xs[0].id == id;
      RepairSets(db, r, live, xs[0]);
      assert AllOf(xs[1..], id);
      TraceOthers(ApplyRepair(db, xs[0]), r, live, xs[1..], id, other);
    }
  }

  lemma {:induction false} ConcatTrace(db: Db, r: int, live: set<Address>, xs: seq<Repair>, ys: seq<Repair>)
    requires ValidTrace(db, r, live, xs) && ValidTrace(ApplyTrace(db, xs), r, live, ys)
    ensures ValidTrace(db, r, live, xs + ys) && ApplyTrace(db, xs + ys) == ApplyTrace(ApplyTrace(db, xs), ys)
    decreases |xs|
  {
    if xs == [] {
      assert xs + ys == ys;
    } else {
      assert (xs + ys)[1..] == xs[1..] + ys;
      ConcatTrace(ApplyRepair(db, xs[0]), r, live, xs[1..], ys);
    }
  }

  // ---- one chunk ----

  /** The lists the inner loop works on, against the tables. */
  ghost predicate KnownSplit(db: Db, id: ChunkId, live: set<Address>, here: seq<Address>, stale: seq<Address>) {
    && Distinct(here) && Distinct(stale)
    && Replicas(db, id) == Elems(here) + Elems(stale)
    && Elems(here) <= live && Elems(stale) !! live
  }

  /** Servers still to be asked, already refused, or holding the chunk: that is every live server. */
  ghost predicate Candidates(db: Db, id: ChunkId, live: set<Address>, candidates: seq<Address>, failed: set<Address>) {
    && Distinct(candidates) && Elems(candidates) <= live && Elems(candidates) !! Replicas(db, id)
    && forall a :: a in live ==> a in Replicas(db, id) || a in candidates || a in failed
  }

  lemma ListsStart(db: Db, c: ChunkMeta, live: seq<Address>)
    requires IsChunk(db, c) && Distinct(live)
    ensures var known := Dedup(c.locations);
      var here := Filter((a: Address) => a in live, known);
      var stale := Filter((a: Address) => a !in live, known);
      var candidates := Filter((a: Address) => a !in known, live);
      && KnownSplit(db, c.chunkId, Elems(live), here, stale)
      && Candidates(db, c.chunkId, Elems(live), candidates, {})
      && LiveReplicas(db, c.chunkId, Elems(live)) == Elems(here)
  {
    var known := Dedup(c.locations);
    assert Elems(known) == Replicas(db, c.chunkId);
    assert forall a :: a in known <==> a in Elems(known);
  }

  lemma ListsLive(db: Db, id: ChunkId, live: set<Address>, here: seq<Address>, stale: seq<Address>)
    requires KnownSplit(db, id, live, here, stale)
    ensures LiveReplicas(db, id, live) == Elems(here) && |LiveReplicas(db, id, live)| == |here|
    ensures stale == [] ==> Replicas(db, id) <= live
    ensures stale != [] ==> stale[0] in Replicas(db, id) - live
  {
    ElemsDistinct(here);
    if stale != [] { assert stale[0] in Elems(stale); }
  }

  function StepRepair(id: ChunkId, here: seq<Address>, stale: seq<Address>, candidates: seq<Address>): Repair
    requires here != [] && candidates != []
  {
    Repair(id, here[0], candidates[0], if stale == [] then None else Some(stale[0]))
  }

  lemma StepValid(db: Db, r: int, id: ChunkId, live: set<Address>, here: seq<Address>, stale: seq<Address>,
      candidates: seq<Address>, failed: set<Address>)
    requires CommittedChunk(db, id) && KnownSplit(db, id, live, here, stale)
    requires Candidates(db, id, live, candidates, failed)
    requires 0 < |here| < r && candidates != []
    ensures Valid(db, r, live, StepRepair(id, here, stale, candidates))
  {
    hide KnownSplit, CommittedChunk, Replicas, LiveReplicas;
    ListsLive(db, id, live, here, stale);
    assert here[0] in Elems(here) && candidates[0] in Elems(candidates);
  }

  /** `here` and `stale` against the replica set before and after the repair. */
  lemma StepLists(known: set<Address>, live: set<Address>, here: seq<Address>, stale: seq<Address>, target: Address)
    requires Distinct(here) && Distinct(stale) && known == Elems(here) + Elems(stale)
    requires Elems(here) <= live && Elems(stale) !! live && target in live && target !in known
    ensures var gone := if stale == [] then {} else {stale[0]};
            var rest := if stale == [] then [] else stale[1..];
      && Distinct(here + [target]) && Distinct(rest)
      && known + {target} - gone == Elems(here + [target]) + Elems(rest)
      && Elems(here + [target]) <= live && Elems(rest) !! live
  {
    assert Elems(here + [target]) == Elems(here) + {target};
    assert forall a :: a in here ==> a in Elems(here);
    if stale != [] {
      assert Elems(stale) == {stale[0]} + Elems(stale[1..]);
      assert stale[0] !in stale[1..];
    }
  }

  lemma StepCandidates(known: set<Address>, after: set<Address>, live: set<Address>, candidates: seq<Address>,
      failed: set<Address>)
    requires candidates != [] && Distinct(candidates) && Elems(candidates) <= live && Elems(candidates) !! known
    requires forall a :: a in live ==> a in known || a in candidates || a in failed
    requires after <= known + {candidates[0]} && candidates[0] in after && known * live <= after
    ensures var rest := candidates[1..];
      Distinct(rest) && Elems(rest) <= live && Elems(rest) !! after
          && forall a :: a in live ==> a in after || a in rest || a in failed
  {
    assert Elems(candidates) == {candidates[0]} + Elems(candidates[1..]);
    assert candidates[0] !in candidates[1..];
  }

  /** One recorded copy: `here` gains the target, `stale` loses its head. */
  lemma ListsStep(db: Db, r: int, id: ChunkId, live: set<Address>, here: seq<Address>, stale: seq<Address>,
      candidates: seq<Address>, failed: set<Address>)
    requires CommittedChunk(db, id) && KnownSplit(db, id, live, here, stale)
    requires Candidates(db, id, live, candidates, failed)
    requires 0 < |here| < r && candidates != []
    ensures var x := StepRepair(id, here, stale, candidates);
      && Valid(db, r, live, x)
      && KnownSplit(ApplyRepair(db, x), id, live, here + [candidates[0]], if stale == [] then [] else stale[1..])
      && Candidates(ApplyRepair(db, x), id, live, candidates[1..], failed)
      && CommittedChunk(ApplyRepair(db, x), id)
  {
    hide Valid, Replicas, LiveReplicas, ApplyRepair, Elems, Distinct;
    var x := StepRepair(id, here, stale, candidates);
    StepValid(db, r, id, live, here, stale, candidates, failed);
    RepairSets(db, r, live, x);
    FirstCandidate(db, id, live, candidates, failed);
    ListsLive(db, id, live, here, stale);
    StepLists(Replicas(db, id), live, here, stale, candidates[0]);
    StepCandidates(Replicas(db, id), Replicas(ApplyRepair(db, x), id), live, candidates, failed);
  }

  lemma FirstCandidate(db: Db, id: ChunkId, live: set<Address>, candidates: seq<Address>, failed: set<Address>)
    requires Candidates(db, id, live, candidates, failed) && candidates != []
    ensures candidates[0] in live && candidates[0] !in Replicas(db, id)
  {
    assert candidates[0] in Elems(candidates);
  }

  lemma AlreadySettled(db: Db, r: int, live: set<Address>, id: ChunkId, here: seq<Address>)
    requires Elems(here) == LiveReplicas(db, id, live) && Distinct(here) && (|here| >= r || here == [])
    ensures LiveReplicas(db, id, live) != {} ==> Settled(db, r, live, id, {})
  {
    ElemsDistinct(here);
  }

  lemma CandidateRefused(db: Db, id: ChunkId, live: set<Address>, candidates: seq<Address>, failed: set<Address>)
    requires Candidates(db, id, live, candidates, failed) && candidates != []
    ensures Candidates(db, id, live, candidates[1..], failed + {candidates[0]})
  {
    assert Elems(candidates) == {candidates[0]} + Elems(candidates[1..]);
  }

  lemma NowSettled(db: Db, r: int, id: ChunkId, live: set<Address>, here: seq<Address>, stale: seq<Address>,
      candidates: seq<Address>, failed: set<Address>)
    requires KnownSplit(db, id, live, here, stale) && Candidates(db, id, live, candidates, failed)
    requires |here| >= r || candidates == []
    ensures Settled(db, r, live, id, set a | a in failed :: (id, a))
  {
    ListsLive(db, id, live, here, stale);
  }

  /** `add_replica`, then `remove_replica` for the first stale location when there is one. When the chunk
      is gone the insert is refused, nothing is recorded and the pass ends. */
  method RecordCopy(store: Store, id: ChunkId, target: Address, stale: seq<Address>, ghost source: Address)
    returns (recorded: bool)
    modifies store
    ensures recorded <==> id in old(store.Contents()).chunks
    ensures !recorded ==> store.Contents() == old(store.Contents())
    ensures recorded ==>
      store.Contents() == ApplyRepair(old(store.Contents()),
          Repair(id, source, target, if stale == [] then None else Some(stale[0])))
  {
    var result := store.AddReplica(id, target);
    if result.Refused? {
      return false;
    }
    if stale != [] {
      var _ := store.RemoveReplica(id, stale[0]);
    }
    recorded := true;
  }

  /** What the inner loop has done so far (`trace`, `failed`) and the lists it works on. */
  ghost predicate ChunkLoop(db0: Db, db: Db, r: int, live: set<Address>, id: ChunkId, copies: Copies, source: Address,
                            here: seq<Address>, stale: seq<Address>, candidates: seq<Address>,
                            trace: seq<Repair>, failed: set<Address>) {
    && ValidTrace(db0, r, live, trace) && db == ApplyTrace(db0, trace) && AllOf(trace, id)
    && (forall x :: x in trace ==> x.source == source && copies(x.id, x.target, x.source))
    && (forall a :: a in failed ==> !copies(id, a, source))
    && CommittedChunk(db, id) && KnownSplit(db, id, live, here, stale) && Candidates(db, id, live, candidates, failed)
    && here != [] && here[0] == source
  }

  lemma ChunkCopied(db0: Db, db: Db, r: int, live: set<Address>, id: ChunkId, copies: Copies, source: Address,
                    here: seq<Address>, stale: seq<Address>, candidates: seq<Address>, trace: seq<Repair>,
                     failed: set<Address>)
    requires ChunkLoop(db0, db, r, live, id, copies, source, here, stale, candidates, trace, failed)
    requires |here| < r && candidates != [] && copies(id, candidates[0], source)
    ensures CommittedChunk(db, id)
    ensures var x := StepRepair(id, here, stale, candidates);
      ChunkLoop(db0, ApplyRepair(db, x), r, live, id, copies, source, here + [candidates[0]],
                if stale == [] then [] else stale[1..], candidates[1..], trace + [x], failed)
  {
    hide KnownSplit, Candidates, Valid, CommittedChunk, ApplyRepair, ValidTrace, ApplyTrace;
    ListsStep(db, r, id, live, here, stale, candidates, failed);
    AppendTrace(db0, r, live, trace, StepRepair(id, here, stale, candidates));
  }

  lemma ChunkRefused(db0: Db, db: Db, r: int, live: set<Address>, id: ChunkId, copies: Copies, source: Address,
                     here: seq<Address>, stale: seq<Address>, candidates: seq<Address>, trace: seq<Repair>,
                     failed: set<Address>)
    requires ChunkLoop(db0, db, r, live, id, copies, source, here, stale, candidates, trace, failed)
    requires candidates != [] && !copies(id, candidates[0], source)
    ensures ChunkLoop(db0, db, r, live, id, copies, source, here, stale, candidates[1..], trace,
                      failed + {candidates[0]})
  {
    hide KnownSplit, Candidates, CommittedChunk, ValidTrace, ApplyTrace;
    CandidateRefused(db, id, live, candidates, failed);
  }

  /** What a chunk's turn in a pass achieves: the copies made are repairs in order, and a chunk that
      had a live source is settled unless every other live server refused. */
  ghost predicate ChunkHealed(db0: Db, db: Db, r: int, live: set<Address>, id: ChunkId, copies: Copies,
      trace: seq<Repair>, failed: set<Address>) {
    && ValidTrace(db0, r, live, trace) && db == ApplyTrace(db0, trace) && AllOf(trace, id)
    && (forall x :: x in trace ==> copies(x.id, x.target, x.source))
    && (forall a :: a in failed ==> exists b :: !copies(id, a, b))
    && (LiveReplicas(db0, id, live) != {} ==> Settled(db, r, live, id, set a | a in failed :: (id, a)))
  }

  lemma ChunkSkipped(db: Db, r: int, live: set<Address>, id: ChunkId, copies: Copies, here: seq<Address>)
    requires Elems(here) == LiveReplicas(db, id, live) && Distinct(here) && (|here| >= r || here == [])
    ensures ChunkHealed(db, db, r, live, id, copies, [], {})
  {
    AlreadySettled(db, r, live, id, here);
    var none: set<Address> := {};
    assert (set a | a in none :: (id, a)) == {};
  }

  lemma ChunkDone(db0: Db, db: Db, r: int, live: set<Address>, id: ChunkId, copies: Copies, source: Address,
                  here: seq<Address>, stale: seq<Address>, candidates: seq<Address>, trace: seq<Repair>,
                     failed: set<Address>)
    requires ChunkLoop(db0, db, r, live, id, copies, source, here, stale, candidates, trace, failed)
    requires |here| >= r || candidates == []
    ensures ChunkHealed(db0, db, r, live, id, copies, trace, failed) && forall x :: x in trace ==> x.source == source
  {
    hide KnownSplit, Candidates, CommittedChunk, ValidTrace, ApplyTrace, Settled;
    NowSettled(db, r, id, live, here, stale, candidates, failed);
  }

  lemma ChunkStart(db: Db, c: ChunkMeta, r: int, live: seq<Address>, copies: Copies)
    requires IsChunk(db, c) && CommittedChunk(db, c.chunkId) && Distinct(live)
    ensures var known := Dedup(c.locations);
      var here := Filter((a: Address) => a in live, known);
      var stale := Filter((a: Address) => a !in live, known);
      var candidates := Filter((a: Address) => a !in known, live);
      && Distinct(here) && Elems(here) == LiveReplicas(db, c.chunkId, Elems(live))
      && (here != [] ==> ChunkLoop(db, db, r, Elems(live), c.chunkId, copies, here[0], here, stale, candidates, [], {}))
      && (here != [] ==> FirstLive(c.locations, Elems(live), here[0]))
  {
    hide Candidates, CommittedChunk, IsChunk, FirstLive;
    DedupFirstLive(c.locations, live);
    ListsStart(db, c, live);
  }

  /** The body of the pass for one chunk. */
  method HealChunk(store: Store, c: ChunkMeta, live: seq<Address>, r: int, copies: Copies)
    returns (repaired: nat, ghost trace: seq<Repair>, ghost failed: set<Address>)
    requires IsChunk(store.Contents(), c) && CommittedChunk(store.Contents(), c.chunkId) && Distinct(live)
    modifies store
    ensures ChunkHealed(old(store.Contents()), store.Contents(), r, Elems(live), c.chunkId, copies, trace, failed)
    ensures forall x :: x in trace ==> FirstLive(c.locations, Elems(live), x.source)
    ensures repaired == |trace|
  {
    hide *;
    ghost var db0 := store.Contents();
    ghost var L := Elems(live);
    var id := c.chunkId;
    repaired, trace, failed := 0, [], {};
    var known := Dedup(c.locations);
    var here := Filter((a: Address) => a in live, known);
    var stale := Filter((a: Address) => a !in live, known);
    var candidates := Filter((a: Address) => a !in known, live);
    ChunkStart(db0, c, r, live, copies);
    if |here| >= r || here == [] {
      ChunkSkipped(db0, r, L, id, copies, here);
      return;
    }
    var source := here[0];
    while |here| < r && candidates != []
      invariant ChunkLoop(db0, store.Contents(), r, L, id, copies, source, here, stale, candidates, trace, failed)
      invariant repaired == |trace| && here != [] && here[0] == source
      decreases |candidates|
    {
      var target := candidates[0];
      ghost var db := store.Contents();
      if copies(id, target, source) {
        ghost var x := StepRepair(id, here, stale, candidates);
        ChunkCopied(db0, db, r, L, id, copies, source, here, stale, candidates, trace, failed);
        CommittedIn(db, id);
        var recorded := RecordCopy(store, id, target, stale, source);
        assert recorded;
        StepRepairIs(id, here, stale, candidates);
        here := here + [target];
        repaired := repaired + 1;
        stale := if stale == [] then [] else stale[1..];
        trace := trace + [x];
      } else {
        ChunkRefused(db0, db, r, L, id, copies, source, here, stale, candidates, trace, failed);
        failed := failed + {target};
      }
      candidates := candidates[1..];
    }
    ChunkDone(db0, store.Contents(), r, L, id, copies, source, here, stale, candidates, trace, failed);
  }

  lemma CommittedIn(db: Db, id: ChunkId)
    requires CommittedChunk(db, id)
    ensures id in db.chunks
  {}

  lemma StepRepairIs(id: ChunkId, here: seq<Address>, stale: seq<Address>, candidates: seq<Address>)
    requires here != [] && candidates != []
    ensures StepRepair(id, here, stale, candidates)
        == Repair(id, here[0], candidates[0], if stale == [] then None else Some(stale[0]))
  {}

  // ---- the pass ----

  /** Between chunks: finished ones are settled, the others are as the query saw them. */
  ghost predicate Midway(db0: Db, db: Db, r: int, live: set<Address>, work: seq<ChunkMeta>, k: nat,
      failed: set<(ChunkId, Address)>) {
    && k <= |work| && db.chunks == db0.chunks && db.files == db0.files
    && (forall i :: 0 <= i < k && LiveReplicas(db0, work[i].chunkId, live) != {} ==>
          Settled(db, r, live, work[i].chunkId, failed))
    && (forall id :: (forall i :: 0 <= i < k ==> work[i].chunkId != id) ==> Replicas(db, id) == Replicas(db0, id))
  }

  lemma MidwayNext(db0: Db, db: Db, e: Db, r: int, live: set<Address>, work: seq<ChunkMeta>, k: nat,
                   failed: set<(ChunkId, Address)>, more: set<(ChunkId, Address)>, trace: seq<Repair>)
    requires Midway(db0, db, r, live, work, k, failed) && k < |work| && DistinctIds(work)
    requires ValidTrace(db, r, live, trace) && e == ApplyTrace(db, trace) && AllOf(trace, work[k].chunkId)
    requires LiveReplicas(db, work[k].chunkId, live) != {} ==> Settled(e, r, live, work[k].chunkId, more)
    ensures Midway(db0, e, r, live, work, k + 1, failed + more)
  {
    var id := work[k].chunkId;
    TraceBounds(db, r, live, trace, id);
    forall other | other != id ensures Replicas(e, other) == Replicas(db, other) {
      TraceOthers(db, r, live, trace, id, other);
    }
    forall i | 0 <= i < k + 1 && LiveReplicas(db0, work[i].chunkId, live) != {}
      ensures Settled(e, r, live, work[i].chunkId, failed + more)
    {
      if i < k {
        assert Settled(db, r, live, work[i].chunkId, failed);
      } else {
        assert Replicas(db, id) == Replicas(db0, id);
      }
    }
  }

  lemma MidwayChunk(db0: Db, db: Db, r: int, live: set<Address>, work: seq<ChunkMeta>, k: nat,
      failed: set<(ChunkId, Address)>)
    requires Midway(db0, db, r, live, work, k, failed) && k < |work|
    requires IsChunkList(db0, UnderReplicated(db0, r, live), work)
    ensures IsChunk(db, work[k]) && CommittedChunk(db, work[k].chunkId)
  {
    assert work[k] in work && IsChunk(db0, work[k]);
    assert work[k].chunkId in Ids(work);
    assert Replicas(db, work[k].chunkId) == Replicas(db0, work[k].chunkId);
  }

  lemma MidwayDone(db0: Db, db: Db, r: int, live: set<Address>, work: seq<ChunkMeta>, failed: set<(ChunkId, Address)>)
    requires Midway(db0, db, r, live, work, |work|, failed)
    requires IsChunkList(db0, UnderReplicated(db0, r, live), work)
    ensures PassDone(db0, db, r, live, failed)
  {
    forall id | CommittedChunk(db0, id) && LiveReplicas(db0, id, live) != {}
      ensures Settled(db, r, live, id, failed)
    {
      if id in UnderReplicated(db0, r, live) {
        assert id in Ids(work);
        var c :| c in work && c.chunkId == id;
        var i :| 0 <= i < |work| && work[i] == c;
      } else {
        forall i | 0 <= i < |work| ensures work[i].chunkId != id {
          assert work[i] in work && work[i].chunkId in Ids(work);
        }
        assert Replicas(db, id) == Replicas(db0, id);
      }
    }
  }

  /** R rows for every committed chunk, and all of them live. */
  ghost predicate Converged(db: Db, r: int, live: set<Address>) {
    forall id :: CommittedChunk(db, id) ==> |Replicas(db, id)| == r && Replicas(db, id) <= live
  }

  ghost predicate Healable(db: Db, r: int, live: set<Address>) {
    |live| >= r && forall id :: CommittedChunk(db, id) ==> |Replicas(db, id)| == r && LiveReplicas(db, id, live) != {}
  }

  /** `heal_once`: `live` is the registry's pick, `rows` what the under-replicated query answers.
      The returned count is the drop in the total deficit whatever copies fail, and a pass without
      failures converges. */
  method HealOnce(store: Store, live: seq<Address>, r: int, rows: seq<GroupRow>, copies: Copies)
    returns (repaired: nat, ghost trace: seq<Repair>, ghost failed: set<(ChunkId, Address)>)
    requires Distinct(live) && CleanAddresses(store.Contents())
    requires IsGroups(store.Contents(), r, Elems(live), rows)
    modifies store
    ensures ValidTrace(old(store.Contents()), r, Elems(live), trace)
    ensures store.Contents() == ApplyTrace(old(store.Contents()), trace)
    ensures repaired == |trace|
    ensures repaired
      == TotalDeficit(old(store.Contents()), r, Elems(live)) - TotalDeficit(store.Contents(), r, Elems(live))
    ensures forall x :: x in trace ==> copies(x.id, x.target, x.source)
    ensures forall f :: f in failed ==> exists b :: !copies(f.0, f.1, b)
    ensures |live| < r || KnownAddresses(old(store.Contents())) <= Elems(live) ==> repaired == 0
    ensures |live| >= r && (forall id :: CommittedChunk(old(store.Contents()), id) ==>
      |Replicas(old(store.Contents()), id)| >= r) ==>
      PassDone(old(store.Contents()), store.Contents(), r, Elems(live), failed)
    ensures Healable(old(store.Contents()), r, Elems(live)) && (forall id, a, b :: copies(id, a, b)) ==>
      Converged(store.Contents(), r, Elems(live))
  {
    hide CleanAddresses, IsGroups, Converged, Healable, PassDone, ValidTrace, ApplyTrace, UnderReplicated;
    hide CommittedChunk, TotalDeficit;
    ghost var db0 := store.Contents();
    ghost var L := Elems(live);
    repaired, trace, failed := 0, [], {};
    NoTrace(db0, r, L);
    if |live| < r {
      TooFew(db0, r, live);
      return;
    }
    var known := store.KnownReplicaAddresses();
    KnownSame(db0, known);
    if known <= (set a | a in live) {
      NothingToDo(db0, r, L);
      FullPass(db0, db0, r, L, [], copies, {});
      return;
    }
    var work := UnderReplicatedChunks(store.Contents(), r, L, rows);
    repaired, trace, failed := HealAll(store, live, r, work, copies);
    TraceDeficit(db0, r, L, trace);
    FullPass(db0, store.Contents(), r, L, trace, copies, failed);
  }

  lemma NoTrace(db: Db, r: int, live: set<Address>)
    ensures ValidTrace(db, r, live, []) && ApplyTrace(db, []) == db
  {}

  lemma TooFew(db: Db, r: int, live: seq<Address>)
    requires |live| < r
    ensures !Healable(db, r, Elems(live))
  {
    ElemsBound(live);
  }

  /** Healing converges in one pass when no copy fails. */
  lemma FullPass(db: Db, e: Db, r: int, live: set<Address>, trace: seq<Repair>, copies: Copies,
      failed: set<(ChunkId, Address)>)
    requires ValidTrace(db, r, live, trace) && e == ApplyTrace(db, trace)
    requires (forall id :: CommittedChunk(db, id) ==> |Replicas(db, id)| >= r) ==> PassDone(db, e, r, live, failed)
    requires forall f :: f in failed ==> exists b :: !copies(f.0, f.1, b)
    ensures Healable(db, r, live) && (forall id, a, b :: copies(id, a, b)) ==> Converged(e, r, live)
  {
    hide PassDone, CommittedChunk, LiveReplicas, Replicas, ValidTrace, ApplyTrace;
    if Healable(db, r, live) && (forall id, a, b :: copies(id, a, b)) {
      assert failed == {};
      Converges(db, r, live, trace);
    }
  }

  /** After a converged pass an immediate second pass on the same snapshot returns 0: the known
      addresses are all live, and the query would find nothing either. */
  lemma SecondPassIdle(db: Db, r: int, live: set<Address>)
    requires Converged(db, r, live)
    ensures KnownAddresses(db) <= live && UnderReplicated(db, r, live) == {}
  {
    forall a | a in KnownAddresses(db) ensures a in live {
      var p :| p in db.replicas && p.1 == a && CommittedChunk(db, p.0);
      assert a in Replicas(db, p.0);
    }
    ShortCircuitSound(db, r, live);
  }

  /** The short-circuited pass is done, given R rows per committed chunk. */
  lemma NothingToDo(db: Db, r: int, live: set<Address>)
    requires KnownAddresses(db) <= live
    ensures (forall id :: CommittedChunk(db, id) ==> |Replicas(db, id)| >= r) ==> PassDone(db, db, r, live, {})
  {
    if forall id :: CommittedChunk(db, id) ==> |Replicas(db, id)| >= r {
      ShortCircuitSound(db, r, live);
      forall id | CommittedChunk(db, id) ensures Settled(db, r, live, id, {}) {
        assert id !in UnderReplicated(db, r, live);
      }
    }
  }

  method HealAll(store: Store, live: seq<Address>, r: int, work: seq<ChunkMeta>, copies: Copies)
    returns (repaired: nat, ghost trace: seq<Repair>, ghost failed: set<(ChunkId, Address)>)
    requires Distinct(live)
    requires IsChunkList(store.Contents(), UnderReplicated(store.Contents(), r, Elems(live)), work)
    modifies store
    ensures ValidTrace(old(store.Contents()), r, Elems(live), trace)
    ensures store.Contents() == ApplyTrace(old(store.Contents()), trace)
    ensures repaired == |trace|
    ensures forall x :: x in trace ==> copies(x.id, x.target, x.source)
    ensures forall f :: f in failed ==> exists b :: !copies(f.0, f.1, b)
    ensures PassDone(old(store.Contents()), store.Contents(), r, Elems(live), failed)
  {
    hide Midway, IsChunkList, IsChunk, CommittedChunk, Settled, PassDone, UnderReplicated;
    ghost var db0 := store.Contents();
    ghost var L := Elems(live);
    repaired, trace, failed := 0, [], {};
    MidwayStart(db0, r, L, work);
    for k := 0 to |work|
      invariant ValidTrace(db0, r, L, trace) && store.Contents() == ApplyTrace(db0, trace)
      invariant repaired == |trace|
      invariant forall x :: x in trace ==> copies(x.id, x.target, x.source)
      invariant forall f :: f in failed ==> exists b :: !copies(f.0, f.1, b)
      invariant Midway(db0, store.Contents(), r, L, work, k, failed)
    {
      ghost var db := store.Contents();
      MidwayChunk(db0, db, r, L, work, k, failed);
      var n;
      ghost var xs, refused;
      n, xs, refused := HealChunk(store, work[k], live, r, copies);
      ghost var more := set a | a in refused :: (work[k].chunkId, a);
      WorkDistinct(db0, r, L, work);
      MidwayNext(db0, db, store.Contents(), r, L, work, k, failed, more, xs);
      ConcatTrace(db0, r, L, trace, xs);
      repaired, trace, failed := repaired + n, trace + xs, failed + more;
    }
    MidwayDone(db0, store.Contents(), r, L, work, failed);
  }

  lemma MidwayStart(db: Db, r: int, live: set<Address>, work: seq<ChunkMeta>)
    ensures Midway(db, db, r, live, work, 0, {})
  {}

  lemma WorkDistinct(db: Db, r: int, live: set<Address>, work: seq<ChunkMeta>)
    requires IsChunkList(db, UnderReplicated(db, r, live), work)
    ensures DistinctIds(work)
  {}
}
