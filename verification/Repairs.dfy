/** The arithmetic of self-healing: what a sequence of recorded repairs does to the replica rows. */
module Repairs {
  import opened Base
  import opened Tables

  /** One successful copy, recorded: `target` added and, when there is one, a dead replica removed. */
  datatype Repair = Repair(id: ChunkId, source: Address, target: Address, stale: Option<Address>)

  function LiveReplicas(db: Db, id: ChunkId, live: set<Address>): set<Address> {
    Replicas(db, id) * live
  }

  ghost predicate Valid(db: Db, r: int, live: set<Address>, x: Repair) {
    && CommittedChunk(db, x.id)
    && x.source in LiveReplicas(db, x.id, live)
    && x.target in live - Replicas(db, x.id)
    && |LiveReplicas(db, x.id, live)| < r
    && match x.stale
       case Some(a) => a in Replicas(db, x.id) - live
       case None => Replicas(db, x.id) <= live
  }

  function ApplyRepair(db: Db, x: Repair): Db {
    var added := db.(replicas := db.replicas + {(x.id, x.target)});
    match x.stale
    case Some(a) => RemoveReplica(added, x.id, a)
    case None => added
  }

  ghost predicate ValidTrace(db: Db, r: int, live: set<Address>, xs: seq<Repair>)
    decreases |xs|
  {
    xs == [] || (Valid(db, r, live, xs[0]) && ValidTrace(ApplyRepair(db, xs[0]), r, live, xs[1..]))
  }

  function ApplyTrace(db: Db, xs: seq<Repair>): Db
    decreases |xs|
  {
    if xs == [] then db else ApplyTrace(ApplyRepair(db, xs[0]), xs[1..])
  }

  lemma {:induction false} AppendTrace(db: Db, r: int, live: set<Address>, xs: seq<Repair>, x: Repair)
    requires ValidTrace(db, r, live, xs) && Valid(ApplyTrace(db, xs), r, live, x)
    ensures ValidTrace(db, r, live, xs + [x])
    ensures ApplyTrace(db, xs + [x]) == ApplyRepair(ApplyTrace(db, xs), x)
    decreases |xs|
  {
    if xs != [] {
      AppendTrace(ApplyRepair(db, xs[0]), r, live, xs[1..], x);
      assert (xs + [x])[1..] == xs[1..] + [x];
    } else {
      assert ApplyTrace(ApplyRepair(db, x), []) == ApplyRepair(db, x);
      assert ([x])[1..] == [];
    }
  }

  // ---- one repair ----

  lemma RepairSets(db: Db, r: int, live: set<Address>, x: Repair)
    requires Valid(db, r, live, x)
    ensures var e := ApplyRepair(db, x);
      && e.chunks == db.chunks && e.files == db.files
      && Replicas(e, x.id) == Replicas(db, x.id) + {x.target} - (if x.stale.Some? then {x.stale.value} else {})
      && (forall id :: id != x.id ==> Replicas(e, id) == Replicas(db, id))
  {
    AddReplicaSets(db, x.id, x.target);
    var added := AddReplica(db, x.id, x.target).value;
    if x.stale.Some? {
      RemoveReplicaSets(added, x.id, x.stale.value);
    }
  }

  /** A repair lifts its chunk's live count by one, keeps every live row, and keeps the row count
      when it retires a dead one. */
  lemma RepairOne(db: Db, r: int, live: set<Address>, x: Repair, id: ChunkId)
    requires Valid(db, r, live, x)
    ensures var e := ApplyRepair(db, x);
      && (CommittedChunk(e, id) <==> CommittedChunk(db, id))
      && LiveReplicas(db, id, live) <= LiveReplicas(e, id, live)
      && |LiveReplicas(e, id, live)| == |LiveReplicas(db, id, live)| + (if id == x.id then 1 else 0)
      && |Replicas(e, id)| == |Replicas(db, id)| + (if id == x.id && x.stale.None? then 1 else 0)
  {
    hide Replicas, ApplyRepair;
    RepairSets(db, r, live, x);
    var e := ApplyRepair(db, x);
    if id == x.id {
      assert LiveReplicas(e, id, live) == LiveReplicas(db, id, live) + {x.target};
      if x.stale.Some? {
        assert Replicas(e, id) == (Replicas(db, id) - {x.stale.value}) + {x.target};
      }
    }
  }

  // ---- the deficit ----

  /** How many live copies a committed chunk with a live source is short of. */
  ghost function Deficit(db: Db, r: int, live: set<Address>, id: ChunkId): nat {
    var n := |LiveReplicas(db, id, live)|;
    if CommittedChunk(db, id) && 0 < n < r then r - n else 0
  }

  ghost function TotalOver(db: Db, r: int, live: set<Address>, ids: set<ChunkId>): nat {
    if ids == {} then 0 else
      var id :| id in ids;
      Deficit(db, r, live, id) + TotalOver(db, r, live, ids - {id})
  }

  ghost function TotalDeficit(db: Db, r: int, live: set<Address>): nat {
    TotalOver(db, r, live, db.chunks.Keys)
  }

  lemma {:induction false} TotalSplit(db: Db, r: int, live: set<Address>, ids: set<ChunkId>, id: ChunkId)
    requires id in ids
    ensures TotalOver(db, r, live, ids) == Deficit(db, r, live, id) + TotalOver(db, r, live, ids - {id})
    decreases ids
  {
    var x :| x in ids && TotalOver(db, r, live, ids) == Deficit(db, r, live, x) + TotalOver(db, r, live, ids - {x});
    if x != id {
      TotalSplit(db, r, live, ids - {x}, id);
      TotalSplit(db, r, live, ids - {id}, x);
      assert ids - {x} - {id} == ids - {id} - {x};
    }
  }

  lemma {:induction false} TotalSame(db: Db, e: Db, r: int, live: set<Address>, ids: set<ChunkId>)
    requires forall id :: id in ids ==> Deficit(e, r, live, id) == Deficit(db, r, live, id)
    ensures TotalOver(e, r, live, ids) == TotalOver(db, r, live, ids)
    decreases ids
  {
    if ids != {} {
      var x :| x in ids && TotalOver(db, r, live, ids) == Deficit(db, r, live, x) + TotalOver(db, r, live, ids - {x});
      TotalSame(db, e, r, live, ids - {x});
      TotalSplit(e, r, live, ids, x);
    }
  }

  lemma RepairDeficit(db: Db, r: int, live: set<Address>, x: Repair)
    requires Valid(db, r, live, x)
    ensures TotalDeficit(ApplyRepair(db, x), r, live) == TotalDeficit(db, r, live) - 1
  {
    var e := ApplyRepair(db, x);
    RepairSets(db, r, live, x);
    var ids := db.chunks.Keys;
    forall id ensures Deficit(e, r, live, id) == Deficit(db, r, live, id) - (if id == x.id then 1 else 0) {
      RepairOne(db, r, live, x, id);
    }
    TotalSplit(db, r, live, ids, x.id);
    TotalSplit(e, r, live, ids, x.id);
    TotalSame(db, e, r, live, ids - {x.id});
  }

  /** The number of repairs is exactly the drop in the total deficit. */
  lemma {:induction false} TraceDeficit(db: Db, r: int, live: set<Address>, xs: seq<Repair>)
    requires ValidTrace(db, r, live, xs)
    ensures |xs| == TotalDeficit(db, r, live) - TotalDeficit(ApplyTrace(db, xs), r, live)
    decreases |xs|
  {
    if xs != [] {
      RepairDeficit(db, r, live, xs[0]);
      TraceDeficit(ApplyRepair(db, xs[0]), r, live, xs[1..]);
    }
  }

  // ---- what no pass can do ----

  /** Repairs drop no live row, lower no live count, and lift none above max(before, R). */
  lemma {:induction false} TraceBounds(db: Db, r: int, live: set<Address>, xs: seq<Repair>, id: ChunkId)
    requires ValidTrace(db, r, live, xs)
    ensures var e := ApplyTrace(db, xs);
      && e.chunks == db.chunks && e.files == db.files
      && LiveReplicas(db, id, live) <= LiveReplicas(e, id, live)
      && |LiveReplicas(db, id, live)| <= |LiveReplicas(e, id, live)| <= Max(|LiveReplicas(db, id, live)|, r)
      && (LiveReplicas(db, id, live) == {} ==> LiveReplicas(e, id, live) == {})
    decreases |xs|
  {
    if xs != [] {
      RepairSets(db, r, live, xs[0]);
      RepairOne(db, r, live, xs[0], id);
      TraceBounds(ApplyRepair(db, xs[0]), r, live, xs[1..], id);
    }
  }

  /** With at least R rows to begin with, a pass never changes the number of rows of a chunk: each
      new replica retires a dead one, so there is always a dead one to retire. */
  lemma {:induction false} TraceCounts(db: Db, r: int, live: set<Address>, xs: seq<Repair>, id: ChunkId)
    requires ValidTrace(db, r, live, xs) && forall x :: CommittedChunk(db, x) ==> |Replicas(db, x)| >= r
    ensures |Replicas(ApplyTrace(db, xs), id)| == |Replicas(db, id)|
    ensures forall i :: 0 <= i < |xs| ==> xs[i].stale.Some?
    decreases |xs|
  {
    if xs != [] {
      var e := ApplyRepair(db, xs[0]);
      StaleExists(db, r, live, xs[0]);
      forall x ensures |Replicas(e, x)| == |Replicas(db, x)| && (CommittedChunk(e, x) <==> CommittedChunk(db, x)) {
        RepairOne(db, r, live, xs[0], x);
      }
      TraceCounts(e, r, live, xs[1..], id);
    }
  }

  lemma StaleExists(db: Db, r: int, live: set<Address>, x: Repair)
    requires Valid(db, r, live, x) && |Replicas(db, x.id)| >= r
    ensures x.stale.Some?
  {
    assert LiveReplicas(db, x.id, live) != Replicas(db, x.id);
  }

  // ---- the steady-state short-circuit ----

  /** The distinct addresses recorded for committed chunks. */
  function KnownAddresses(db: Db): set<Address> {
    set p | p in db.replicas && p.0 in db.chunks && db.chunks[p.0].filename in db.files
      && db.files[db.chunks[p.0].filename].status == Committed :: p.1
  }

  /** The chunks the under-replicated query selects. */
  ghost function UnderReplicated(db: Db, r: int, live: set<Address>): set<ChunkId> {
    set id | id in db.chunks && CommittedChunk(db, id) && |LiveReplicas(db, id, live)| < r
  }

  /** Skipping the scan when every known address is live hides no repair, given at least R rows. */
  lemma ShortCircuitSound(db: Db, r: int, live: set<Address>)
    requires forall id :: CommittedChunk(db, id) ==> |Replicas(db, id)| >= r
    requires KnownAddresses(db) <= live
    ensures UnderReplicated(db, r, live) == {}
  {
    forall id | CommittedChunk(db, id) ensures LiveReplicas(db, id, live) == Replicas(db, id) {
      forall a | a in Replicas(db, id) ensures a in live {
        assert (id, a) in db.replicas;
        assert a in KnownAddresses(db);
      }
    }
  }

  lemma ShortCircuitNeedsCount()
    ensures exists db: Db, live: set<Address> ::
      (Wf(db) && KnownAddresses(db) <= live && UnderReplicated(db, 2, live) != {})
  {
    var fn, id, a := Filename("f"), ChunkId("c"), Address("a");
    var db := Db(map[fn := FileRow(1, 1, Committed, 0.0)], map[id := ChunkRow(fn, 0)], {(id, a)});
    assert db.chunks[id] == ChunkRow(fn, 0);
    assert HasIndex(db, fn, 0);
    assert AllIndices(db, fn);
    assert Wf(db);
    assert Replicas(db, id) == {a};
    assert LiveReplicas(db, id, {a}) == {a};
    assert id in UnderReplicated(db, 2, {a});
  }

  // ---- a full pass ----

  /** What a whole pass leaves behind for a chunk that had a live source: R live rows, or every
      live server without a row refused the copy. */
  ghost predicate Settled(e: Db, r: int, live: set<Address>, id: ChunkId, failed: set<(ChunkId, Address)>) {
    |LiveReplicas(e, id, live)| >= r || forall a :: a in live && a !in Replicas(e, id) ==> (id, a) in failed
  }

  ghost predicate PassDone(db: Db, e: Db, r: int, live: set<Address>, failed: set<(ChunkId, Address)>) {
    forall id :: CommittedChunk(db, id) && LiveReplicas(db, id, live) != {} ==> Settled(e, r, live, id, failed)
  }

  lemma {:induction false} NoDeficit(db: Db, r: int, live: set<Address>, ids: set<ChunkId>, id: ChunkId)
    requires TotalOver(db, r, live, ids) == 0 && id in ids
    ensures Deficit(db, r, live, id) == 0
  {
    TotalSplit(db, r, live, ids, id);
  }

  lemma {:induction false} SomeDeficit(db: Db, r: int, live: set<Address>, ids: set<ChunkId>) returns (id: ChunkId)
    requires TotalOver(db, r, live, ids) > 0
    ensures id in ids && Deficit(db, r, live, id) > 0
    decreases ids
  {
    var x :| x in ids && TotalOver(db, r, live, ids) == Deficit(db, r, live, x) + TotalOver(db, r, live, ids - {x});
    if Deficit(db, r, live, x) > 0 {
      id := x;
    } else {
      id := SomeDeficit(db, r, live, ids - {x});
    }
  }

  /** A chunk short of live copies, with a source, can be repaired while R servers are live. */
  lemma CanRepair(db: Db, r: int, live: set<Address>, id: ChunkId) returns (x: Repair)
    requires Deficit(db, r, live, id) > 0 && |live| >= r
    ensures Valid(db, r, live, x) && x.id == id
  {
    var here := LiveReplicas(db, id, live);
    var source :| source in here;
    assert here != live;
    var target :| target in live && target !in here;
    if Replicas(db, id) <= live {
      x := Repair(id, source, target, None);
    } else {
      var stale :| stale in Replicas(db, id) && stale !in live;
      x := Repair(id, source, target, Some(stale));
    }
  }

  /** A full pass exists for every database and every live set of at least R servers. */
  lemma {:induction false} PassExists(db: Db, r: int, live: set<Address>) returns (xs: seq<Repair>)
    requires |live| >= r
    ensures ValidTrace(db, r, live, xs) && PassDone(db, ApplyTrace(db, xs), r, live, {})
    decreases TotalDeficit(db, r, live)
  {
    if TotalDeficit(db, r, live) == 0 {
      xs := [];
      forall id | CommittedChunk(db, id) && LiveReplicas(db, id, live) != {} ensures Settled(db, r, live, id, {}) {
        NoDeficit(db, r, live, db.chunks.Keys, id);
      }
    } else {
      var id := SomeDeficit(db, r, live, db.chunks.Keys);
      var x := CanRepair(db, r, live, id);
      RepairDeficit(db, r, live, x);
      var rest := PassExists(ApplyRepair(db, x), r, live);
      xs := [x] + rest;
      assert xs[1..] == rest;
      RepairedPass(db, r, live, x, ApplyTrace(db, xs));
    }
  }

  lemma RepairedPass(db: Db, r: int, live: set<Address>, x: Repair, e: Db)
    requires Valid(db, r, live, x) && PassDone(ApplyRepair(db, x), e, r, live, {})
    ensures PassDone(db, e, r, live, {})
  {
    hide Valid, ApplyRepair, LiveReplicas, Settled;
    forall id | CommittedChunk(db, id) && LiveReplicas(db, id, live) != {} ensures Settled(e, r, live, id, {}) {
      RepairOne(db, r, live, x, id);
    }
  }

  /** Healing converges in one pass. */
  lemma Converges(db: Db, r: int, live: set<Address>, xs: seq<Repair>)
    requires |live| >= r && ValidTrace(db, r, live, xs)
    requires PassDone(db, ApplyTrace(db, xs), r, live, {})
    requires forall id :: CommittedChunk(db, id) ==> |Replicas(db, id)| == r && LiveReplicas(db, id, live) != {}
    ensures forall id :: CommittedChunk(db, id) ==> CommittedChunk(ApplyTrace(db, xs), id)
    ensures forall id :: CommittedChunk(ApplyTrace(db, xs), id) ==>
      |Replicas(ApplyTrace(db, xs), id)| == r && Replicas(ApplyTrace(db, xs), id) <= live
    ensures UnderReplicated(ApplyTrace(db, xs), r, live) == {}
  {
    var e := ApplyTrace(db, xs);
    TraceBounds(db, r, live, xs, ChunkId(""));
    forall id | CommittedChunk(e, id)
      ensures |Replicas(e, id)| == r && Replicas(e, id) <= live && |LiveReplicas(e, id, live)| == r
    {
      assert CommittedChunk(db, id);
      TraceCounts(db, r, live, xs, id);
      assert Settled(e, r, live, id, {});
      if forall a :: a in live ==> a in Replicas(e, id) {
        assert LiveReplicas(e, id, live) == live;
      }
      SubsetSize(LiveReplicas(e, id, live), Replicas(e, id));
      SubsetSameSize(LiveReplicas(e, id, live), Replicas(e, id));
    }
  }
}
