/** The handlers of gfs/naming_server/server.py, run against the store and the registry. The clock is
    a parameter: it is read anew each time the live set is asked for. */
module NamingServer {
  import opened Base
  import opened Chunking
  import opened Tables
  import opened Registry
  import opened Repairs
  import opened MetadataStore
  import opened Protocol
  import opened Fetch
  import opened Healer

  // ---- what the handlers build from a file's chunks ----

  /** The live locations, then the others, each group in its order. */
  function LiveFirst(locations: seq<Address>, live: set<Address>): seq<Address> {
    Filter((a: Address) => a in live, locations) + Filter((a: Address) => a !in live, locations)
  }

  lemma {:induction false} FilterSplits(locations: seq<Address>, live: set<Address>)
    ensures multiset(LiveFirst(locations, live)) == multiset(locations)
  {
    if locations != [] {
      FilterSplits(locations[1..], live);
      assert locations == [locations[0]] + locations[1..];
    }
  }

  /** A reordering that asks no dead server before a live one. */
  lemma LiveFirstOrder(locations: seq<Address>, live: set<Address>)
    ensures multiset(LiveFirst(locations, live)) == multiset(locations)
    ensures Elems(LiveFirst(locations, live)) == Elems(locations)
    ensures forall i, j :: 0 <= i < j < |LiveFirst(locations, live)| && LiveFirst(locations, live)[j] in live ==>
      LiveFirst(locations, live)[i] in live
  {
    FilterSplits(locations, live);
    var here := Filter((a: Address) => a in live, locations);
    var gone := Filter((a: Address) => a !in live, locations);
    assert forall j :: 0 <= j < |gone| ==> gone[j] in gone;
    assert forall i :: 0 <= i < |here| ==> here[i] in here;
  }

  lemma {:induction false} FilterJoins(p: Address -> bool, xs: seq<Address>, ys: seq<Address>)
    ensures Filter(p, xs + ys) == Filter(p, xs) + Filter(p, ys)
  {
    if xs == [] {
      assert xs + ys == ys;
    } else {
      assert (xs + ys)[1..] == xs[1..] + ys;
      FilterJoins(p, xs[1..], ys);
    }
  }

  /** Within each of the two groups the order stays. */
  lemma LiveFirstStable(locations: seq<Address>, live: set<Address>)
    ensures var here, gone := (a: Address) => a in live, (a: Address) => a !in live;
      && Filter(here, LiveFirst(locations, live)) == Filter(here, locations)
      && Filter(gone, LiveFirst(locations, live)) == Filter(gone, locations)
  {
    var here, gone := (a: Address) => a in live, (a: Address) => a !in live;
    FilterJoins(here, Filter(here, locations), Filter(gone, locations));
    FilterJoins(gone, Filter(here, locations), Filter(gone, locations));
    FilterTwice(here, here, locations);
    FilterTwice(here, gone, locations);
    FilterTwice(gone, here, locations);
    FilterTwice(gone, gone, locations);
  }

  /** Each location of each chunk, chunk by chunk. */
  function Deletions(chunks: seq<ChunkMeta>): seq<(Address, ChunkId)> {
    if chunks == [] then [] else
      var c := chunks[0];
      seq(|c.locations|, i requires 0 <= i < |c.locations| => (c.locations[i], c.chunkId)) + Deletions(chunks[1..])
  }

  lemma {:induction false} DeletionsElems(chunks: seq<ChunkMeta>, a: Address, id: ChunkId)
    ensures (a, id) in Deletions(chunks) <==> exists c :: c in chunks && c.chunkId == id && a in c.locations
  {
    if chunks != [] {
      DeletionsElems(chunks[1..], a, id);
      var c0 := chunks[0];
      var first := seq(|c0.locations|, i requires 0 <= i < |c0.locations| => (c0.locations[i], c0.chunkId));
      assert (a, id) in first <==> id == c0.chunkId && a in c0.locations by {
        if id == c0.chunkId && a in c0.locations {
          var i :| 0 <= i < |c0.locations| && c0.locations[i] == a;
          assert first[i] == (a, id);
        }
      }
      assert chunks == [c0] + chunks[1..];
    }
  }

  ghost predicate DeletesRows(db: Db, fn: Filename, deletions: seq<(Address, ChunkId)>) {
    forall a, id :: (a, id) in deletions <==> (id, a) in RowPairs(db, fn)
  }

  /** The fan-out names every replica row of the file, and no other. */
  lemma DeletionsAreRows(db: Db, fn: Filename, chunks: seq<ChunkMeta>)
    requires IsChunkList(db, ChunksOf(db, fn), chunks)
    ensures DeletesRows(db, fn, Deletions(chunks))
  {
    forall a, id ensures (a, id) in Deletions(chunks) <==> (id, a) in RowPairs(db, fn) {
      DeletionsElems(chunks, a, id);
      if (a, id) in Deletions(chunks) {
        var c :| c in chunks && c.chunkId == id && a in c.locations;
        assert IsChunk(db, c) && id in Ids(chunks);
        assert a in Replicas(db, id);
      }
      if (id, a) in RowPairs(db, fn) {
        assert id in Ids(chunks);
        var c :| c in chunks && c.chunkId == id;
        assert IsChunk(db, c) && a in Replicas(db, id);
      }
    }
  }

  // ---- placements handed to readers ----

  /** A placement per chunk row of the name, in index order, with all its recorded addresses. */
  ghost predicate PlacementsOf(db: Db, fn: Filename, ps: seq<Placement>) {
    && IsSnapshot(db, fn, IdList(ps))
    && forall i :: 0 <= i < |ps| ==>
         ps[i].index == db.chunks[ps[i].chunkId].idx && Elems(ps[i].locations) == Replicas(db, ps[i].chunkId)
  }

  function Place(chunks: seq<ChunkMeta>, live: set<Address>): (ps: seq<Placement>)
    ensures |ps| == |chunks|
    ensures forall i :: 0 <= i < |chunks| ==>
      ps[i] == Placement(chunks[i].index, chunks[i].chunkId, LiveFirst(chunks[i].locations, live))
  {
    seq(|chunks|, i requires 0 <= i < |chunks| =>
      Placement(chunks[i].index, chunks[i].chunkId, LiveFirst(chunks[i].locations, live)))
  }

  lemma PlaceIsSnapshot(db: Db, fn: Filename, chunks: seq<ChunkMeta>, live: set<Address>)
    requires IsChunkList(db, ChunksOf(db, fn), chunks) && AscendingIndex(chunks)
    ensures PlacementsOf(db, fn, Place(chunks, live))
  {
    var ps := Place(chunks, live);
    forall i | 0 <= i < |chunks|
      ensures chunks[i].chunkId in ChunksOf(db, fn) && ps[i].index == db.chunks[ps[i].chunkId].idx
      ensures Elems(ps[i].locations) == Replicas(db, ps[i].chunkId)
    {
      assert chunks[i] in chunks && IsChunk(db, chunks[i]) && chunks[i].chunkId in Ids(chunks);
      LiveFirstOrder(chunks[i].locations, live);
    }
    forall id | id in db.chunks && db.chunks[id].filename == fn ensures id in IdList(ps) {
      assert id in Ids(chunks);
      var c :| c in chunks && c.chunkId == id;
      var i :| 0 <= i < |chunks| && chunks[i] == c;
      assert IdList(ps)[i] == id;
    }
  }

  // ---- CreateFile ----

  datatype CreateResponse = Rejected | Reserved(placements: seq<Placement>)

  ghost predicate Enough(lastSeen: map<Address, real>, r: nat, t: real) {
    |LiveAt(lastSeen, t)| >= r
  }

  /** One turn of the placement loop: what other handlers do to the registry before it, and the clock it
      reads. */
  datatype Turn = Turn(beats: seq<Beat>, picks: nat, time: real)

  /** The registry's timestamps and cursor. */
  datatype Pace = Pace(lastSeen: map<Address, real>, cursor: nat)

  /** The registry after `n` turns, each of which moves the cursor by one. */
  function PaceAfter(start: Pace, turns: seq<Turn>, n: nat): Pace
    requires n <= |turns|
    decreases n, 0
  {
    if n == 0 then start else
      var p := PaceAt(start, turns, n - 1);
      p.(cursor := p.cursor + 1)
  }

  /** The registry as the pick of turn `i` finds it. */
  function PaceAt(start: Pace, turns: seq<Turn>, i: nat): Pace
    requires i < |turns|
    decreases i, 1
  {
    var p := PaceAfter(start, turns, i);
    Pace(Heard(p.lastSeen, turns[i].beats), p.cursor + turns[i].picks)
  }

  ghost predicate EnoughAt(start: Pace, r: nat, turns: seq<Turn>, i: nat)
    requires i < |turns|
  {
    Enough(PaceAt(start, turns, i).lastSeen, r, turns[i].time)
  }

  ghost predicate EnoughAtEach(start: Pace, r: nat, turns: seq<Turn>) {
    forall i: nat :: i < |turns| ==> EnoughAt(start, r, turns, i)
  }

  /** `locations` are the next R servers of the live list of time `t`. */
  ghost predicate PickedAt(p: Pace, r: nat, t: real, locations: seq<Address>) {
    exists live: seq<Address> :: IsLiveList(live, p.lastSeen, t) && locations == PickFrom(live, p.cursor, r)
  }

  ghost predicate IsLiveList(live: seq<Address>, lastSeen: map<Address, real>, t: real) {
    Distinct(live) && Registry.Sorted(live) && Elems(live) == LiveAt(lastSeen, t)
  }

  /** Chunk `i` is placed by the pick of turn `i`. */
  ghost predicate Picked(start: Pace, r: nat, turns: seq<Turn>, locs: seq<seq<Address>>) {
    |locs| <= |turns| && forall i: nat :: i < |locs| ==> PickedAt(PaceAt(start, turns, i), r, turns[i].time, locs[i])
  }

  function PlacementList(ids: seq<ChunkId>, locs: seq<seq<Address>>): (ps: seq<Placement>)
    requires |ids| == |locs|
    ensures |ps| == |ids| && forall i :: 0 <= i < |ids| ==> ps[i] == Placement(i, ids[i], locs[i])
  {
    seq(|ids|, i requires 0 <= i < |ids| => Placement(i, ids[i], locs[i]))
  }

  /** A pick falls short exactly when fewer than R servers are live; else it is R distinct servers. */
  lemma PickPlaces(p: Pace, r: nat, t: real, live: seq<Address>, locations: seq<Address>)
    requires IsLiveList(live, p.lastSeen, t) && locations == PickFrom(live, p.cursor, r)
    ensures |locations| >= r <==> Enough(p.lastSeen, r, t)
    ensures |locations| >= r ==> |locations| == r && Distinct(locations) && PickedAt(p, r, t, locations)
    ensures |live| == |LiveAt(p.lastSeen, t)|
  {
    PickIs(live, p.cursor, r);
    ElemsDistinct(live);
  }

  /** The picks made so far. */
  ghost predicate PicksDone(start: Pace, r: nat, turns: seq<Turn>, locs: seq<seq<Address>>) {
    && |locs| <= |turns| && PlacementOk(r, locs) && Picked(start, r, turns, locs)
    && forall i: nat :: i < |locs| ==> EnoughAt(start, r, turns, i)
  }

  lemma NoPicks(start: Pace, r: nat, turns: seq<Turn>)
    ensures PicksDone(start, r, turns, []) && PaceAfter(start, turns, 0) == start
  {}

  lemma OnePick(start: Pace, r: nat, turns: seq<Turn>, locs: seq<seq<Address>>, locations: seq<Address>)
    requires PicksDone(start, r, turns, locs) && |locs| < |turns| && EnoughAt(start, r, turns, |locs|)
    requires |locations| == r && Distinct(locations)
    requires PickedAt(PaceAt(start, turns, |locs|), r, turns[|locs|].time, locations)
    ensures PicksDone(start, r, turns, locs + [locations])
  {
    hide EnoughAt, PickedAt, Distinct, PaceAt;
  }

  lemma PicksComplete(start: Pace, r: nat, turns: seq<Turn>, locs: seq<seq<Address>>)
    requires PicksDone(start, r, turns, locs) && |locs| == |turns|
    ensures PlacementOk(r, locs) && Picked(start, r, turns, locs) && EnoughAtEach(start, r, turns)
  {}

  lemma PaceNext(start: Pace, turns: seq<Turn>, i: nat)
    requires i < |turns|
    ensures PaceAt(start, turns, i)
      == Pace(Heard(PaceAfter(start, turns, i).lastSeen, turns[i].beats),
              PaceAfter(start, turns, i).cursor + turns[i].picks)
    ensures PaceAfter(start, turns, i + 1) == PaceAt(start, turns, i).(cursor := PaceAt(start, turns, i).cursor + 1)
  {}

  lemma LayoutFacts(ids: seq<ChunkId>, locs: seq<seq<Address>>)
    requires |ids| == |locs| && Distinct(ids)
    ensures forall c :: c in Layout(ids, locs) ==> c.chunkId in ids
  {}

  lemma CreateWf(db: Db, fn: Filename, size: int, numChunks: int, ids: seq<ChunkId>, locs: seq<seq<Address>>, now: real)
    requires |ids| == |locs| == Span(numChunks) && Distinct(ids) && forall i :: 0 <= i < |ids| ==> ids[i] !in db.chunks
    ensures Wf(db) ==> Wf(Tables.CreatePending(db, fn, size, numChunks, Layout(ids, locs), now))
  {
    hide Wf, Tables.CreatePending;
    if Wf(db) { CreatePendingWf(db, fn, size, numChunks, Layout(ids, locs), now); }
  }

  lemma NothingToDelete(db: Db, fn: Filename)
    requires ForeignKeys(db) && fn !in db.files
    ensures DeletesRows(db, fn, [])
  {}

  lemma SomeDeletes(db: Db, fn: Filename, deletions: seq<(Address, ChunkId)>)
    requires DeletesRows(db, fn, deletions)
    ensures deletions != [] <==> RowPairs(db, fn) != {}
  {
    if deletions != [] {
      assert (deletions[0].0, deletions[0].1) in deletions;
      assert (deletions[0].1, deletions[0].0) in RowPairs(db, fn);
    }
    if p :| p in RowPairs(db, fn) {
      assert (p.0, p.1) in RowPairs(db, fn);
      assert (p.1, p.0) in deletions;
    }
  }

  lemma StartedMessages(db: Db, fn: Filename, started: seq<(Address, ChunkId)>)
    requires DeletesRows(db, fn, started)
    ensures DeleteMsgs(RowPairs(db, fn), false) == set p | p in started :: Delete(p.0, p.1, false)
  {
    var sent := set p | p in started :: Delete(p.0, p.1, false);
    forall m | m in DeleteMsgs(RowPairs(db, fn), false) ensures m in sent {
      var p :| p in RowPairs(db, fn) && m == Delete(p.1, p.0, false);
      assert (p.0, p.1) in RowPairs(db, fn);
      assert (p.1, p.0) in started;
    }
    forall m | m in sent ensures m in DeleteMsgs(RowPairs(db, fn), false) {
      var p :| p in started && m == Delete(p.0, p.1, false);
      assert (p.0, p.1) in started;
      assert (p.1, p.0) in RowPairs(db, fn);
    }
  }

  /** An accepted CreateFile for a client's data is the protocol's create step: same tables, and the
      deletes it starts are the messages the step sends. */
  lemma CreateIsStep(s: State, fn: Filename, data: Bytes, uuids: seq<ChunkId>, locs: seq<seq<Address>>,
      now: real, started: seq<(Address, ChunkId)>)
    requires PlacementOk(s.r, locs) && |uuids| == |locs| == NumChunksForSize(|data|) && Distinct(uuids)
    requires (forall i :: 0 <= i < |uuids| ==> uuids[i] !in s.content) && DeletesRows(s.db, fn, started)
    ensures Enabled(s, ByClient(Protocol.CreateFile(fn, data, uuids, locs, now)))
    ensures var t := Apply(s, ByClient(Protocol.CreateFile(fn, data, uuids, locs, now)));
      && t.db == Tables.CreatePending(s.db, fn, |data|, NumChunksForSize(|data|), Layout(uuids, locs), now)
      && t.msgs == s.msgs + set p | p in started :: Delete(p.0, p.1, false)
  {
    hide Tables.CreatePending, RowPairs, DeletesRows, Pair, Mark, Layout, NumChunksForSize, SplitChunks;
    SplitCount(data);
    StartedMessages(s.db, fn, started);
  }

  // ---- DeleteFile and the pending cleanup ----

  /** The metadata of everything to be deleted is gone. */
  ghost predicate NoLongerRecorded(db: Db, deletions: seq<(Address, ChunkId)>) {
    forall a, id :: (a, id) in deletions ==> id !in db.chunks && (id, a) !in db.replicas
  }

  lemma DroppedRows(db: Db, fn: Filename, deletions: seq<(Address, ChunkId)>)
    requires DeletesRows(db, fn, deletions)
    ensures NoLongerRecorded(DropFile(db, fn), deletions)
    ensures forall p :: p in db.replicas && p !in DropFile(db, fn).replicas ==> (p.1, p.0) in deletions
  {
    forall p | p in db.replicas && p !in DropFile(db, fn).replicas ensures (p.1, p.0) in deletions {
      assert (p.0, p.1) in RowPairs(db, fn);
    }
    forall a, id | (a, id) in deletions
      ensures id !in DropFile(db, fn).chunks && (id, a) !in DropFile(db, fn).replicas
    {
      assert (id, a) in RowPairs(db, fn);
    }
  }

  ghost predicate StalePending(db: Db, fn: Filename, cutoff: real) {
    fn in db.files && db.files[fn].status == Pending && db.files[fn].createdAt < cutoff
  }

  /** The query never lists a committed file. */
  lemma CommittedNotStale(db: Db, fn: Filename, cutoff: real)
    requires fn in db.files && db.files[fn].status == Committed
    ensures !StalePending(db, fn, cutoff)
  {}

  /** One DELETE per name, in order. */
  ghost function DropAll(db: Db, names: seq<Filename>): Db {
    if names == [] then db else DropFile(DropAll(db, names[..|names| - 1]), names[|names| - 1])
  }

  lemma DropNext(db: Db, names: seq<Filename>, k: nat)
    requires k < |names|
    ensures DropAll(db, names[..k + 1]) == DropFile(DropAll(db, names[..k]), names[k])
  {
    assert names[..k + 1][..k] == names[..k];
  }

  /** Dropping names one after another leaves the rows of the other names as they were. */
  lemma {:induction false} DropAllIs(db: Db, names: seq<Filename>)
    requires ForeignKeys(db)
    ensures var e := DropAll(db, names);
      && e.files == db.files - Elems(names)
      && (forall id :: id in e.chunks <==> id in db.chunks && db.chunks[id].filename !in names)
      && (forall id :: id in e.chunks ==> e.chunks[id] == db.chunks[id])
      && (forall p :: p in e.replicas <==> p in db.replicas && db.chunks[p.0].filename !in names)
  {
    if names != [] {
      var rest, fn := names[..|names| - 1], names[|names| - 1];
      DropAllIs(db, rest);
      assert names == rest + [fn];
      assert Elems(names) == Elems(rest) + {fn};
      var d := DropAll(db, rest);
      forall id | id in ChunksOf(d, fn) ensures id in db.chunks && db.chunks[id].filename == fn {}
    }
  }

  ghost predicate Listed(db: Db, names: seq<Filename>, stale: seq<FileMeta>) {
    && |stale| == |names|
    && forall i :: 0 <= i < |names| ==>
         stale[i].filename == names[i] && IsChunkList(db, ChunksOf(db, names[i]), stale[i].chunks)
  }

  function ListDeletions(stale: seq<FileMeta>): seq<(Address, ChunkId)> {
    if stale == [] then [] else ListDeletions(stale[..|stale| - 1]) + Deletions(stale[|stale| - 1].chunks)
  }

  lemma {:induction false} ListDeletionsElems(db: Db, names: seq<Filename>, stale: seq<FileMeta>, a: Address,
      id: ChunkId)
    requires Listed(db, names, stale)
    ensures (a, id) in ListDeletions(stale) <==> exists fn :: fn in names && (id, a) in RowPairs(db, fn)
  {
    if stale != [] {
      hide Deletions, RowPairs, IsChunkList;
      var n := |stale| - 1;
      ListDeletionsElems(db, names[..n], stale[..n], a, id);
      DeletionsAreRows(db, names[n], stale[n].chunks);
      assert names == names[..n] + [names[n]];
    }
  }

  lemma ListedDeletions(db: Db, names: seq<Filename>, stale: seq<FileMeta>, deletions: seq<(Address, ChunkId)>)
    requires Listed(db, names, stale) && ForeignKeys(db) && deletions == ListDeletions(stale)
    ensures forall a, id :: (a, id) in deletions <==> exists fn :: fn in names && (id, a) in RowPairs(db, fn)
    ensures NoLongerRecorded(DropAll(db, names), deletions)
  {
    DropAllIs(db, names);
    forall a, id ensures (a, id) in deletions <==> exists fn :: fn in names && (id, a) in RowPairs(db, fn) {
      ListDeletionsElems(db, names, stale, a, id);
    }
  }

  lemma DeletedRows(db: Db, names: seq<Filename>, deletions: seq<(Address, ChunkId)>)
    requires ForeignKeys(db)
    requires forall a, id :: (a, id) in deletions <==> exists fn :: fn in names && (id, a) in RowPairs(db, fn)
    ensures forall a, id :: (a, id) in deletions <==> (id, a) in db.replicas && id !in DropAll(db, names).chunks
  {
    DropAllIs(db, names);
    forall a, id | (id, a) in db.replicas && id !in DropAll(db, names).chunks ensures (a, id) in deletions {
      assert (id, a) in RowPairs(db, db.chunks[id].filename);
    }
    forall a, id | (a, id) in deletions ensures (id, a) in db.replicas && id !in DropAll(db, names).chunks {
      var fn :| fn in names && (id, a) in RowPairs(db, fn);
    }
  }

  ghost predicate LiveBeforeDead(ps: seq<Placement>, live: set<Address>) {
    forall k, i, j :: 0 <= k < |ps| && 0 <= i < j < |ps[k].locations| && ps[k].locations[j] in live ==>
      ps[k].locations[i] in live
  }

  lemma PlacedLiveFirst(chunks: seq<ChunkMeta>, live: set<Address>)
    ensures LiveBeforeDead(Place(chunks, live), live)
  {
    forall k | 0 <= k < |chunks| {
      LiveFirstOrder(chunks[k].locations, live);
    }
  }

  class NamingServer {
    const store: Store
    const registry: StorageRegistry
    const replication: nat

    ghost predicate Valid()
      reads this, registry
    {
      registry.Valid() && replication > 0
    }

    constructor (store: Store, registry: StorageRegistry, replication: nat)
      requires registry.Valid() && replication > 0
      ensures Valid() && this.store == store && this.registry == registry && this.replication == replication
    {
      this.store, this.registry, this.replication := store, registry, replication;
    }

    ghost function RegistryPace(): Pace
      reads registry
    {
      Pace(registry.lastSeen, registry.cursor)
    }

    /** One pick per chunk, with other handlers at work in between; None at the first that falls short. */
    method PickAll(turns: seq<Turn>) returns (locs: Option<seq<seq<Address>>>)
      requires Valid()
      modifies registry
      ensures Valid()
      ensures locs.Some? <==> EnoughAtEach(old(RegistryPace()), replication, turns)
      ensures locs.Some? ==>
        && |locs.value| == |turns| && PlacementOk(replication, locs.value)
        && Picked(old(RegistryPace()), replication, turns, locs.value)
        && RegistryPace() == PaceAfter(old(RegistryPace()), turns, |turns|)
    {
      hide PicksDone, Picked, PickedAt, PlacementOk, PickFrom, LiveAt, Registry.Sorted, PaceAt, PaceAfter, Heard;
      var acc: seq<seq<Address>> := [];
      ghost var start := RegistryPace();
      NoPicks(start, replication, turns);
      for i := 0 to |turns|
        invariant Valid()
        invariant |acc| == i && PicksDone(start, replication, turns, acc)
        invariant RegistryPace() == PaceAfter(start, turns, i)
      {
        PaceNext(start, turns, i);
        registry.Interlude(turns[i].beats, turns[i].picks);
        ghost var p := RegistryPace();
        assert p == PaceAt(start, turns, i);
        var locations;
        ghost var live;
        locations, live := registry.Pick(replication, turns[i].time);
        PickPlaces(p, replication, turns[i].time, live, locations);
        if |locations| < replication {
          assert !EnoughAt(start, replication, turns, i);
          return None;
        }
        OnePick(start, replication, turns, acc, locations);
        acc := acc + [locations];
      }
      PicksComplete(start, replication, turns, acc);
      locs := Some(acc);
    }

    /** `first` is the clock at the first check, `turns` the turns of the placement loop; `started` is what
        the background delete thread was given. An accepted create swaps the metadata in one transaction
        and a rejected one leaves it alone; yet a rejected one has started to delete the old chunks
        exactly when the first check passed, a later pick fell short and the name had replicas. */
    method CreateFile(fn: Filename, size: int, numChunks: int, first: real, turns: seq<Turn>,
        uuids: seq<ChunkId>, now: real, rows: seq<JoinRow>)
      returns (response: CreateResponse, started: seq<(Address, ChunkId)>, ghost locs: seq<seq<Address>>)
      requires Valid() && ForeignKeys(store.Contents())
      requires |turns| == |uuids| == Span(numChunks)
      requires Distinct(uuids) && forall i :: 0 <= i < |uuids| ==> uuids[i] !in store.chunks
      requires IsJoin(store.Contents(), ChunksOf(store.Contents(), fn), rows) && OrderedByIdx(rows)
      modifies store, registry
      ensures Valid()
      ensures response.Reserved? <==>
        Enough(old(registry.lastSeen), replication, first) && EnoughAtEach(old(RegistryPace()), replication, turns)
      ensures response.Reserved? ==>
        && |locs| == |uuids| && PlacementOk(replication, locs)
        && Picked(old(RegistryPace()), replication, turns, locs)
        && response.placements == PlacementList(uuids, locs)
        && store.Contents() == Tables.CreatePending(old(store.Contents()), fn, size, numChunks,
            Layout(uuids, locs), now)
      ensures response.Reserved? ==> forall cutoff :: StalePending(store.Contents(), fn, cutoff) <==> now < cutoff
      ensures response.Reserved? && Wf(old(store.Contents())) ==> Wf(store.Contents())
      ensures response.Rejected? ==> store.Contents() == old(store.Contents())
      ensures Enough(old(registry.lastSeen), replication, first) ==> DeletesRows(old(store.Contents()), fn, started)
      ensures !Enough(old(registry.lastSeen), replication, first) ==> started == []
      ensures response.Rejected? && started != [] <==>
        && Enough(old(registry.lastSeen), replication, first) && !EnoughAtEach(old(RegistryPace()), replication, turns)
        && RowPairs(old(store.Contents()), fn) != {}
    {
      hide IsJoin, OrderedByIdx, ForeignKeys, DeletesRows, IsChunkList, Tables.CreatePending, LiveAt, Picked;
      hide PlacementOk, EnoughAtEach, RowPairs;
      locs, started := [], [];
      var live := registry.LiveServers(first);
      ElemsDistinct(live);
      if |live| < replication {
        return Rejected, [], [];
      }
      var file := store.GetFile(fn, rows);
      if file.Some? {
        DeletionsAreRows(store.Contents(), fn, file.value.chunks);
        started := Deletions(file.value.chunks);
      } else {
        NothingToDelete(store.Contents(), fn);
      }
      SomeDeletes(store.Contents(), fn, started);
      var picked := PickAll(turns);
      if picked.None? {
        return Rejected, started, [];
      }
      locs := picked.value;
      LayoutFacts(uuids, picked.value);
      CreateWf(store.Contents(), fn, size, numChunks, uuids, picked.value, now);
      store.CreatePending(fn, size, numChunks, Layout(uuids, picked.value), now);
      response := Reserved(PlacementList(uuids, picked.value));
    }

    /** Only committed files are readable; the placements carry every recorded address, live ones first. */
    method GetFile(fn: Filename, rows: seq<JoinRow>, now: real) returns (response: Option<(int, seq<Placement>)>)
      requires Valid() && Wf(store.Contents())
      requires IsJoin(store.Contents(), ChunksOf(store.Contents(), fn), rows) && OrderedByIdx(rows)
      ensures response.Some? <==> fn in store.files && store.files[fn].status == Committed
      ensures response.Some? ==>
        && response.value.0 == store.files[fn].size
        && PlacementsOf(store.Contents(), fn, response.value.1)
        && LiveBeforeDead(response.value.1, LiveAt(registry.lastSeen, now))
      ensures response.Some? ==> forall p, i, j :: p in response.value.1 && 0 <= i < j < |p.locations| ==>
        p.locations[j] in LiveAt(registry.lastSeen, now) ==> p.locations[i] in LiveAt(registry.lastSeen, now)
    {
      hide IsJoin, OrderedByIdx, IsChunkList, PlacementsOf, LiveFirst;
      var file := store.GetFile(fn, rows);
      if file.None? || file.value.status != Committed {
        return None;
      }
      var live := registry.LiveServers(now);
      PlaceIsSnapshot(store.Contents(), fn, file.value.chunks, set a | a in live);
      PlacedLiveFirst(file.value.chunks, set a | a in live);
      assert (set a | a in live) == Elems(live);
      response := Some((file.value.size, Place(file.value.chunks, set a | a in live)));
    }

    /** The metadata is dropped before any DeleteChunk is sent; the fan-out covers every replica row
        the file had. */
    method DeleteFile(fn: Filename, rows: seq<JoinRow>) returns (ok: bool, deletions: seq<(Address, ChunkId)>)
      requires Valid() && IsJoin(store.Contents(), ChunksOf(store.Contents(), fn), rows) && OrderedByIdx(rows)
      modifies store
      ensures ok <==> fn in old(store.files)
      ensures !ok ==> store.Contents() == old(store.Contents()) && deletions == []
      ensures ok ==>
        store.Contents() == DropFile(old(store.Contents()), fn) && DeletesRows(old(store.Contents()), fn, deletions)
      ensures fn !in store.files && forall g :: g in old(store.files) && g != fn ==> g in store.files
      ensures forall q :: q in deletions ==> q.1 !in store.chunks && (q.1, q.0) !in store.replicas
      ensures forall p :: p in old(store.replicas) && p !in store.replicas ==> (p.1, p.0) in deletions
    {
      hide IsJoin, OrderedByIdx, IsChunkList, DeletesRows;
      var file := store.GetFile(fn, rows);
      if file.None? {
        return false, [];
      }
      DeletionsAreRows(store.Contents(), fn, file.value.chunks);
      DroppedRows(store.Contents(), fn, Deletions(file.value.chunks));
      var _ := store.DeleteFile(fn);
      return true, Deletions(file.value.chunks);
    }

    /** A pass of the pending cleanup at time `now`: `names` is the answer to the first query, `rows` to the
        joins. It removes the files that have been pending for longer than `maxAge`, all of them and
        nothing else. */
    method CleanupPass(now: real, maxAge: real, names: seq<Filename>, rows: Filename -> seq<JoinRow>)
      returns (deletions: seq<(Address, ChunkId)>)
      requires Valid() && ForeignKeys(store.Contents())
      requires Distinct(names) && forall fn :: fn in names <==> StalePending(store.Contents(), fn, now - maxAge)
      requires forall fn :: fn in names ==>
        IsJoin(store.Contents(), ChunksOf(store.Contents(), fn), rows(fn)) && OrderedByIdx(rows(fn))
      modifies store
      ensures forall fn :: fn in store.files <==>
        && fn in old(store.files)
        && !(old(store.files)[fn].status == Pending && now - old(store.files)[fn].createdAt > maxAge)
      ensures forall fn :: fn in store.files ==> store.files[fn] == old(store.files)[fn]
      ensures forall id :: id in store.chunks <==>
        id in old(store.chunks) && old(store.chunks)[id].filename in store.files
      ensures forall id :: id in store.chunks ==> store.chunks[id] == old(store.chunks)[id]
      ensures forall p :: p in store.replicas <==> p in old(store.replicas) && p.0 in store.chunks
      ensures forall a, id :: (a, id) in deletions <==> (id, a) in old(store.replicas) && id !in store.chunks
      ensures NoLongerRecorded(store.Contents(), deletions)
    {
      ghost var db := store.Contents();
      var stale := ListStale(names, rows);
      deletions := DropListed(names, stale);
      DropAllIs(db, names);
      ListedDeletions(db, names, stale, deletions);
      DeletedRows(db, names, deletions);
    }

    method ListStale(names: seq<Filename>, rows: Filename -> seq<JoinRow>) returns (stale: seq<FileMeta>)
      requires forall fn :: fn in names ==> fn in store.files
      requires forall fn :: fn in names ==>
        IsJoin(store.Contents(), ChunksOf(store.Contents(), fn), rows(fn)) && OrderedByIdx(rows(fn))
      ensures Listed(store.Contents(), names, stale)
    {
      hide IsJoin, OrderedByIdx, IsChunkList, AscendingIndex;
      stale := [];
      for k := 0 to |names|
        invariant |stale| == k
        invariant forall i :: 0 <= i < k ==>
          stale[i].filename == names[i]
              && IsChunkList(store.Contents(), ChunksOf(store.Contents(), names[i]), stale[i].chunks)
      {
        var file := store.GetFile(names[k], rows(names[k]));
        stale := stale + [file.value];
      }
    }

    method DropListed(ghost names: seq<Filename>, stale: seq<FileMeta>) returns (deletions: seq<(Address, ChunkId)>)
      requires |stale| == |names| && forall i :: 0 <= i < |names| ==> stale[i].filename == names[i]
      modifies store
      ensures store.Contents() == DropAll(old(store.Contents()), names)
      ensures deletions == ListDeletions(stale)
    {
      hide DropFile, Deletions;
      deletions := [];
      for k := 0 to |stale|
        invariant store.Contents() == DropAll(old(store.Contents()), names[..k])
        invariant deletions == ListDeletions(stale[..k])
      {
        var _ := store.DeleteFile(stale[k].filename);
        DropNext(old(store.Contents()), names, k);
        assert stale[..k + 1][..k] == stale[..k];
        deletions := deletions + Deletions(stale[k].chunks);
      }
      assert names[..|names|] == names && stale[..|stale|] == stale;
    }

    /** `heal_once`: the live list is a pick of as many servers as were live a moment before (`first`),
        among those live at `second`; `query` is the under-replicated query for a given live set. */
    method Heal(first: real, second: real, query: set<Address> -> seq<GroupRow>, copies: Copies)
      returns (repaired: nat, ghost live: seq<Address>, ghost trace: seq<Repair>, ghost failed: set<(ChunkId, Address)>)
      requires Valid() && CleanAddresses(store.Contents())
      requires forall l: set<Address> :: IsGroups(store.Contents(), replication, l, query(l))
      modifies store, registry`cursor
      ensures Valid()
      ensures Distinct(live) && Elems(live) <= LiveAt(registry.lastSeen, second)
      ensures LiveAt(registry.lastSeen, first) == LiveAt(registry.lastSeen, second) ==>
        Elems(live) == LiveAt(registry.lastSeen, second)
      ensures ValidTrace(old(store.Contents()), replication, Elems(live), trace)
      ensures store.Contents() == ApplyTrace(old(store.Contents()), trace)
      ensures repaired == TotalDeficit(old(store.Contents()), replication, Elems(live))
                       - TotalDeficit(store.Contents(), replication, Elems(live))
      ensures (forall x :: x in trace ==> copies(x.id, x.target, x.source)) && forall f :: f in failed ==>
        exists b :: !copies(f.0, f.1, b)
      ensures |live| < replication || KnownAddresses(old(store.Contents())) <= Elems(live) ==> repaired == 0
      ensures |live| >= replication && (forall id :: CommittedChunk(old(store.Contents()), id) ==>
        |Replicas(old(store.Contents()), id)| >= replication) ==>
        PassDone(old(store.Contents()), store.Contents(), replication, Elems(live), failed)
      ensures Healable(old(store.Contents()), replication, Elems(live)) && (forall id, a, b :: copies(id, a, b)) ==>
        Converged(store.Contents(), replication, Elems(live))
    {
      hide CleanAddresses, IsGroups, LiveAt, ValidTrace, ApplyTrace, TotalDeficit, Healable, Converged, PickFrom;
      hide Registry.Sorted, PassDone, KnownAddresses, CommittedChunk;
      var before := registry.LiveServers(first);
      var list;
      ghost var sorted;
      ghost var c := registry.cursor;
      list, sorted := registry.Pick(|before|, second);
      live := list;
      PickIs(sorted, c, |before|);
      WholePick(before, sorted, list);
      repaired, trace, failed := HealOnce(store, list, replication, query(set a | a in list), copies);
    }
  }

  lemma WholePick(before: seq<Address>, live: seq<Address>, picked: seq<Address>)
    requires Distinct(before) && Distinct(live) && Distinct(picked) && Elems(picked) <= Elems(live)
    requires |picked| == if |before| < |live| then |before| else |live|
    ensures Elems(before) == Elems(live) ==> Elems(picked) == Elems(live)
  {
    ElemsDistinct(before);
    ElemsDistinct(live);
    ElemsDistinct(picked);
    if Elems(before) == Elems(live) {
      SubsetSameSize(Elems(picked), Elems(live));
    }
  }
}
