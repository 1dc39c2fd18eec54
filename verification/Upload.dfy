/** The client's write path (`create` of gfs/client/client.py): split, group by server, upload in
    batches, commit only when every batch was acknowledged. */
module Upload {
  import opened Base
  import opened Chunking
  import opened Tables
  import opened Protocol
  import opened Fetch
  import opened NamingServer

  type ChunkWrite = (ChunkId, Bytes)
  datatype Item = Item(addr: Address, id: ChunkId, data: Bytes)
  datatype Request = Request(addr: Address, batch: seq<ChunkWrite>)

  /** Whether the n-th batch sent to a server is acknowledged with ok. */
  type Acks = (Address, nat) -> bool

  // ---- the plan ----

  function Targets(p: Placement, payload: Bytes): (items: seq<Item>)
    ensures |items| == |p.locations| && forall i :: 0 <= i < |items| ==>
      items[i] == Item(p.locations[i], p.chunkId, payload)
  {
    seq(|p.locations|, i requires 0 <= i < |p.locations| => Item(p.locations[i], p.chunkId, payload))
  }

  ghost predicate InRange(ps: seq<Placement>, pieces: seq<Bytes>) {
    forall k :: 0 <= k < |ps| ==> 0 <= ps[k].index < |pieces|
  }

  /** Every copy to be written: each piece to each of the locations its placement names. */
  ghost function Plan(ps: seq<Placement>, pieces: seq<Bytes>): seq<Item>
    requires InRange(ps, pieces)
  {
    if ps == [] then [] else
      var n := |ps| - 1;
      Plan(ps[..n], pieces) + Targets(ps[n], pieces[ps[n].index])
  }

  function ForServer(items: seq<Item>, a: Address): seq<ChunkWrite> {
    if items == [] then [] else
      var n := |items| - 1;
      ForServer(items[..n], a) + if items[n].addr == a then [(items[n].id, items[n].data)] else []
  }

  lemma ForServerNext(items: seq<Item>, x: Item, a: Address)
    ensures ForServer(items + [x], a) == ForServer(items, a) + if x.addr == a then [(x.id, x.data)] else []
  {
    assert (items + [x])[..|items|] == items;
  }

  type ByAddr = map<Address, seq<ChunkWrite>>

  /** The dict the grouping loop builds: per server its writes in plan order, no empty entries. */
  ghost predicate Grouped(byAddr: ByAddr, order: seq<Address>, items: seq<Item>) {
    && Distinct(order) && (forall a :: a in order <==> a in byAddr)
    && (forall x :: x in items ==> x.addr in byAddr)
    && (forall a :: a in byAddr ==> byAddr[a] == ForServer(items, a) && byAddr[a] != [])
  }

  /** One more write for the server. */
  function Append(byAddr: ByAddr, x: Item): ByAddr {
    byAddr[x.addr := (if x.addr in byAddr then byAddr[x.addr] else []) + [(x.id, x.data)]]
  }

  lemma {:induction false} NoWrites(items: seq<Item>, a: Address)
    requires forall x :: x in items ==> x.addr != a
    ensures ForServer(items, a) == []
  {
    if items != [] {
      NoWrites(items[..|items| - 1], a);
    }
  }

  lemma SomeWrite(items: seq<Item>, a: Address)
    requires ForServer(items, a) != []
    ensures exists x :: x in items && x.addr == a
  {
    if !exists x :: x in items && x.addr == a {
      NoWrites(items, a);
    }
  }

  lemma GroupNext(byAddr: ByAddr, order: seq<Address>, items: seq<Item>, x: Item)
    requires Grouped(byAddr, order, items)
    ensures Grouped(Append(byAddr, x), if x.addr in byAddr then order else order + [x.addr], items + [x])
  {
    hide ForServer;
    forall a ensures ForServer(items + [x], a) == ForServer(items, a) + if x.addr == a then [(x.id, x.data)] else [] {
      ForServerNext(items, x, a);
    }
    if x.addr !in byAddr {
      NoWrites(items, x.addr);
    }
  }

  /** The grouping loop, with the order in which the keys were inserted. */
  method Group(ps: seq<Placement>, pieces: seq<Bytes>) returns (byAddr: ByAddr, order: seq<Address>)
    requires InRange(ps, pieces)
    ensures Grouped(byAddr, order, Plan(ps, pieces))
  {
    hide Grouped, ForServer, Append;
    byAddr, order := map[], [];
    GroupStart();
    for k := 0 to |ps|
      invariant Grouped(byAddr, order, Plan(ps[..k], pieces))
    {
      ghost var done := Plan(ps[..k], pieces);
      var payload := pieces[ps[k].index];
      ghost var targets := Targets(ps[k], payload);
      assert done + targets[..0] == done;
      for j := 0 to |ps[k].locations|
        invariant Grouped(byAddr, order, done + targets[..j])
      {
        var x := Item(ps[k].locations[j], ps[k].chunkId, payload);
        assert done + targets[..j + 1] == (done + targets[..j]) + [x];
        GroupNext(byAddr, order, done + targets[..j], x);
        order := if x.addr in byAddr then order else order + [x.addr];
        byAddr := Append(byAddr, x);
      }
      assert targets[..|targets|] == targets;
      assert ps[..k + 1][..k] == ps[..k];
    }
    assert ps[..|ps|] == ps;
  }

  lemma GroupStart()
    ensures Grouped(map[], [], [])
  {}

  // ---- one server ----

  function Batches(writes: seq<ChunkWrite>): seq<seq<ChunkWrite>> {
    Slices(writes, BATCH_SIZE)
  }

  lemma BatchNext(writes: seq<ChunkWrite>, i: nat, end: nat)
    requires i < |writes| && end == if i + BATCH_SIZE < |writes| then i + BATCH_SIZE else |writes|
    ensures Batches(writes[i..]) == [writes[i..end]] + if end < |writes| then Batches(writes[end..]) else []
  {
    if end < |writes| {
      assert writes[i..][..BATCH_SIZE] == writes[i..end];
      assert writes[i..][BATCH_SIZE..] == writes[end..];
    } else {
      assert writes[i..] == writes[i..end];
    }
  }

  lemma NoBatches()
    ensures Batches([]) == []
  {}

  /** `_upload`: the batches in order, up to and including the first that is not acknowledged. */
  method UploadTo(a: Address, writes: seq<ChunkWrite>, ack: Acks) returns (ok: bool, sent: seq<seq<ChunkWrite>>)
    ensures sent <= Batches(writes)
    ensures forall i: nat :: i < |sent| - 1 ==> ack(a, i)
    ensures ok <==> sent == Batches(writes) && forall i: nat :: i < |sent| ==> ack(a, i)
    ensures !ok ==> sent != [] && !ack(a, |sent| - 1)
  {
    hide Batches;
    sent := [];
    var i := 0;
    NoBatches();
    assert writes[0..] == writes;
    while i < |writes|
      invariant 0 <= i
      invariant Batches(writes) == sent + if i < |writes| then Batches(writes[i..]) else []
      invariant forall k: nat :: k < |sent| ==> ack(a, k)
    {
      var end := if i + BATCH_SIZE < |writes| then i + BATCH_SIZE else |writes|;
      var batch := writes[i..end];
      BatchNext(writes, i, end);
      ghost var before := sent;
      sent := sent + [batch];
      assert Batches(writes) == sent + if end < |writes| then Batches(writes[end..]) else [];
      if !ack(a, |sent| - 1) {
        return false, sent;
      }
      i := i + BATCH_SIZE;
    }
    ok := true;
  }

  // ---- all servers ----

  function Requests(a: Address, sent: seq<seq<ChunkWrite>>): (log: seq<Request>)
    ensures |log| == |sent| && forall i :: 0 <= i < |log| ==> log[i] == Request(a, sent[i])
  {
    seq(|sent|, i requires 0 <= i < |sent| => Request(a, sent[i]))
  }

  function ToItems(a: Address, writes: seq<ChunkWrite>): (items: seq<Item>)
    ensures |items| == |writes| && forall i :: 0 <= i < |items| ==> items[i] == Item(a, writes[i].0, writes[i].1)
  {
    seq(|writes|, i requires 0 <= i < |writes| => Item(a, writes[i].0, writes[i].1))
  }

  /** What a log of requests carries, copy by copy. */
  function Payloads(log: seq<Request>): seq<Item> {
    if log == [] then [] else ToItems(log[0].addr, log[0].batch) + Payloads(log[1..])
  }

  lemma {:induction false} CarriedAppend(log: seq<Request>, more: seq<Request>)
    ensures Payloads(log + more) == Payloads(log) + Payloads(more)
  {
    hide ToItems;
    if log == [] {
      assert log + more == more;
    } else {
      assert (log + more)[1..] == log[1..] + more;
      CarriedAppend(log[1..], more);
    }
  }

  /** A server's batches carry its writes, in order. */
  lemma {:induction false} CarriedBatches(a: Address, sent: seq<seq<ChunkWrite>>)
    ensures Payloads(Requests(a, sent)) == ToItems(a, Concat(sent))
  {
    if sent != [] {
      CarriedBatches(a, sent[1..]);
      assert Requests(a, sent)[1..] == Requests(a, sent[1..]);
      assert ToItems(a, sent[0] + Concat(sent[1..])) == ToItems(a, sent[0]) + ToItems(a, Concat(sent[1..]));
    }
  }

  function AtServers(items: seq<Item>, servers: set<Address>): seq<Item> {
    Filter((x: Item) => x.addr in servers, items)
  }

  lemma {:induction false} SplitServers(items: seq<Item>, servers: set<Address>, a: Address)
    requires a !in servers
    ensures multiset(AtServers(items, servers + {a}))
        == multiset(AtServers(items, servers)) + multiset(AtServers(items, {a}))
  {
    if items != [] {
      SplitServers(items[1..], servers, a);
    }
  }

  lemma {:induction false} FilterAppend(items: seq<Item>, x: Item, a: Address)
    ensures AtServers(items + [x], {a}) == AtServers(items, {a}) + if x.addr == a then [x] else []
  {
    if items != [] {
      FilterAppend(items[1..], x, a);
      assert (items + [x])[1..] == items[1..] + [x];
    }
  }

  lemma {:induction false} OneServer(items: seq<Item>, a: Address)
    ensures ToItems(a, ForServer(items, a)) == AtServers(items, {a})
  {
    if items != [] {
      var n := |items| - 1;
      OneServer(items[..n], a);
      FilterAppend(items[..n], items[n], a);
      assert items == items[..n] + [items[n]];
    }
  }

  lemma {:induction false} EveryServer(items: seq<Item>, servers: set<Address>)
    requires forall x :: x in items ==> x.addr in servers
    ensures AtServers(items, servers) == items
  {
    if items != [] {
      EveryServer(items[1..], servers);
    }
  }

  lemma {:induction false} NoServer(items: seq<Item>)
    ensures AtServers(items, {}) == []
  {
    if items != [] {
      NoServer(items[1..]);
    }
  }

  ghost predicate ServerAcked(items: seq<Item>, a: Address, ack: Acks) {
    forall i: nat :: i < |Batches(ForServer(items, a))| ==> ack(a, i)
  }

  /** Every batch of every server is acknowledged. */
  ghost predicate AllAcked(items: seq<Item>, ack: Acks) {
    forall x :: x in items ==> ServerAcked(items, x.addr, ack)
  }

  ghost predicate BatchesFit(log: seq<Request>) {
    forall q :: q in log ==> 0 < |q.batch| <= BATCH_SIZE
  }

  /** The requests of the servers visited so far: all their copies once if nothing failed, otherwise
      some of them, never twice. */
  ghost predicate Sent(items: seq<Item>, visited: set<Address>, log: seq<Request>, ok: bool, ack: Acks) {
    && BatchesFit(log)
    && multiset(Payloads(log)) <= multiset(AtServers(items, visited))
    && (ok ==> multiset(Payloads(log)) == multiset(AtServers(items, visited)))
    && (ok <==> forall a :: a in visited ==> ServerAcked(items, a, ack))
  }

  lemma PrefixCarried(a: Address, writes: seq<ChunkWrite>, sent: seq<seq<ChunkWrite>>)
    requires sent <= Batches(writes)
    ensures Payloads(Requests(a, sent)) <= ToItems(a, writes)
    ensures sent == Batches(writes) ==> Payloads(Requests(a, sent)) == ToItems(a, writes)
    ensures BatchesFit(Requests(a, sent))
  {
    CarriedBatches(a, sent);
    var all := Batches(writes);
    assert all == sent + all[|sent|..];
    ConcatAppend(sent, all[|sent|..]);
    forall q | q in Requests(a, sent) ensures 0 < |q.batch| <= BATCH_SIZE {
      var i :| 0 <= i < |sent| && q == Request(a, sent[i]);
      assert sent[i] == all[i];
    }
  }

  lemma PrefixMultiset(xs: seq<Item>, ys: seq<Item>)
    requires xs <= ys
    ensures multiset(xs) <= multiset(ys)
  {
    assert ys == xs + ys[|xs|..];
  }

  lemma SentNext(items: seq<Item>, visited: set<Address>, log: seq<Request>, ok: bool, ack: Acks, a: Address,
      ok1: bool, sent: seq<seq<ChunkWrite>>)
    requires Sent(items, visited, log, ok, ack) && a !in visited
    requires sent <= Batches(ForServer(items, a))
    requires ok1 ==> sent == Batches(ForServer(items, a))
    requires ok1 <==> ServerAcked(items, a, ack)
    ensures Sent(items, visited + {a}, log + Requests(a, sent), ok && ok1, ack)
  {
    hide ServerAcked, Batches, Payloads, AtServers, ForServer, ToItems;
    PrefixCarried(a, ForServer(items, a), sent);
    OneServer(items, a);
    PrefixMultiset(Payloads(Requests(a, sent)), AtServers(items, {a}));
    SplitServers(items, visited, a);
    CarriedAppend(log, Requests(a, sent));
  }

  /** One worker per server; each runs to its own end whether or not another fails. */
  method UploadAll(ghost items: seq<Item>, byAddr: ByAddr, order: seq<Address>, ack: Acks)
    returns (ok: bool, log: seq<Request>)
    requires Grouped(byAddr, order, items)
    ensures ok <==> AllAcked(items, ack)
    ensures BatchesFit(log) && multiset(Payloads(log)) <= multiset(items)
    ensures ok ==> multiset(Payloads(log)) == multiset(items)
  {
    hide Batches, ForServer, Sent, Payloads, AtServers, BatchesFit, AllAcked;
    ok, log := true, [];
    SentNone(items, ack);
    for k := 0 to |order|
      invariant Sent(items, Elems(order[..k]), log, ok, ack)
    {
      var a := order[k];
      var ok1, sent := UploadTo(a, byAddr[a], ack);
      assert order[..k + 1] == order[..k] + [a];
      assert Elems(order[..k + 1]) == Elems(order[..k]) + {a};
      SentNext(items, Elems(order[..k]), log, ok, ack, a, ok1, sent);
      ok, log := ok && ok1, log + Requests(a, sent);
    }
    assert order[..|order|] == order;
    SentAll(items, byAddr, order, log, ok, ack);
  }

  lemma SentNone(items: seq<Item>, ack: Acks)
    ensures Sent(items, Elems([]), [], true, ack)
  {
    NoServer(items);
    var none: seq<Address> := [];
    assert Elems(none) == {};
  }

  lemma SentAll(items: seq<Item>, byAddr: ByAddr, order: seq<Address>, log: seq<Request>, ok: bool, ack: Acks)
    requires Grouped(byAddr, order, items) && Sent(items, Elems(order), log, ok, ack)
    ensures ok <==> AllAcked(items, ack)
    ensures BatchesFit(log) && multiset(Payloads(log)) <= multiset(items)
    ensures ok ==> multiset(Payloads(log)) == multiset(items)
  {
    hide Batches, Payloads, AtServers;
    EveryServer(items, Elems(order));
    forall a | a in order ensures exists x :: x in items && x.addr == a {
      SomeWrite(items, a);
    }
  }

  // ---- what a plan is ----

  /** The copies of a plan as (chunk, address) pairs. */
  ghost function Pairs(items: seq<Item>): set<(ChunkId, Address)> {
    set x | x in items :: (x.id, x.addr)
  }

  ghost predicate PlanOf(ids: seq<ChunkId>, locs: seq<seq<Address>>, pieces: seq<Bytes>) {
    |ids| == |locs| == |pieces| && Distinct(ids)
  }

  lemma PlanRange(ids: seq<ChunkId>, locs: seq<seq<Address>>, pieces: seq<Bytes>)
    requires PlanOf(ids, locs, pieces)
    ensures InRange(PlacementList(ids, locs), pieces)
  {}

  lemma PlanNext(ids: seq<ChunkId>, locs: seq<seq<Address>>, pieces: seq<Bytes>, k: nat)
    requires PlanOf(ids, locs, pieces) && k < |ids|
    ensures InRange(PlacementList(ids, locs)[..k + 1], pieces) && InRange(PlacementList(ids, locs)[..k], pieces)
    ensures Plan(PlacementList(ids, locs)[..k + 1], pieces)
      == Plan(PlacementList(ids, locs)[..k], pieces) + Targets(Placement(k, ids[k], locs[k]), pieces[k])
  {
    var ps := PlacementList(ids, locs);
    assert ps[..k + 1][..k] == ps[..k];
  }

  /** An item of the plan is a copy of some piece under its id at one of its locations. */
  ghost predicate Planned(ids: seq<ChunkId>, locs: seq<seq<Address>>, pieces: seq<Bytes>, x: Item, i: int) {
    0 <= i < |ids| && |ids| == |locs| == |pieces| && x.id == ids[i] && x.data == pieces[i] && x.addr in locs[i]
  }

  lemma NothingPlanned(ids: seq<ChunkId>, locs: seq<seq<Address>>, pieces: seq<Bytes>, x: Item)
    requires |ids| == |locs| && InRange(PlacementList(ids, locs)[..0], pieces)
    ensures x !in Plan(PlacementList(ids, locs)[..0], pieces)
    ensures forall i :: i < 0 ==> !Planned(ids, locs, pieces, x, i)
  {}

  lemma TargetItems(ids: seq<ChunkId>, locs: seq<seq<Address>>, pieces: seq<Bytes>, k: nat, x: Item)
    requires PlanOf(ids, locs, pieces) && k < |ids|
    ensures x in Targets(Placement(k, ids[k], locs[k]), pieces[k]) <==> Planned(ids, locs, pieces, x, k)
  {
    var targets := Targets(Placement(k, ids[k], locs[k]), pieces[k]);
    if Planned(ids, locs, pieces, x, k) {
      var j :| 0 <= j < |locs[k]| && locs[k][j] == x.addr;
      assert targets[j] == x;
    }
  }

  lemma {:induction false} PlanItems(ids: seq<ChunkId>, locs: seq<seq<Address>>, pieces: seq<Bytes>, k: nat, x: Item)
    requires PlanOf(ids, locs, pieces) && k <= |ids|
    requires InRange(PlacementList(ids, locs)[..k], pieces)
    ensures x in Plan(PlacementList(ids, locs)[..k], pieces) <==> exists i :: i < k && Planned(ids, locs, pieces, x, i)
  {
    if k == 0 {
      NothingPlanned(ids, locs, pieces, x);
    } else {
      hide Plan, PlacementList, InRange, Planned, Targets;
      PlanNext(ids, locs, pieces, k - 1);
      PlanItems(ids, locs, pieces, k - 1, x);
      TargetItems(ids, locs, pieces, k - 1, x);
    }
  }

  lemma TargetsOnce(before: seq<Item>, p: Placement, payload: Bytes)
    requires Distinct(before) && Distinct(p.locations) && forall x :: x in before ==> x.id != p.chunkId
    ensures Distinct(before + Targets(p, payload))
  {
    var all := before + Targets(p, payload);
    forall i, j | 0 <= i < j < |all| ensures all[i] != all[j] {
      if i < |before| { assert all[i] in before; }
    }
  }

  /** No copy is planned twice. */
  lemma {:induction false} PlanOnce(ids: seq<ChunkId>, locs: seq<seq<Address>>, pieces: seq<Bytes>, r: nat, k: nat)
    requires PlanOf(ids, locs, pieces) && PlacementOk(r, locs) && k <= |ids|
    requires InRange(PlacementList(ids, locs)[..k], pieces)
    ensures Distinct(Plan(PlacementList(ids, locs)[..k], pieces))
  {
    hide PlacementList, InRange, Distinct;
    if k > 0 {
      PlanNext(ids, locs, pieces, k - 1);
      PlanOnce(ids, locs, pieces, r, k - 1);
      var before := Plan(PlacementList(ids, locs)[..k - 1], pieces);
      PlanIdsBefore(ids, locs, pieces, k - 1);
      TargetsOnce(before, Placement(k - 1, ids[k - 1], locs[k - 1]), pieces[k - 1]);
    } else {
      NoItems();
    }
  }

  lemma NoItems()
    ensures Distinct<Item>([])
  {}

  lemma PlanIdsBefore(ids: seq<ChunkId>, locs: seq<seq<Address>>, pieces: seq<Bytes>, k: nat)
    requires PlanOf(ids, locs, pieces) && k < |ids| && InRange(PlacementList(ids, locs)[..k], pieces)
    ensures forall x :: x in Plan(PlacementList(ids, locs)[..k], pieces) ==> x.id != ids[k]
  {
    forall x | x in Plan(PlacementList(ids, locs)[..k], pieces) ensures x.id != ids[k] {
      PlanItems(ids, locs, pieces, k, x);
    }
  }

  lemma TimesNext(r: nat, k: nat)
    ensures r * (k + 1) == r * k + r
  {}

  /** Each piece adds R copies. */
  lemma {:induction false} PlanSize(ids: seq<ChunkId>, locs: seq<seq<Address>>, pieces: seq<Bytes>, r: nat, k: nat)
    requires PlanOf(ids, locs, pieces) && PlacementOk(r, locs) && k <= |ids|
    requires InRange(PlacementList(ids, locs)[..k], pieces)
    ensures |Plan(PlacementList(ids, locs)[..k], pieces)| == r * k
  {
    if k == 0 {
      assert PlacementList(ids, locs)[..0] == [];
    } else {
      hide Plan, PlacementList, InRange, Distinct;
      PlanNext(ids, locs, pieces, k - 1);
      PlanSize(ids, locs, pieces, r, k - 1);
      TimesNext(r, k - 1);
    }
  }

  /** The plan writes each (address, chunk, payload) exactly once, R times n in all, and its pairs are
      the replica rows the naming server recorded for the file. */
  lemma PlanIsLayout(ids: seq<ChunkId>, locs: seq<seq<Address>>, pieces: seq<Bytes>, r: nat)
    requires PlanOf(ids, locs, pieces) && PlacementOk(r, locs)
    ensures InRange(PlacementList(ids, locs), pieces)
    ensures var plan := Plan(PlacementList(ids, locs), pieces);
      && Distinct(plan) && |plan| == r * |ids|
      && (forall x :: x in plan <==> exists i :: Planned(ids, locs, pieces, x, i))
      && Pairs(plan) == ReplicaRows(Layout(ids, locs))
  {
    var ps := PlacementList(ids, locs);
    PlanRange(ids, locs, pieces);
    assert ps[..|ids|] == ps;
    PlanOnce(ids, locs, pieces, r, |ids|);
    PlanSize(ids, locs, pieces, r, |ids|);
    var plan := Plan(ps, pieces);
    forall x ensures x in plan <==> exists i :: Planned(ids, locs, pieces, x, i) {
      PlanItems(ids, locs, pieces, |ids|, x);
    }
    PlanRows(ids, locs, pieces, plan);
  }

  lemma PlanRows(ids: seq<ChunkId>, locs: seq<seq<Address>>, pieces: seq<Bytes>, plan: seq<Item>)
    requires PlanOf(ids, locs, pieces) && forall x :: x in plan <==> exists i :: Planned(ids, locs, pieces, x, i)
    ensures Pairs(plan) == ReplicaRows(Layout(ids, locs))
  {
    var chunks := Layout(ids, locs);
    forall p | p in ReplicaRows(chunks) ensures p in Pairs(plan) {
      var c :| c in chunks && c.chunkId == p.0 && p.1 in c.locations;
      var i :| 0 <= i < |chunks| && chunks[i] == c;
      assert Planned(ids, locs, pieces, Item(p.1, p.0, pieces[i]), i);
    }
    forall p | p in Pairs(plan) ensures p in ReplicaRows(chunks) {
      var x :| x in plan && p == (x.id, x.addr);
      var i :| Planned(ids, locs, pieces, x, i);
      assert chunks[i] in chunks && chunks[i] == ChunkMeta(ids[i], i, locs[i]);
    }
  }

  // ---- create ----

  datatype CreateResult = Created | CreateRejected | UploadFailed | CommitFailed

  /** `create`: `response` is the naming server's answer, `commitOk` that of CommitFile. CommitFile is
      called exactly when every batch of every server was acknowledged; then each planned copy has
      been sent exactly once. Whatever fails, no copy is sent twice and no batch is oversized. */
  method Create(data: Bytes, response: CreateResponse, ack: Acks, commitOk: bool)
    returns (result: CreateResult, commitSent: bool, log: seq<Request>)
    requires response.Reserved? ==> InRange(response.placements, SplitChunks(data))
    ensures response.Rejected? ==> result == CreateRejected && !commitSent && log == []
    ensures response.Reserved? ==>
      var plan := Plan(response.placements, SplitChunks(data));
      && (commitSent <==> AllAcked(plan, ack))
      && (commitSent ==> multiset(Payloads(log)) == multiset(plan))
      && multiset(Payloads(log)) <= multiset(plan)
      && (result == UploadFailed <==> !commitSent)
    ensures result == Created <==> commitSent && commitOk
    ensures result == CommitFailed <==> commitSent && !commitOk
    ensures forall q :: q in log ==> 0 < |q.batch| <= 1024
  {
    hide AllAcked, Plan, Payloads;
    var pieces := SplitChunks(data);
    if response.Rejected? {
      return CreateRejected, false, [];
    }
    var byAddr, order := Group(response.placements, pieces);
    var ok, sent := UploadAll(Plan(response.placements, pieces), byAddr, order, ack);
    log := sent;
    if !ok {
      return UploadFailed, false, sent;
    }
    return if commitOk then Created else CommitFailed, true, sent;
  }

  /** A server acknowledges a batch only after it stored every chunk of it. */
  ghost predicate AcksStored(items: seq<Item>, ack: Acks, msgs: set<Msg>) {
    forall a, i: nat, w :: i < |Batches(ForServer(items, a))| && ack(a, i) && w in Batches(ForServer(items, a))[i] ==>
      Stored(a, w.0) in msgs
  }

  lemma {:induction false} OfServer(items: seq<Item>, a: Address, w: ChunkWrite)
    requires w in ForServer(items, a)
    ensures Item(a, w.0, w.1) in items
  {
    var n := |items| - 1;
    if w in ForServer(items[..n], a) {
      OfServer(items[..n], a, w);
    }
  }

  lemma {:induction false} InConcat(w: ChunkWrite, batches: seq<seq<ChunkWrite>>, i: nat)
    requires i < |batches| && w in batches[i]
    ensures w in Concat(batches)
  {
    if i > 0 { InConcat(w, batches[1..], i - 1); }
  }

  /** Once every planned copy is stored, no acknowledgement is premature. */
  lemma StoredAcks(items: seq<Item>, ack: Acks, msgs: set<Msg>)
    requires forall p :: p in Pairs(items) ==> Stored(p.1, p.0) in msgs
    ensures AcksStored(items, ack, msgs)
  {
    hide Batches, ForServer;
    forall a, i: nat, w | i < |Batches(ForServer(items, a))| && ack(a, i) && w in Batches(ForServer(items, a))[i]
      ensures Stored(a, w.0) in msgs
    {
      InConcat(w, Batches(ForServer(items, a)), i);
      BatchesJoin(ForServer(items, a));
      OfServer(items, a, w);
      assert (w.0, a) in Pairs(items);
    }
  }

  lemma {:induction false} InForServer(items: seq<Item>, x: Item)
    requires x in items
    ensures (x.id, x.data) in ForServer(items, x.addr)
  {
    var n := |items| - 1;
    if x != items[n] {
      var k :| 0 <= k < |items| && items[k] == x;
      assert items[..n][k] == x;
      InForServer(items[..n], x);
    }
  }

  lemma {:induction false} InSomeBatch(w: ChunkWrite, batches: seq<seq<ChunkWrite>>) returns (i: nat)
    requires w in Concat(batches)
    ensures i < |batches| && w in batches[i]
  {
    if w in batches[0] {
      i := 0;
    } else {
      var k := InSomeBatch(w, batches[1..]);
      i := k + 1;
    }
  }

  lemma BatchesJoin(writes: seq<ChunkWrite>)
    ensures Concat(Batches(writes)) == writes
  {}

  /** Every batch acknowledged means every planned copy stored. */
  lemma AckedAllStored(items: seq<Item>, ack: Acks, msgs: set<Msg>)
    requires AllAcked(items, ack) && AcksStored(items, ack, msgs)
    ensures forall p :: p in Pairs(items) ==> Stored(p.1, p.0) in msgs
  {
    hide Batches, ForServer;
    forall x | x in items ensures Stored(x.addr, x.id) in msgs {
      assert ServerAcked(items, x.addr, ack);
      InForServer(items, x);
      BatchesJoin(ForServer(items, x.addr));
      var i := InSomeBatch((x.id, x.data), Batches(ForServer(items, x.addr)));
    }
  }

  /** The placements of an accepted create fit the pieces of the client's data. */
  lemma AcceptedPlan(data: Bytes, ids: seq<ChunkId>, locs: seq<seq<Address>>)
    requires |ids| == |locs| == NumChunksForSize(|data|) && Distinct(ids)
    ensures PlanOf(ids, locs, SplitChunks(data)) && InRange(PlacementList(ids, locs), SplitChunks(data))
  {
    hide SplitChunks;
    SplitCount(data);
    PlanRange(ids, locs, SplitChunks(data));
  }

  /** When every batch of the plan was acknowledged, the protocol's commit step is enabled. */
  lemma CommitAfterAllStored(s: State, w: int, ids: seq<ChunkId>, locs: seq<seq<Address>>, pieces: seq<Bytes>,
      r: nat, ack: Acks)
    requires PlanOf(ids, locs, pieces) && PlacementOk(r, locs) && InRange(PlacementList(ids, locs), pieces)
    requires w in s.open && 0 <= w < |s.sessions| && s.sessions[w].plan == ReplicaRows(Layout(ids, locs))
    requires AllAcked(Plan(PlacementList(ids, locs), pieces), ack)
    requires AcksStored(Plan(PlacementList(ids, locs), pieces), ack, s.msgs)
    ensures Enabled(s, ByClient(Commit(w)))
  {
    hide AllAcked, AcksStored, Plan, PlacementList, Layout, Pairs, ReplicaRows;
    PlanIsLayout(ids, locs, pieces, r);
    AckedAllStored(Plan(PlacementList(ids, locs), pieces), ack, s.msgs);
  }
}
