/** The client's read loop (gfs/client/client.py): batched rounds with replica fallback. */
module Fetch {
  import opened Base
  import opened Chunking

  datatype Placement = Placement(index: int, chunkId: ChunkId, locations: seq<Address>)

  /** What a storage server says when it is asked for one chunk; None when the chunk is missing or
      the call fails. Asking is recorded, and no pair is ever asked twice, so one answer per pair
      covers servers that change, fail and return between rounds. */
  type Answers = (Address, ChunkId) -> Option<Bytes>

  type Tried = map<ChunkId, set<Address>>
  type ByAddr = map<Address, seq<ChunkId>>
  type Parts = map<ChunkId, Bytes>

  function Untried(p: Placement, tried: Tried): set<Address>
    requires p.chunkId in tried
  {
    Elems(p.locations) - tried[p.chunkId]
  }

  /** The first location that was not tried yet, if any. */
  function FirstUntried(locations: seq<Address>, tried: set<Address>): (r: Option<Address>)
    ensures r.None? <==> Elems(locations) <= tried
    ensures r.Some? ==> r.value in locations && r.value !in tried
  {
    if locations == [] then None
    else if locations[0] !in tried then Some(locations[0])
    else FirstUntried(locations[1..], tried)
  }

  /** The answer of the first location, in the order given, that has one. */
  function FirstAnswer(locations: seq<Address>, answer: Answers, id: ChunkId): (r: Option<Bytes>)
    ensures r.None? <==> forall a :: a in locations ==> answer(a, id).None?
    ensures r.Some? ==> exists a :: a in locations && answer(a, id) == r
  {
    if locations == [] then None
    else if answer(locations[0], id).Some? then answer(locations[0], id)
    else FirstAnswer(locations[1..], answer, id)
  }

  /** Some location answers before which all are silent. */
  lemma {:induction false} FirstAnswerIs(locations: seq<Address>, answer: Answers, id: ChunkId) returns (k: nat)
    requires FirstAnswer(locations, answer, id).Some?
    ensures k < |locations| && answer(locations[k], id) == FirstAnswer(locations, answer, id)
    ensures forall j :: 0 <= j < k ==> answer(locations[j], id).None?
  {
    if answer(locations[0], id).Some? {
      k := 0;
    } else {
      var n := FirstAnswerIs(locations[1..], answer, id);
      k := n + 1;
    }
  }

  /** When every tried location was silent, the first untried one decides. */
  lemma {:induction false} FirstUntriedAnswers(locations: seq<Address>, tried: set<Address>, answer: Answers,
      id: ChunkId)
    requires forall a :: a in tried ==> answer(a, id).None?
    requires FirstUntried(locations, tried).Some? && answer(FirstUntried(locations, tried).value, id).Some?
    ensures FirstAnswer(locations, answer, id) == answer(FirstUntried(locations, tried).value, id)
  {
    if locations != [] && locations[0] in tried {
      FirstUntriedAnswers(locations[1..], tried, answer, id);
    }
  }

  /** Where the first untried location stands: everything listed before it was tried. */
  lemma {:induction false} FirstUntriedPlace(locations: seq<Address>, tried: set<Address>) returns (n: nat)
    requires FirstUntried(locations, tried).Some?
    ensures n < |locations| && Some(locations[n]) == FirstUntried(locations, tried)
    ensures forall j :: 0 <= j < n ==> locations[j] in tried
  {
    if locations[0] !in tried {
      n := 0;
    } else {
      var k := FirstUntriedPlace(locations[1..], tried);
      n := k + 1;
    }
  }

  /** It is this location's turn when every location listed before it is silent. */
  ghost predicate InTurn(locations: seq<Address>, a: Address, answer: Answers, id: ChunkId) {
    exists k :: 0 <= k < |locations| && locations[k] == a && forall j :: 0 <= j < k ==> answer(locations[j], id).None?
  }

  // ---- the result the loop computes ----

  function Insert(p: Placement, ps: seq<Placement>): (r: seq<Placement>) {
    if ps == [] || p.index <= ps[0].index then [p] + ps else [ps[0]] + Insert(p, ps[1..])
  }

  /** A stable sort by index. */
  function SortByIndex(ps: seq<Placement>): (r: seq<Placement>)
    ensures multiset(r) == multiset(ps)
  {
    if ps == [] then [] else
      assert ps == [ps[0]] + ps[1..];
      InsertPerm(ps[0], SortByIndex(ps[1..]));
      Insert(ps[0], SortByIndex(ps[1..]))
  }

  lemma {:induction false} InsertPerm(p: Placement, ps: seq<Placement>)
    ensures multiset(Insert(p, ps)) == multiset([p] + ps)
  {
    if !(ps == [] || p.index <= ps[0].index) {
      InsertPerm(p, ps[1..]);
      assert ps == [ps[0]] + ps[1..];
    }
  }

  ghost predicate Ascending(ps: seq<Placement>) {
    forall i, j :: 0 <= i < j < |ps| ==> ps[i].index <= ps[j].index
  }

  lemma InsertMembers(p: Placement, ps: seq<Placement>)
    ensures forall q :: q in Insert(p, ps) ==> q == p || q in ps
  {
    InsertPerm(p, ps);
    forall q | q in Insert(p, ps) ensures q == p || q in ps {
      assert q in multiset(Insert(p, ps));
      assert q in multiset([p] + ps);
    }
  }

  lemma FirstSmallest(ps: seq<Placement>)
    requires Ascending(ps) && ps != []
    ensures Ascending(ps[1..]) && forall q :: q in ps ==> ps[0].index <= q.index
  {}

  lemma AscendingCons(p: Placement, ps: seq<Placement>)
    requires Ascending(ps) && forall q :: q in ps ==> p.index <= q.index
    ensures Ascending([p] + ps)
  {}

  lemma {:induction false} InsertAscending(p: Placement, ps: seq<Placement>)
    requires Ascending(ps)
    ensures Ascending(Insert(p, ps))
  {
    if ps == [] {
    } else if p.index <= ps[0].index {
      FirstSmallest(ps);
      AscendingCons(p, ps);
    } else {
      FirstSmallest(ps);
      assert forall q :: q in ps[1..] ==> q in ps;
      InsertAscending(p, ps[1..]);
      InsertMembers(p, ps[1..]);
      AscendingCons(ps[0], Insert(p, ps[1..]));
    }
  }

  lemma {:induction false} SortAscending(ps: seq<Placement>)
    ensures Ascending(SortByIndex(ps))
  {
    if ps != [] {
      SortAscending(ps[1..]);
      InsertAscending(ps[0], SortByIndex(ps[1..]));
    }
  }

  lemma {:induction false} SortSorted(ps: seq<Placement>)
    requires Ascending(ps)
    ensures SortByIndex(ps) == ps
  {
    if ps != [] {
      SortSorted(ps[1..]);
      assert ps == [ps[0]] + ps[1..];
    }
  }

  ghost predicate DistinctChunks(ps: seq<Placement>) {
    forall i, j :: 0 <= i < j < |ps| ==> ps[i].chunkId != ps[j].chunkId
  }

  ghost predicate Answered(ps: seq<Placement>, answer: Answers) {
    forall i :: 0 <= i < |ps| ==> FirstAnswer(ps[i].locations, answer, ps[i].chunkId).Some?
  }

  ghost function FirstAnswers(ps: seq<Placement>, answer: Answers): seq<Bytes>
    requires Answered(ps, answer)
  {
    seq(|ps|, i requires 0 <= i < |ps| => FirstAnswer(ps[i].locations, answer, ps[i].chunkId).value)
  }

  /** The read in one stroke: the first answer for every chunk, by index; an error when some chunk
      is silent at all its locations, or when a chunk id is listed twice. */
  ghost function Fetched(ps: seq<Placement>, answer: Answers): Option<seq<Bytes>> {
    if DistinctChunks(ps) && Answered(SortByIndex(ps), answer) then Some(FirstAnswers(SortByIndex(ps), answer))
        else None
  }

  // ---- one round ----

  function ChunkIds(ps: seq<Placement>): set<ChunkId> {
    set p | p in ps :: p.chunkId
  }

  ghost predicate StillWanted(p: Placement, parts: Parts, tried: Tried)
    requires p.chunkId in tried
  {
    p.chunkId !in parts && Untried(p, tried) != {}
  }

  /** What the requests of a round are: exactly the newly tried pairs, for missing chunks only. */
  ghost predicate RoundRequests(ps: seq<Placement>, parts: Parts, tried: Tried, byAddr: ByAddr, tried': Tried) {
    Grown(tried, tried') && Asked(ps, parts, tried, byAddr, tried') && TriedAsked(tried, byAddr, tried')
        && Lists(byAddr)
  }

  ghost predicate Grown(tried: Tried, tried': Tried) {
    tried'.Keys == tried.Keys && forall id :: id in tried ==> tried[id] <= tried'[id]
  }

  ghost predicate Asked(ps: seq<Placement>, parts: Parts, tried: Tried, byAddr: ByAddr, tried': Tried) {
    forall a, id :: a in byAddr && id in byAddr[a] ==>
      id in tried && id in tried' && a in tried'[id] && a !in tried[id] && id !in parts && id in ChunkIds(ps)
  }

  ghost predicate TriedAsked(tried: Tried, byAddr: ByAddr, tried': Tried) {
    forall a, id :: id in tried && id in tried' && a in tried'[id] && a !in tried[id] ==> a in byAddr && id in byAddr[a]
  }

  ghost predicate Lists(byAddr: ByAddr) {
    forall a :: a in byAddr ==> byAddr[a] != [] && Distinct(byAddr[a])
  }

  /** Every missing chunk that still has an untried location gets one step further. */
  ghost predicate Progress(p: Placement, parts: Parts, tried: Tried, tried': Tried)
    requires p.chunkId in tried && p.chunkId in tried'
  {
    StillWanted(p, parts, tried) ==> Untried(p, tried') < Untried(p, tried)
  }

  /** With distinct ids, each missing chunk asks exactly its first untried location. */
  ghost predicate AsksFirst(p: Placement, parts: Parts, tried: Tried, tried': Tried)
    requires p.chunkId in tried && p.chunkId in tried'
  {
    tried'[p.chunkId] ==
      if p.chunkId in parts || FirstUntried(p.locations, tried[p.chunkId]).None? then tried[p.chunkId]
      else tried[p.chunkId] + {FirstUntried(p.locations, tried[p.chunkId]).value}
  }

  /** One more chunk id to ask the server for. */
  function Ask(byAddr: ByAddr, a: Address, id: ChunkId): ByAddr {
    byAddr[a := (if a in byAddr then byAddr[a] else []) + [id]]
  }

  lemma AskLists(byAddr: ByAddr, a: Address, id: ChunkId)
    requires Lists(byAddr) && (a in byAddr ==> id !in byAddr[a])
    ensures Lists(Ask(byAddr, a, id))
  {}

  lemma AskMembers(byAddr: ByAddr, a: Address, id: ChunkId)
    ensures a in Ask(byAddr, a, id) && id in Ask(byAddr, a, id)[a]
    ensures forall b, x :: b in Ask(byAddr, a, id) && x in Ask(byAddr, a, id)[b] ==>
      (b in byAddr && x in byAddr[b]) || (b == a && x == id)
    ensures forall b, x :: b in byAddr && x in byAddr[b] ==> b in Ask(byAddr, a, id) && x in Ask(byAddr, a, id)[b]
  {
    assert id in Ask(byAddr, a, id)[a];
  }

  lemma AskRequests(ps: seq<Placement>, parts: Parts, tried0: Tried, byAddr: ByAddr, tried: Tried, p: Placement,
      a: Address)
    requires RoundRequests(ps, parts, tried0, byAddr, tried) && p in ps && p.chunkId in tried0
    requires p.chunkId !in parts && a !in tried[p.chunkId]
    ensures RoundRequests(ps, parts, tried0, Ask(byAddr, a, p.chunkId), tried[p.chunkId := tried[p.chunkId] + {a}])
  {
    hide Lists, ChunkIds;
    var tried' := tried[p.chunkId := tried[p.chunkId] + {a}];
    assert p.chunkId in ChunkIds(ps) by { InChunkIds(ps, p); }
    AskLists(byAddr, a, p.chunkId);
    AskMembers(byAddr, a, p.chunkId);
  }

  lemma InChunkIds(ps: seq<Placement>, p: Placement)
    requires p in ps
    ensures p.chunkId in ChunkIds(ps)
  {}

  lemma TryMore(ps: seq<Placement>, k: nat, parts: Parts, tried0: Tried, tried: Tried, tried': Tried)
    requires k < |ps| && forall i :: 0 <= i < |ps| ==>
      ps[i].chunkId in tried0 && ps[i].chunkId in tried && ps[i].chunkId in tried'
    requires forall i :: 0 <= i < k ==> Progress(ps[i], parts, tried0, tried)
    requires forall i :: 0 <= i < |ps| ==> tried0[ps[i].chunkId] <= tried[ps[i].chunkId] <= tried'[ps[i].chunkId]
    requires ps[k].chunkId in parts || Untried(ps[k], tried) == {} || Untried(ps[k], tried') < Untried(ps[k], tried)
    ensures forall i :: 0 <= i < k + 1 ==> Progress(ps[i], parts, tried0, tried')
  {
    forall i | 0 <= i < k + 1 ensures Progress(ps[i], parts, tried0, tried') {
      if i < k { assert Progress(ps[i], parts, tried0, tried); }
    }
  }

  lemma TryFirst(ps: seq<Placement>, k: nat, parts: Parts, tried0: Tried, tried: Tried, tried': Tried)
    requires k < |ps| && DistinctChunks(ps) && forall i :: 0 <= i < |ps| ==>
      ps[i].chunkId in tried0 && ps[i].chunkId in tried && ps[i].chunkId in tried'
    requires forall i :: 0 <= i < k ==> AsksFirst(ps[i], parts, tried0, tried)
    requires forall id :: id in tried' && id != ps[k].chunkId && id in tried ==> tried'[id] == tried[id]
    requires AsksFirst(ps[k], parts, tried0, tried')
    requires forall i :: k <= i < |ps| ==> tried[ps[i].chunkId] == tried0[ps[i].chunkId]
    ensures forall i :: 0 <= i < k + 1 ==> AsksFirst(ps[i], parts, tried0, tried')
    ensures forall i :: k + 1 <= i < |ps| ==> tried'[ps[i].chunkId] == tried0[ps[i].chunkId]
  {}

  method PlanRound(ps: seq<Placement>, parts: Parts, tried0: Tried)
    returns (byAddr: ByAddr, order: seq<Address>, tried: Tried)
    requires forall p :: p in ps ==> p.chunkId in tried0
    ensures RoundRequests(ps, parts, tried0, byAddr, tried)
    ensures Distinct(order) && Elems(order) == byAddr.Keys
    ensures forall i :: 0 <= i < |ps| ==> Progress(ps[i], parts, tried0, tried)
    ensures DistinctChunks(ps) ==> forall i :: 0 <= i < |ps| ==> AsksFirst(ps[i], parts, tried0, tried)
    ensures byAddr == map[] ==> forall i :: 0 <= i < |ps| ==> !StillWanted(ps[i], parts, tried0)
    ensures byAddr != map[] ==> exists i :: 0 <= i < |ps| && StillWanted(ps[i], parts, tried0)
  {
    byAddr, order, tried := map[], [], tried0;
    for k := 0 to |ps|
      invariant RoundRequests(ps, parts, tried0, byAddr, tried)
      invariant Distinct(order) && Elems(order) == byAddr.Keys
      invariant forall i :: 0 <= i < k ==> Progress(ps[i], parts, tried0, tried)
      invariant DistinctChunks(ps) ==> forall i :: 0 <= i < k ==> AsksFirst(ps[i], parts, tried0, tried)
      invariant DistinctChunks(ps) ==> forall i :: k <= i < |ps| ==> tried[ps[i].chunkId] == tried0[ps[i].chunkId]
      invariant byAddr == map[] ==> tried == tried0
      invariant byAddr != map[] ==> exists i :: 0 <= i < |ps| && StillWanted(ps[i], parts, tried0)
    {
      byAddr, order, tried := PlanOne(ps, k, parts, tried0, byAddr, order, tried);
    }
  }

  /** The body of the planning loop: the k-th placement asks its next location. */
  method PlanOne(ps: seq<Placement>, k: nat, parts: Parts, ghost tried0: Tried, byAddr0: ByAddr,
      order0: seq<Address>, before: Tried)
    returns (byAddr: ByAddr, order: seq<Address>, tried: Tried)
    requires k < |ps| && forall p :: p in ps ==> p.chunkId in tried0
    requires RoundRequests(ps, parts, tried0, byAddr0, before)
    requires Distinct(order0) && Elems(order0) == byAddr0.Keys
    requires forall i :: 0 <= i < k ==> Progress(ps[i], parts, tried0, before)
    requires DistinctChunks(ps) ==> forall i :: 0 <= i < k ==> AsksFirst(ps[i], parts, tried0, before)
    requires DistinctChunks(ps) ==> forall i :: k <= i < |ps| ==> before[ps[i].chunkId] == tried0[ps[i].chunkId]
    requires byAddr0 == map[] ==> before == tried0
    requires byAddr0 != map[] ==> exists i :: 0 <= i < |ps| && StillWanted(ps[i], parts, tried0)
    ensures RoundRequests(ps, parts, tried0, byAddr, tried)
    ensures Distinct(order) && Elems(order) == byAddr.Keys
    ensures forall i :: 0 <= i < k + 1 ==> Progress(ps[i], parts, tried0, tried)
    ensures DistinctChunks(ps) ==> forall i :: 0 <= i < k + 1 ==> AsksFirst(ps[i], parts, tried0, tried)
    ensures DistinctChunks(ps) ==> forall i :: k + 1 <= i < |ps| ==> tried[ps[i].chunkId] == tried0[ps[i].chunkId]
    ensures byAddr == map[] ==> tried == tried0
    ensures byAddr != map[] ==> exists i :: 0 <= i < |ps| && StillWanted(ps[i], parts, tried0)
  {
    hide Asked, TriedAsked, Lists, FirstUntried;
    var p := ps[k];
    byAddr, order, tried := byAddr0, order0, before;
    if p.chunkId !in parts {
      var next := FirstUntried(p.locations, tried[p.chunkId]);
      if next.Some? {
        var a := next.value;
        assert a in Untried(p, tried0) && StillWanted(p, parts, tried0);
        AskRequests(ps, parts, tried0, byAddr, tried, p, a);
        if a !in byAddr {
          order := order + [a];
        }
        tried := tried[p.chunkId := tried[p.chunkId] + {a}];
        byAddr := Ask(byAddr, a, p.chunkId);
        assert a in byAddr;
      }
    }
    TryMore(ps, k, parts, tried0, before, tried);
    if DistinctChunks(ps) {
      TryFirst(ps, k, parts, tried0, before, tried);
    }
  }

  // ---- sending a round ----

  /** The chunks of the batch that the server returned. */
  function Reply(a: Address, batch: seq<ChunkId>, answer: Answers): (r: Parts)
    ensures forall id :: id in r <==> id in batch && answer(a, id).Some?
    ensures forall id :: id in r ==> answer(a, id) == Some(r[id])
  {
    if batch == [] then map[] else
      var rest := Reply(a, batch[1..], answer);
      if answer(a, batch[0]).Some? then rest[batch[0] := answer(a, batch[0]).value] else rest
  }

  function AskPairs(a: Address, ids: seq<ChunkId>): (r: seq<(Address, ChunkId)>)
    ensures |r| == |ids| && forall i :: 0 <= i < |ids| ==> r[i] == (a, ids[i])
  {
    seq(|ids|, i requires 0 <= i < |ids| => (a, ids[i]))
  }

  /** `parts` after the requests of the servers in `sent` were answered. */
  ghost predicate Merged(parts: Parts, parts': Parts, byAddr: ByAddr, sent: set<Address>, answer: Answers) {
    && (forall id :: id in parts ==> id in parts')
    && (forall a, id :: a in sent && a in byAddr && id in byAddr[a] && answer(a, id).Some? ==> id in parts')
    && (forall id :: id in parts' ==>
          || (id in parts && parts'[id] == parts[id])
          || exists a :: a in sent && a in byAddr && id in byAddr[a] && answer(a, id) == Some(parts'[id]))
  }

  lemma MergeReply(parts: Parts, parts': Parts, byAddr: ByAddr, sent: set<Address>, answer: Answers, a: Address,
      reply: Parts)
    requires Merged(parts, parts', byAddr, sent, answer) && a in byAddr
    requires forall id :: id in reply <==> id in byAddr[a] && answer(a, id).Some?
    requires forall id :: id in reply ==> answer(a, id) == Some(reply[id])
    ensures Merged(parts, parts' + reply, byAddr, sent + {a}, answer)
  {
    forall id | id in parts' + reply
      ensures (id in parts && (parts' + reply)[id] == parts[id])
        || exists b :: b in sent + {a} && b in byAddr && id in byAddr[b] && answer(b, id) == Some((parts' + reply)[id])
    {
      if id in reply {
        assert a in sent + {a};
      } else if !(id in parts && parts'[id] == parts[id]) {
        var b :| b in sent && b in byAddr && id in byAddr[b] && answer(b, id) == Some(parts'[id]);
        assert b in sent + {a};
      }
    }
  }

  /** One server's requests, in batches of at most BATCH_SIZE chunk ids. */
  method AskServer(a: Address, ids: seq<ChunkId>, answer: Answers) returns (reply: Parts, sent: seq<seq<ChunkId>>)
    ensures forall id :: id in reply <==> id in ids && answer(a, id).Some?
    ensures forall id :: id in reply ==> answer(a, id) == Some(reply[id])
    ensures Concat(sent) == ids && forall k :: 0 <= k < |sent| ==> 0 < |sent[k]| <= 1024
  {
    sent := ChunkIdBatches(ids);
    reply := map[];
    for k := 0 to |sent|
      invariant forall id :: id in reply <==> id in Concat(sent[..k]) && answer(a, id).Some?
      invariant forall id :: id in reply ==> answer(a, id) == Some(reply[id])
    {
      assert sent[..k + 1] == sent[..k] + [sent[k]];
      ConcatAppend(sent[..k], [sent[k]]);
      assert Concat([sent[k]]) == sent[k];
      reply := reply + Reply(a, sent[k], answer);
    }
    assert sent[..|sent|] == sent;
  }

  method SendRound(byAddr: ByAddr, order: seq<Address>, parts: Parts, answer: Answers)
    returns (parts': Parts, log: seq<(Address, ChunkId)>)
    requires Distinct(order) && Elems(order) == byAddr.Keys && Lists(byAddr)
    ensures Merged(parts, parts', byAddr, byAddr.Keys, answer)
    ensures Distinct(log) && forall q :: q in log <==> q.0 in byAddr && q.1 in byAddr[q.0]
  {
    parts', log := parts, [];
    for k := 0 to |order|
      invariant Merged(parts, parts', byAddr, Elems(order[..k]), answer)
      invariant Distinct(log) && forall q :: q in log <==> q.0 in order[..k] && q.0 in byAddr && q.1 in byAddr[q.0]
    {
      var a := order[k];
      assert a in Elems(order);
      var reply, sent := AskServer(a, byAddr[a], answer);
      MergeReply(parts, parts', byAddr, Elems(order[..k]), answer, a, reply);
      assert Elems(order[..k + 1]) == Elems(order[..k]) + {a};
      parts' := parts' + reply;
      LogServer(log, a, byAddr[a], order[..k]);
      log := log + AskPairs(a, byAddr[a]);
    }
    assert order[..|order|] == order;
  }

  lemma LogServer(log: seq<(Address, ChunkId)>, a: Address, ids: seq<ChunkId>, done: seq<Address>)
    requires Distinct(log) && Distinct(ids) && a !in done && forall q :: q in log ==> q.0 in done
    ensures Distinct(log + AskPairs(a, ids))
    ensures forall q :: q in log + AskPairs(a, ids) <==> q in log || (q.0 == a && q.1 in ids)
  {
    forall id | id in ids ensures (a, id) in log + AskPairs(a, ids) {
      var i :| 0 <= i < |ids| && ids[i] == id;
      assert (log + AskPairs(a, ids))[|log| + i] == (a, id);
    }
    forall q | q in log ensures q in log + AskPairs(a, ids) {}
  }

  // ---- whose turn it was ----

  /** The chunk asked its first `m` listed locations: all were silent, or all but the last when it is in
      hand. */
  ghost predicate AskedFirst(p: Placement, parts: Parts, tried: Tried, answer: Answers, m: nat)
    requires p.chunkId in tried
  {
    && m <= |p.locations| && tried[p.chunkId] == Elems(p.locations[..m])
    && (p.chunkId in parts ==> m > 0 && answer(p.locations[m - 1], p.chunkId).Some?)
    && forall j :: 0 <= j < (if p.chunkId in parts then m - 1 else m) ==> answer(p.locations[j], p.chunkId).None?
  }

  ghost predicate AskedInOrder(p: Placement, parts: Parts, tried: Tried, answer: Answers) {
    p.chunkId in tried && exists m: nat :: AskedFirst(p, parts, tried, answer, m)
  }

  ghost predicate InOrder(ps: seq<Placement>, parts: Parts, tried: Tried, answer: Answers) {
    forall i :: 0 <= i < |ps| ==> AskedInOrder(ps[i], parts, tried, answer)
  }

  lemma PrefixReaches(xs: seq<Address>, m: nat, k: nat)
    requires m <= |xs| && k < |xs| && xs[k] !in Elems(xs[..m]) && forall j :: 0 <= j < k ==> xs[j] in Elems(xs[..m])
    ensures Elems(xs[..k + 1]) == Elems(xs[..m]) + {xs[k]}
  {
    forall j | 0 <= j < m ensures xs[j] in Elems(xs[..m]) { assert xs[..m][j] == xs[j]; }
    assert xs[..m] == xs[..k + 1][..m];
    forall a | a in xs[..k + 1] ensures a in Elems(xs[..m]) + {xs[k]} {
      var j :| 0 <= j < k + 1 && xs[..k + 1][j] == a;
    }
    assert xs[..k + 1][k] == xs[k];
  }

  lemma PrefixSilent(xs: seq<Address>, m: nat, k: nat, answer: Answers, id: ChunkId)
    requires m <= |xs| && k < |xs| && forall j :: 0 <= j < k ==> xs[j] in Elems(xs[..m])
    requires forall j :: 0 <= j < m ==> answer(xs[j], id).None?
    ensures forall j :: 0 <= j < k ==> answer(xs[j], id).None?
  {
    forall j | 0 <= j < k ensures answer(xs[j], id).None? {
      var i :| 0 <= i < m && xs[..m][i] == xs[j];
    }
  }

  lemma OneMoreAsked(p: Placement, parts: Parts, tried: Tried, parts': Parts, tried': Tried, answer: Answers, m: nat)
    returns (n: nat)
    requires p.chunkId in tried && p.chunkId in tried' && AskedFirst(p, parts, tried, answer, m)
    requires AsksFirst(p, parts, tried, tried') && p.chunkId !in parts
    requires FirstUntried(p.locations, tried[p.chunkId]).Some?
    requires p.chunkId in parts' <==> answer(FirstUntried(p.locations, tried[p.chunkId]).value, p.chunkId).Some?
    ensures AskedFirst(p, parts', tried', answer, n)
  {
    hide Elems, FirstUntried;
    var k := FirstUntriedPlace(p.locations, tried[p.chunkId]);
    n := k + 1;
    PrefixReaches(p.locations, m, k);
    PrefixSilent(p.locations, m, k, answer, p.chunkId);
  }

  /** The part of a chunk that was missing arrives exactly when its next location answers. */
  lemma ArrivesWhenAnswered(ps: seq<Placement>, p: Placement, parts: Parts, parts': Parts, tried: Tried, tried': Tried,
      byAddr: ByAddr, answer: Answers)
    requires Asked(ps, parts, tried, byAddr, tried') && TriedAsked(tried, byAddr, tried')
    requires Merged(parts, parts', byAddr, byAddr.Keys, answer)
    requires p.chunkId in tried && p.chunkId in tried' && p.chunkId !in parts && AsksFirst(p, parts, tried, tried')
    ensures FirstUntried(p.locations, tried[p.chunkId]).None? ==> p.chunkId !in parts'
    ensures FirstUntried(p.locations, tried[p.chunkId]).Some? ==>
      (p.chunkId in parts' <==> answer(FirstUntried(p.locations, tried[p.chunkId]).value, p.chunkId).Some?)
  {
    hide FirstUntried;
    if p.chunkId in parts' {
      var a := AnsweredNow(ps, parts, parts', tried, tried', byAddr, answer, p.chunkId);
    }
  }

  lemma RoundInOrder(ps: seq<Placement>, parts: Parts, parts': Parts, tried: Tried, tried': Tried, byAddr: ByAddr,
      answer: Answers)
    requires RoundRequests(ps, parts, tried, byAddr, tried') && Merged(parts, parts', byAddr, byAddr.Keys, answer)
    requires forall i :: 0 <= i < |ps| ==> ps[i].chunkId in tried && AsksFirst(ps[i], parts, tried, tried')
    requires InOrder(ps, parts, tried, answer)
    ensures InOrder(ps, parts', tried', answer)
  {
    hide Asked, Merged, TriedAsked, Lists, AsksFirst, AskedInOrder;
    forall i | 0 <= i < |ps| ensures AskedInOrder(ps[i], parts', tried', answer) {
      OneInOrder(ps, ps[i], parts, parts', tried, tried', byAddr, answer);
    }
  }

  lemma OneInOrder(ps: seq<Placement>, p: Placement, parts: Parts, parts': Parts, tried: Tried, tried': Tried,
      byAddr: ByAddr, answer: Answers)
    requires Asked(ps, parts, tried, byAddr, tried') && TriedAsked(tried, byAddr, tried')
    requires Merged(parts, parts', byAddr, byAddr.Keys, answer)
    requires p.chunkId in tried && p.chunkId in tried' && AsksFirst(p, parts, tried, tried')
    requires AskedInOrder(p, parts, tried, answer)
    ensures AskedInOrder(p, parts', tried', answer)
  {
    hide Asked, Merged, TriedAsked, AsksFirst, AskedFirst, FirstUntried;
    var m: nat :| AskedFirst(p, parts, tried, answer, m);
    if p.chunkId in parts {
      HeldAlready(ps, parts, parts', tried, tried', byAddr, answer, p.chunkId);
      SameAsked(p, parts, tried, parts', tried', answer, m);
    } else {
      ArrivesWhenAnswered(ps, p, parts, parts', tried, tried', byAddr, answer);
      if FirstUntried(p.locations, tried[p.chunkId]).Some? {
        var n := OneMoreAsked(p, parts, tried, parts', tried', answer, m);
      } else {
        SameAsked(p, parts, tried, parts', tried', answer, m);
      }
    }
  }

  lemma SameAsked(p: Placement, parts: Parts, tried: Tried, parts': Parts, tried': Tried, answer: Answers, m: nat)
    requires p.chunkId in tried && p.chunkId in tried' && AskedFirst(p, parts, tried, answer, m)
    requires AsksFirst(p, parts, tried, tried') && (p.chunkId in parts <==> p.chunkId in parts')
    requires p.chunkId in parts || FirstUntried(p.locations, tried[p.chunkId]).None?
    ensures AskedFirst(p, parts', tried', answer, m)
  {}

  /** At the end each chunk asked exactly the locations whose turn it was. */
  lemma AskedInTurn(p: Placement, parts: Parts, tried: Tried, answer: Answers, a: Address)
    requires p.chunkId in tried && (p.chunkId in parts || Untried(p, tried) == {})
    requires AskedInOrder(p, parts, tried, answer)
    ensures a in tried[p.chunkId] <==> InTurn(p.locations, a, answer, p.chunkId)
  {
    var m: nat :| AskedFirst(p, parts, tried, answer, m);
    if a in tried[p.chunkId] {
      var k :| 0 <= k < m && p.locations[..m][k] == a;
      assert p.locations[k] == a;
    }
    if InTurn(p.locations, a, answer, p.chunkId) {
      var k :| 0 <= k < |p.locations| && p.locations[k] == a
          && forall j :: 0 <= j < k ==> answer(p.locations[j], p.chunkId).None?;
      if p.chunkId in parts {
        assert k < m;
        assert p.locations[..m][k] == a;
      } else {
        assert a !in Untried(p, tried);
      }
    }
  }

  // ---- the loop ----

  /** Why the loop ends: the (chunk, location) pairs that were never asked. */
  ghost function Remaining(ps: seq<Placement>, tried: Tried): nat
    requires forall p :: p in ps ==> p.chunkId in tried
  {
    if ps == [] then 0 else |Untried(ps[0], tried)| + Remaining(ps[1..], tried)
  }

  lemma {:induction false} RemainingDrops(ps: seq<Placement>, tried: Tried, tried': Tried)
    requires forall p :: p in ps ==> p.chunkId in tried && p.chunkId in tried' && tried[p.chunkId] <= tried'[p.chunkId]
    ensures Remaining(ps, tried') <= Remaining(ps, tried)
    ensures (exists i :: 0 <= i < |ps| && Untried(ps[i], tried') < Untried(ps[i], tried)) ==>
      Remaining(ps, tried') < Remaining(ps, tried)
  {
    if ps != [] {
      RemainingDrops(ps[1..], tried, tried');
      SubsetSize(Untried(ps[0], tried'), Untried(ps[0], tried));
      if Untried(ps[0], tried') < Untried(ps[0], tried) {
        var a :| a in Untried(ps[0], tried) && a !in Untried(ps[0], tried');
        SubsetSize(Untried(ps[0], tried'), Untried(ps[0], tried) - {a});
      }
    }
  }

  /** Silence so far: a missing chunk got no answer from any location it tried. */
  ghost predicate Silent(ps: seq<Placement>, parts: Parts, tried: Tried, answer: Answers) {
    forall id, a :: id in tried && id !in parts && a in tried[id] ==> answer(a, id).None?
  }

  ghost predicate FirstAnswersHeld(ps: seq<Placement>, parts: Parts, answer: Answers) {
    forall i :: 0 <= i < |ps| && ps[i].chunkId in parts ==>
      FirstAnswer(ps[i].locations, answer, ps[i].chunkId) == Some(parts[ps[i].chunkId])
  }

  /** After n rounds a missing chunk has at most max(0, |locations| - n) untried locations. */
  ghost predicate RoundsCounted(ps: seq<Placement>, parts: Parts, tried: Tried, n: nat) {
    && (forall i :: 0 <= i < |ps| ==> ps[i].chunkId in tried)
    && (forall i :: 0 <= i < |ps| && ps[i].chunkId !in parts && Untried(ps[i], tried) != {} ==>
          |Untried(ps[i], tried)| + n <= |ps[i].locations|)
  }

  lemma RoundSilent(ps: seq<Placement>, parts: Parts, parts': Parts, tried: Tried, tried': Tried,
      byAddr: ByAddr, answer: Answers)
    requires RoundRequests(ps, parts, tried, byAddr, tried') && Merged(parts, parts', byAddr, byAddr.Keys, answer)
    requires Silent(ps, parts, tried, answer)
    ensures Silent(ps, parts', tried', answer)
  {}

  /** Who answered for a chunk that was missing before the round: the server it was newly asked of. */
  lemma AnsweredNow(ps: seq<Placement>, parts: Parts, parts': Parts, tried: Tried, tried': Tried, byAddr: ByAddr,
      answer: Answers, id: ChunkId)
    returns (a: Address)
    requires Asked(ps, parts, tried, byAddr, tried') && Merged(parts, parts', byAddr, byAddr.Keys, answer)
    requires id in parts' && id !in parts
    ensures id in tried && id in tried' && a in tried'[id] && a !in tried[id] && answer(a, id) == Some(parts'[id])
  {
    a :| a in byAddr.Keys && a in byAddr && id in byAddr[a] && answer(a, id) == Some(parts'[id]);
  }

  /** A part in hand stays what it was: missing chunks only are asked for. */
  lemma HeldAlready(ps: seq<Placement>, parts: Parts, parts': Parts, tried: Tried, tried': Tried, byAddr: ByAddr,
      answer: Answers, id: ChunkId)
    requires Asked(ps, parts, tried, byAddr, tried') && Merged(parts, parts', byAddr, byAddr.Keys, answer)
    requires id in parts
    ensures id in parts' && parts'[id] == parts[id]
  {}

  lemma FirstNow(p: Placement, parts: Parts, tried: Tried, tried': Tried, answer: Answers, a: Address)
    requires p.chunkId in tried && p.chunkId in tried' && p.chunkId !in parts && AsksFirst(p, parts, tried, tried')
    requires a in tried'[p.chunkId] && a !in tried[p.chunkId] && answer(a, p.chunkId).Some?
    requires forall b :: b in tried[p.chunkId] ==> answer(b, p.chunkId).None?
    ensures FirstAnswer(p.locations, answer, p.chunkId) == answer(a, p.chunkId)
  {
    FirstUntriedAnswers(p.locations, tried[p.chunkId], answer, p.chunkId);
  }

  /** A chunk answered in this round holds the answer of its first location that has one. */
  lemma RoundFirst(ps: seq<Placement>, parts: Parts, parts': Parts, tried: Tried, tried': Tried, byAddr: ByAddr,
      answer: Answers)
    requires forall p :: p in ps ==> p.chunkId in tried
    requires RoundRequests(ps, parts, tried, byAddr, tried') && Merged(parts, parts', byAddr, byAddr.Keys, answer)
    requires forall i :: 0 <= i < |ps| ==> AsksFirst(ps[i], parts, tried, tried')
    requires Silent(ps, parts, tried, answer) && FirstAnswersHeld(ps, parts, answer)
    ensures FirstAnswersHeld(ps, parts', answer)
  {
    hide Asked, Merged, TriedAsked, Lists, AsksFirst, FirstAnswer;
    forall i | 0 <= i < |ps| && ps[i].chunkId in parts'
      ensures FirstAnswer(ps[i].locations, answer, ps[i].chunkId) == Some(parts'[ps[i].chunkId])
    {
      var id := ps[i].chunkId;
      if id in parts {
        HeldAlready(ps, parts, parts', tried, tried', byAddr, answer, id);
      } else {
        var a := AnsweredNow(ps, parts, parts', tried, tried', byAddr, answer, id);
        FirstNow(ps[i], parts, tried, tried', answer, a);
      }
    }
  }

  lemma RoundCounts(ps: seq<Placement>, parts: Parts, parts': Parts, tried: Tried, tried': Tried, n: nat)
    requires Grown(tried, tried') && parts.Keys <= parts'.Keys
    requires forall i :: 0 <= i < |ps| ==> ps[i].chunkId in tried && Progress(ps[i], parts, tried, tried')
    requires RoundsCounted(ps, parts, tried, n)
    ensures RoundsCounted(ps, parts', tried', n + 1)
  {
    forall i | 0 <= i < |ps| && ps[i].chunkId !in parts' && Untried(ps[i], tried') != {}
      ensures |Untried(ps[i], tried')| + n + 1 <= |ps[i].locations|
    {
      assert Progress(ps[i], parts, tried, tried');
      var a :| a in Untried(ps[i], tried) && a !in Untried(ps[i], tried');
      SubsetSize(Untried(ps[i], tried'), Untried(ps[i], tried) - {a});
    }
  }

  function IdList(ps: seq<Placement>): (ids: seq<ChunkId>)
    ensures |ids| == |ps| && forall i :: 0 <= i < |ps| ==> ids[i] == ps[i].chunkId
  {
    seq(|ps|, i requires 0 <= i < |ps| => ps[i].chunkId)
  }

  lemma IdListElems(ps: seq<Placement>)
    ensures Elems(IdList(ps)) == ChunkIds(ps)
  {
    forall p | p in ps ensures p.chunkId in IdList(ps) {
      var i :| 0 <= i < |ps| && ps[i] == p;
      assert IdList(ps)[i] == p.chunkId;
    }
  }

  lemma DistinctChunksIff(ps: seq<Placement>)
    ensures |ChunkIds(ps)| <= |ps|
    ensures DistinctChunks(ps) <==> |ChunkIds(ps)| == |ps|
  {
    IdListElems(ps);
    ElemsBound(IdList(ps));
    DistinctIffElems(IdList(ps));
  }

  /** All chunks are in hand exactly when as many parts as placements are, and no id was doubled. */
  lemma PartsFull(ps: seq<Placement>, parts: Parts)
    requires parts.Keys <= ChunkIds(ps)
    ensures |parts| <= |ps|
    ensures |parts| == |ps| <==> DistinctChunks(ps) && parts.Keys == ChunkIds(ps)
  {
    assert |parts| == |parts.Keys|;
    DistinctChunksIff(ps);
    SubsetSize(parts.Keys, ChunkIds(ps));
    if |parts| == |ps| {
      SubsetSameSize(parts.Keys, ChunkIds(ps));
    }
  }

  lemma SortedAnswered(ps: seq<Placement>, answer: Answers)
    ensures Answered(SortByIndex(ps), answer) ==> Answered(ps, answer)
  {
    SortedMembers(ps);
    if Answered(SortByIndex(ps), answer) {
      forall i | 0 <= i < |ps| ensures FirstAnswer(ps[i].locations, answer, ps[i].chunkId).Some? {
        assert ps[i] in SortByIndex(ps);
      }
    }
  }

  datatype Result = Ok(parts: seq<Bytes>) | Unavailable(missing: set<ChunkId>)

  /** What the loop knows between rounds. */
  ghost predicate LoopInv(ps: seq<Placement>, parts: Parts, tried: Tried, answer: Answers,
      log: seq<(Address, ChunkId)>, rounds: nat) {
    && tried.Keys == ChunkIds(ps) && parts.Keys <= ChunkIds(ps)
    && Silent(ps, parts, tried, answer)
    && (DistinctChunks(ps) ==> FirstAnswersHeld(ps, parts, answer) && InOrder(ps, parts, tried, answer))
    && Distinct(log) && (forall q :: q in log <==> q.1 in tried && q.0 in tried[q.1])
    && RoundsCounted(ps, parts, tried, rounds)
    && (rounds == 0 || exists i :: 0 <= i < |ps| && rounds <= |ps[i].locations|)
  }

  lemma RoundKeeps(ps: seq<Placement>, parts: Parts, parts': Parts, tried: Tried, tried': Tried, byAddr: ByAddr,
      answer: Answers,
                   log: seq<(Address, ChunkId)>, more: seq<(Address, ChunkId)>, rounds: nat)
    requires LoopInv(ps, parts, tried, answer, log, rounds)
    requires RoundRequests(ps, parts, tried, byAddr, tried') && Merged(parts, parts', byAddr, byAddr.Keys, answer)
    requires forall i :: 0 <= i < |ps| ==> Progress(ps[i], parts, tried, tried')
    requires DistinctChunks(ps) ==> forall i :: 0 <= i < |ps| ==> AsksFirst(ps[i], parts, tried, tried')
    requires exists i :: 0 <= i < |ps| && StillWanted(ps[i], parts, tried)
    requires Distinct(more) && forall q :: q in more <==> q.0 in byAddr && q.1 in byAddr[q.0]
    ensures LoopInv(ps, parts', tried', answer, log + more, rounds + 1)
  {
    hide Silent, FirstAnswersHeld, Progress, AsksFirst, TriedAsked, Lists, Merged, Asked, RoundsCounted, Untried;
    hide StillWanted, InOrder;
    RoundSilent(ps, parts, parts', tried, tried', byAddr, answer);
    if DistinctChunks(ps) {
      RoundFirst(ps, parts, parts', tried, tried', byAddr, answer);
      RoundInOrder(ps, parts, parts', tried, tried', byAddr, answer);
    }
    RoundParts(ps, parts, parts', tried, tried', byAddr, answer);
    RoundCounts(ps, parts, parts', tried, tried', rounds);
    LogRound(log, more, tried, tried', byAddr, ps, parts);
    RoundBound(ps, parts, tried, rounds);
  }

  /** A round happens only while some chunk still has a location to try. */
  lemma RoundBound(ps: seq<Placement>, parts: Parts, tried: Tried, rounds: nat)
    requires RoundsCounted(ps, parts, tried, rounds)
    requires exists i :: 0 <= i < |ps| && StillWanted(ps[i], parts, tried)
    ensures exists i :: 0 <= i < |ps| && rounds + 1 <= |ps[i].locations|
  {
    var i :| 0 <= i < |ps| && StillWanted(ps[i], parts, tried);
    var a :| a in Untried(ps[i], tried);
    SubsetSize({a}, Untried(ps[i], tried));
  }

  lemma RoundParts(ps: seq<Placement>, parts: Parts, parts': Parts, tried: Tried, tried': Tried, byAddr: ByAddr,
      answer: Answers)
    requires parts.Keys <= ChunkIds(ps) && Asked(ps, parts, tried, byAddr, tried')
    requires Merged(parts, parts', byAddr, byAddr.Keys, answer)
    ensures parts'.Keys <= ChunkIds(ps) && parts.Keys <= parts'.Keys
  {}

  lemma LogRound(log: seq<(Address, ChunkId)>, more: seq<(Address, ChunkId)>, tried: Tried, tried': Tried,
      byAddr: ByAddr, ps: seq<Placement>, parts: Parts)
    requires Distinct(log) && forall q :: q in log <==> q.1 in tried && q.0 in tried[q.1]
    requires Distinct(more) && forall q :: q in more <==> q.0 in byAddr && q.1 in byAddr[q.0]
    requires Grown(tried, tried') && Asked(ps, parts, tried, byAddr, tried') && TriedAsked(tried, byAddr, tried')
    ensures Distinct(log + more) && forall q :: q in log + more <==> q.1 in tried' && q.0 in tried'[q.1]
  {
    forall q | q in more ensures q !in log {}
  }

  /** The fetched parts in the order of the sorted placements. */
  function PartsOf(sorted: seq<Placement>, parts: Parts): (r: seq<Bytes>)
    requires forall p :: p in sorted ==> p.chunkId in parts
    ensures |r| == |sorted| && forall i :: 0 <= i < |r| ==> r[i] == parts[sorted[i].chunkId]
  {
    seq(|sorted|, i requires 0 <= i < |sorted| => parts[sorted[i].chunkId])
  }

  lemma PartsAreFirstAnswers(sorted: seq<Placement>, parts: Parts, answer: Answers)
    requires forall p :: p in sorted ==>
      p.chunkId in parts && FirstAnswer(p.locations, answer, p.chunkId) == Some(parts[p.chunkId])
    ensures Answered(sorted, answer) && FirstAnswers(sorted, answer) == PartsOf(sorted, parts)
  {
    forall i | 0 <= i < |sorted|
      ensures FirstAnswer(sorted[i].locations, answer, sorted[i].chunkId) == Some(parts[sorted[i].chunkId])
    {
      assert sorted[i] in sorted;
    }
  }

  lemma SortedMembers(ps: seq<Placement>)
    ensures forall p :: p in SortByIndex(ps) <==> p in ps
  {
    forall p ensures p in SortByIndex(ps) <==> p in ps {
      assert p in SortByIndex(ps) <==> p in multiset(SortByIndex(ps));
    }
  }

  lemma Finished(ps: seq<Placement>, parts: Parts, answer: Answers)
    requires FirstAnswersHeld(ps, parts, answer) && DistinctChunks(ps) && parts.Keys == ChunkIds(ps)
    ensures forall p :: p in SortByIndex(ps) ==> p.chunkId in parts
    ensures Fetched(ps, answer) == Some(PartsOf(SortByIndex(ps), parts))
  {
    SortedMembers(ps);
    forall p | p in ps
      ensures p.chunkId in parts && FirstAnswer(p.locations, answer, p.chunkId) == Some(parts[p.chunkId])
    {
      var k :| 0 <= k < |ps| && ps[k] == p;
      assert p.chunkId in ChunkIds(ps);
    }
    PartsAreFirstAnswers(SortByIndex(ps), parts, answer);
  }

  /** The chunks reported missing are those no location has, when no id is listed twice. */
  ghost predicate MissingExactly(ps: seq<Placement>, answer: Answers, missing: set<ChunkId>) {
    DistinctChunks(ps) ==>
      forall i :: 0 <= i < |ps| ==> (ps[i].chunkId in missing <==>
        FirstAnswer(ps[i].locations, answer, ps[i].chunkId).None?)
  }

  lemma SilentEverywhere(p: Placement, ps: seq<Placement>, parts: Parts, tried: Tried, answer: Answers)
    requires Silent(ps, parts, tried, answer) && p.chunkId in tried && p.chunkId !in parts
    requires !StillWanted(p, parts, tried)
    ensures FirstAnswer(p.locations, answer, p.chunkId).None?
  {
    forall a | a in p.locations ensures answer(a, p.chunkId).None? {
      assert a !in Untried(p, tried);
    }
  }

  lemma Stuck(ps: seq<Placement>, parts: Parts, tried: Tried, answer: Answers, log: seq<(Address, ChunkId)>,
      rounds: nat)
    requires LoopInv(ps, parts, tried, answer, log, rounds) && |parts| < |ps|
    requires forall i :: 0 <= i < |ps| ==> !StillWanted(ps[i], parts, tried)
    ensures Fetched(ps, answer).None?
    ensures MissingExactly(ps, answer, ChunkIds(ps) - parts.Keys)
  {
    hide InOrder, FirstAnswer, StillWanted, RoundsCounted, Silent;
    forall i | 0 <= i < |ps| ensures ps[i].chunkId in ChunkIds(ps) {}
    forall i | 0 <= i < |ps| && ps[i].chunkId !in parts
      ensures FirstAnswer(ps[i].locations, answer, ps[i].chunkId).None?
    {
      SilentEverywhere(ps[i], ps, parts, tried, answer);
    }
    PartsFull(ps, parts);
    SortedAnswered(ps, answer);
    if DistinctChunks(ps) {
      var id :| id in ChunkIds(ps) && id !in parts;
      var p :| p in ps && p.chunkId == id;
      var i :| 0 <= i < |ps| && ps[i] == p;
    }
  }

  lemma NoneAsked(p: Placement, tried: Tried, answer: Answers)
    requires p.chunkId in tried && tried[p.chunkId] == {}
    ensures AskedInOrder(p, map[], tried, answer)
  {
    assert p.locations[..0] == [];
    assert AskedFirst(p, map[], tried, answer, 0);
  }

  lemma Start(ps: seq<Placement>, tried: Tried, answer: Answers)
    requires tried.Keys == ChunkIds(ps) && forall id :: id in tried ==> tried[id] == {}
    ensures LoopInv(ps, map[], tried, answer, [], 0)
  {
    forall i | 0 <= i < |ps| ensures AskedInOrder(ps[i], map[], tried, answer) {
      assert ps[i] in ps;
      NoneAsked(ps[i], tried, answer);
    }
    forall i | 0 <= i < |ps|
      ensures ps[i].chunkId in tried && |Untried(ps[i], tried)| <= |ps[i].locations|
    {
      assert ps[i] in ps;
      ElemsBound(ps[i].locations);
    }
  }

  /** With distinct ids the servers asked for a chunk are those whose turn it was, and nothing else was
      asked. */
  ghost predicate AskedExactly(ps: seq<Placement>, answer: Answers, log: seq<(Address, ChunkId)>) {
    && (forall q :: q in log ==> q.1 in ChunkIds(ps))
    && (DistinctChunks(ps) ==> forall i, a :: 0 <= i < |ps| ==>
          ((a, ps[i].chunkId) in log <==> InTurn(ps[i].locations, a, answer, ps[i].chunkId)))
  }

  lemma LoopAsked(ps: seq<Placement>, parts: Parts, tried: Tried, answer: Answers, log: seq<(Address, ChunkId)>,
      rounds: nat)
    requires LoopInv(ps, parts, tried, answer, log, rounds)
    requires |parts| >= |ps| || forall i :: 0 <= i < |ps| ==> !StillWanted(ps[i], parts, tried)
    ensures AskedExactly(ps, answer, log)
  {
    hide Silent, FirstAnswersHeld, RoundsCounted, AskedFirst, InTurn;
    PartsFull(ps, parts);
    if DistinctChunks(ps) {
      forall i, a | 0 <= i < |ps|
        ensures (a, ps[i].chunkId) in log <==> InTurn(ps[i].locations, a, answer, ps[i].chunkId)
      {
        assert ps[i] in ps && ps[i].chunkId in ChunkIds(ps);
        AskedInTurn(ps[i], parts, tried, answer, a);
      }
    }
  }

  ghost predicate Correct(ps: seq<Placement>, answer: Answers, result: Result) {
    match Fetched(ps, answer)
    case Some(parts) => result == Ok(parts)
    case None => result.Unavailable? && MissingExactly(ps, answer, result.missing)
  }

  ghost predicate SomeAnswer(p: Placement, answer: Answers) {
    exists a :: a in p.locations && answer(a, p.chunkId).Some?
  }

  /** When the read fails, and for which chunks. */
  lemma CorrectMeans(ps: seq<Placement>, answer: Answers, result: Result)
    requires Correct(ps, answer, result) && DistinctChunks(ps)
    ensures result.Ok? <==> forall i :: 0 <= i < |ps| ==> SomeAnswer(ps[i], answer)
    ensures result.Unavailable? ==>
      forall i :: 0 <= i < |ps| ==> (ps[i].chunkId in result.missing <==> !SomeAnswer(ps[i], answer))
  {
    SortedMembers(ps);
    if Answered(SortByIndex(ps), answer) {
      SortedAnswered(ps, answer);
    } else {
      var i :| 0 <= i < |SortByIndex(ps)| && FirstAnswer(SortByIndex(ps)[i].locations, answer,
          SortByIndex(ps)[i].chunkId).None?;
      assert SortByIndex(ps)[i] in ps;
    }
  }

  lemma Done(ps: seq<Placement>, parts: Parts, tried: Tried, answer: Answers, log: seq<(Address, ChunkId)>, rounds: nat)
    requires LoopInv(ps, parts, tried, answer, log, rounds) && |parts| >= |ps|
    ensures forall p :: p in SortByIndex(ps) ==> p.chunkId in parts
    ensures Correct(ps, answer, Ok(PartsOf(SortByIndex(ps), parts)))
  {
    PartsFull(ps, parts);
    Finished(ps, parts, answer);
  }

  lemma EmptyRead(answer: Answers)
    ensures Correct([], answer, Ok([]))
  {
    Finished([], map[], answer);
  }

  /** The loop body: a round of requests, or the news that nobody is left to ask. */
  method Round(ps: seq<Placement>, parts: Parts, tried: Tried, answer: Answers, log: seq<(Address, ChunkId)>,
      rounds: nat)
    returns (stuck: bool, parts': Parts, tried': Tried, log': seq<(Address, ChunkId)>)
    requires LoopInv(ps, parts, tried, answer, log, rounds) && |parts| < |ps|
    ensures stuck ==> Correct(ps, answer, Unavailable(ChunkIds(ps) - parts.Keys)) && AskedExactly(ps, answer, log)
    ensures !stuck ==>
      LoopInv(ps, parts', tried', answer, log', rounds + 1) && Remaining(ps, tried') < Remaining(ps, tried)
    ensures stuck ==> log' == log
  {
    var byAddr, order, tried1 := PlanRound(ps, parts, tried);
    if byAddr == map[] {
      Stuck(ps, parts, tried, answer, log, rounds);
      LoopAsked(ps, parts, tried, answer, log, rounds);
      return true, parts, tried, log;
    }
    var parts1, more := SendRound(byAddr, order, parts, answer);
    RoundKeeps(ps, parts, parts1, tried, tried1, byAddr, answer, log, more, rounds);
    RemainingDrops(ps, tried, tried1);
    return false, parts1, tried1, log + more;
  }

  lemma LoopFacts(ps: seq<Placement>, parts: Parts, tried: Tried, answer: Answers, log: seq<(Address, ChunkId)>,
      rounds: nat)
    requires LoopInv(ps, parts, tried, answer, log, rounds)
    ensures forall p :: p in ps ==> p.chunkId in tried
    ensures Distinct(log) && (rounds == 0 || exists i :: 0 <= i < |ps| && rounds <= |ps[i].locations|)
  {}

  method FetchLoop(ps: seq<Placement>, tried0: Tried, answer: Answers)
    returns (result: Result, log: seq<(Address, ChunkId)>, rounds: nat)
    requires LoopInv(ps, map[], tried0, answer, [], 0)
    ensures Correct(ps, answer, result) && AskedExactly(ps, answer, log)
    ensures Distinct(log) && (rounds == 0 || exists i :: 0 <= i < |ps| && rounds <= |ps[i].locations|)
  {
    hide *;
    var parts: Parts, tried := map[], tried0;
    log, rounds := [], 0;
    LoopFacts(ps, parts, tried, answer, log, rounds);
    while |parts| < |ps|
      invariant LoopInv(ps, parts, tried, answer, log, rounds)
      invariant forall p :: p in ps ==> p.chunkId in tried
      decreases Remaining(ps, tried)
    {
      var stuck, parts', tried', log' := Round(ps, parts, tried, answer, log, rounds);
      LoopFacts(ps, parts, tried, answer, log, rounds);
      if stuck {
        result := Unavailable(ChunkIds(ps) - parts.Keys);
        return;
      }
      parts, tried, log, rounds := parts', tried', log', rounds + 1;
      LoopFacts(ps, parts, tried, answer, log, rounds);
    }
    LoopFacts(ps, parts, tried, answer, log, rounds);
    Done(ps, parts, tried, answer, log, rounds);
    LoopAsked(ps, parts, tried, answer, log, rounds);
    result := Ok(PartsOf(SortByIndex(ps), parts));
  }

  /** The read loop computes `Fetched`, asks no server twice for a chunk, and needs no more rounds
      than the longest location list. */
  method FetchChunksBatched(ps: seq<Placement>, answer: Answers)
    returns (result: Result, log: seq<(Address, ChunkId)>, rounds: nat)
    ensures Correct(ps, answer, result) && AskedExactly(ps, answer, log)
    ensures DistinctChunks(ps) ==> (result.Ok? <==> forall i :: 0 <= i < |ps| ==> SomeAnswer(ps[i], answer))
    ensures DistinctChunks(ps) && result.Unavailable? ==>
      forall i :: 0 <= i < |ps| ==> (ps[i].chunkId in result.missing <==> !SomeAnswer(ps[i], answer))
    ensures Distinct(log)
    ensures rounds == 0 || exists i :: 0 <= i < |ps| && rounds <= |ps[i].locations|
  {
    if ps == [] {
      EmptyRead(answer);
      return Ok([]), [], 0;
    }
    var tried: Tried := map id | id in ChunkIds(ps) :: {};
    Start(ps, tried, answer);
    result, log, rounds := FetchLoop(ps, tried, answer);
    if DistinctChunks(ps) { CorrectMeans(ps, answer, result); }
  }
}
