/** The store of gfs/naming_server/metadata.py: its writes statement by statement, and the Python
    loops that fold the rows of a query into lists. The rows themselves come from the engine, in any
    order that the ORDER BY clause permits. */
module MetadataStore {
  import opened Base
  import opened Tables
  import opened Repairs

  // ---- the engine's answers ----

  /** A row of the left join of chunks and replicas: no address when the chunk has no replica. */
  datatype JoinRow = JoinRow(chunkId: ChunkId, idx: int, address: Option<Address>)

  ghost predicate RowInJoin(db: Db, ids: set<ChunkId>, r: JoinRow) {
    && r.chunkId in ids && r.chunkId in db.chunks && r.idx == db.chunks[r.chunkId].idx
    && match r.address
       case Some(a) => (r.chunkId, a) in db.replicas
       case None => Replicas(db, r.chunkId) == {}
  }

  /** `rows` lists the join over the chunks in `ids`, each row once, in any order. */
  ghost predicate IsJoin(db: Db, ids: set<ChunkId>, rows: seq<JoinRow>) {
    Distinct(rows) && forall r :: r in rows <==> RowInJoin(db, ids, r)
  }

  ghost predicate OrderedByIdx(rows: seq<JoinRow>) {
    forall i, j :: 0 <= i < j < |rows| ==> rows[i].idx <= rows[j].idx
  }

  lemma {:induction false} SmallestIdx(rows: set<JoinRow>) returns (r: JoinRow)
    requires rows != {}
    ensures r in rows && forall x :: x in rows ==> r.idx <= x.idx
  {
    r :| r in rows;
    if rows != {r} {
      var s := SmallestIdx(rows - {r});
      if s.idx < r.idx { r := s; }
    }
  }

  lemma {:induction false} OrderedListing(rows: set<JoinRow>) returns (xs: seq<JoinRow>)
    ensures Distinct(xs) && OrderedByIdx(xs) && Elems(xs) == rows
  {
    if rows == {} {
      xs := [];
    } else {
      var r := SmallestIdx(rows);
      var rest := OrderedListing(rows - {r});
      xs := [r] + rest;
      forall x | x in rest ensures x in rows && x != r { assert x in Elems(rest); }
      assert Elems(xs) == {r} + Elems(rest);
    }
  }

  ghost function JoinSet(db: Db, ids: set<ChunkId>): set<JoinRow> {
    (set p | p in db.replicas && p.0 in ids && p.0 in db.chunks :: JoinRow(p.0, db.chunks[p.0].idx, Some(p.1)))
    + (set id | id in ids && id in db.chunks && Replicas(db, id) == {} :: JoinRow(id, db.chunks[id].idx, None))
  }

  /** The join always has an answer, and one in index order. */
  lemma JoinAnswered(db: Db, ids: set<ChunkId>) returns (rows: seq<JoinRow>)
    ensures IsJoin(db, ids, rows) && OrderedByIdx(rows)
  {
    rows := OrderedListing(JoinSet(db, ids));
    forall r ensures r in rows <==> RowInJoin(db, ids, r) {
      assert r in rows <==> r in Elems(rows);
      if RowInJoin(db, ids, r) && r.address.Some? {
        var p := (r.chunkId, r.address.value);
        assert p in db.replicas && p.0 in ids;
      }
    }
  }

  // ---- the nested form: one lookup per chunk ----

  ghost predicate IsChunk(db: Db, c: ChunkMeta) {
    && c.chunkId in db.chunks && c.index == db.chunks[c.chunkId].idx
    && Distinct(c.locations) && Elems(c.locations) == Replicas(db, c.chunkId)
  }

  ghost predicate IsChunkList(db: Db, ids: set<ChunkId>, chunks: seq<ChunkMeta>) {
    DistinctIds(chunks) && Ids(chunks) == ids && forall c :: c in chunks ==> IsChunk(db, c)
  }

  ghost predicate AscendingIndex(chunks: seq<ChunkMeta>) {
    forall i, j :: 0 <= i < j < |chunks| ==> chunks[i].index < chunks[j].index
  }

  // ---- the fold of get_file and list_committed_chunks ----

  type ChunkMap = map<ChunkId, ChunkMeta>

  ghost predicate FoldKeys(order: seq<ChunkId>, m: ChunkMap) {
    && Distinct(order) && (forall id :: id in order <==> id in m)
    && (forall id :: id in m ==> m[id].chunkId == id)
  }

  ghost predicate OrderedByIndex(order: seq<ChunkId>, m: ChunkMap) {
    forall i, j :: 0 <= i < j < |order| && order[i] in m && order[j] in m ==> m[order[i]].index <= m[order[j]].index
  }

  ghost predicate FoldIndex(order: seq<ChunkId>, m: ChunkMap, rows: seq<JoinRow>) {
    && (forall r :: r in rows ==> r.chunkId in m && m[r.chunkId].index == r.idx)
    && (forall id :: id in m ==> exists r :: r in rows && r.chunkId == id)
    && (OrderedByIdx(rows) ==> OrderedByIndex(order, m))
  }

  ghost predicate FoldPlaces(m: ChunkMap, rows: seq<JoinRow>) {
    && (forall r :: r in rows && r.address.Some? ==> r.chunkId in m && r.address.value in m[r.chunkId].locations)
    && (forall id, a :: id in m && a in m[id].locations ==> JoinRow(id, m[id].index, Some(a)) in rows)
    && (forall id :: id in m ==> Distinct(m[id].locations))
  }

  /** The body of the row loop: a new chunk on its first row, then one more location if there is one. */
  function AddRow(order: seq<ChunkId>, m: ChunkMap, r: JoinRow): (f: (seq<ChunkId>, ChunkMap)) {
    var (o, n) := if r.chunkId in m then (order, m)
        else (order + [r.chunkId], m[r.chunkId := ChunkMeta(r.chunkId, r.idx, [])]);
    match r.address
    case None => (o, n)
    case Some(a) => (o, n[r.chunkId := n[r.chunkId].(locations := n[r.chunkId].locations + [a])])
  }

  lemma AddRowKeys(order: seq<ChunkId>, m: ChunkMap, r: JoinRow)
    requires FoldKeys(order, m)
    ensures FoldKeys(AddRow(order, m, r).0, AddRow(order, m, r).1)
  {}

  lemma AddRowOrder(order: seq<ChunkId>, m: ChunkMap, rows: seq<JoinRow>, r: JoinRow)
    requires FoldKeys(order, m) && FoldIndex(order, m, rows) && OrderedByIdx(rows + [r])
    ensures var (o, n) := AddRow(order, m, r);
      forall i, j :: 0 <= i < j < |o| && o[i] in n && o[j] in n ==> n[o[i]].index <= n[o[j]].index
  {
    hide OrderedByIdx;
    RowsBefore(rows, r);
    var (o, n) := AddRow(order, m, r);
    forall i, j | 0 <= i < j < |o| && o[i] in n && o[j] in n ensures n[o[i]].index <= n[o[j]].index {
      if j == |order| {
        var x :| x in rows && x.chunkId == o[i];
      }
    }
  }

  lemma AddRowIndex(order: seq<ChunkId>, m: ChunkMap, rows: seq<JoinRow>, r: JoinRow)
    requires FoldKeys(order, m) && FoldIndex(order, m, rows)
    requires forall x :: x in rows && x.chunkId == r.chunkId ==> x.idx == r.idx
    ensures FoldIndex(AddRow(order, m, r).0, AddRow(order, m, r).1, rows + [r])
  {
    hide OrderedByIdx;
    var (o, n) := AddRow(order, m, r);
    forall id | id in n ensures exists x :: x in rows + [r] && x.chunkId == id {
      if id in m {
        var x :| x in rows && x.chunkId == id;
        assert x in rows + [r];
      } else {
        assert r in rows + [r];
      }
    }
    if OrderedByIdx(rows + [r]) {
      AddRowOrder(order, m, rows, r);
    }
  }

  lemma RowsBefore(rows: seq<JoinRow>, r: JoinRow)
    requires OrderedByIdx(rows + [r])
    ensures OrderedByIdx(rows) && forall x :: x in rows ==> x.idx <= r.idx
  {
    forall i, j | 0 <= i < j < |rows| ensures rows[i].idx <= rows[j].idx {
      assert (rows + [r])[i] == rows[i] && (rows + [r])[j] == rows[j];
    }
    forall x | x in rows ensures x.idx <= r.idx {
      var i :| 0 <= i < |rows| && rows[i] == x;
      assert (rows + [r])[i] == x && (rows + [r])[|rows|] == r;
    }
  }

  /** `m` with a chunk for the row, before its address is added. */
  function WithChunk(m: ChunkMap, r: JoinRow): ChunkMap {
    if r.chunkId in m then m else m[r.chunkId := ChunkMeta(r.chunkId, r.idx, [])]
  }

  lemma WithChunkPlaces(order: seq<ChunkId>, m: ChunkMap, rows: seq<JoinRow>, r: JoinRow)
    requires FoldIndex(order, m, rows) && FoldPlaces(m, rows)
    requires forall x :: x in rows && x.chunkId == r.chunkId ==> x.idx == r.idx
    ensures FoldPlaces(WithChunk(m, r), rows) && r.chunkId in WithChunk(m, r)
    ensures WithChunk(m, r)[r.chunkId].index == r.idx
  {
    hide OrderedByIdx;
    if r.chunkId in m {
      var x :| x in rows && x.chunkId == r.chunkId;
    }
  }

  lemma AddressPlaces(m: ChunkMap, rows: seq<JoinRow>, r: JoinRow)
    requires FoldPlaces(m, rows) && r !in rows && r.chunkId in m && m[r.chunkId].index == r.idx
    ensures r.address.None? ==> FoldPlaces(m, rows + [r])
    ensures r.address.Some? ==>
      FoldPlaces(m[r.chunkId := m[r.chunkId].(locations := m[r.chunkId].locations + [r.address.value])], rows + [r])
  {
    if r.address.Some? {
      assert JoinRow(r.chunkId, r.idx, r.address) == r;
      assert r.address.value !in m[r.chunkId].locations;
    }
  }

  lemma AddRowPlaces(order: seq<ChunkId>, m: ChunkMap, rows: seq<JoinRow>, r: JoinRow)
    requires FoldKeys(order, m) && FoldIndex(order, m, rows) && FoldPlaces(m, rows) && r !in rows
    requires forall x :: x in rows && x.chunkId == r.chunkId ==> x.idx == r.idx
    ensures FoldPlaces(AddRow(order, m, r).1, rows + [r])
  {
    hide FoldKeys, FoldIndex, FoldPlaces;
    WithChunkPlaces(order, m, rows, r);
    AddressPlaces(WithChunk(m, r), rows, r);
  }

  function ListChunks(order: seq<ChunkId>, m: ChunkMap): (chunks: seq<ChunkMeta>)
    requires forall id :: id in order ==> id in m
    ensures |chunks| == |order| && forall i :: 0 <= i < |order| ==> chunks[i] == m[order[i]]
  {
    seq(|order|, i requires 0 <= i < |order| => m[order[i]])
  }

  lemma FoldChunk(db: Db, ids: set<ChunkId>, rows: seq<JoinRow>, order: seq<ChunkId>, m: ChunkMap, id: ChunkId)
    requires IsJoin(db, ids, rows) && id in m
    requires FoldKeys(order, m) && FoldIndex(order, m, rows) && FoldPlaces(m, rows)
    ensures id in ids && IsChunk(db, m[id])
  {
    var r :| r in rows && r.chunkId == id;
    assert RowInJoin(db, ids, r);
    forall a | a in Replicas(db, id) ensures a in m[id].locations {
      assert RowInJoin(db, ids, JoinRow(id, db.chunks[id].idx, Some(a)));
    }
    forall a | a in m[id].locations ensures a in Replicas(db, id) {
      assert RowInJoin(db, ids, JoinRow(id, m[id].index, Some(a)));
    }
  }

  lemma ListIds(order: seq<ChunkId>, m: ChunkMap)
    requires FoldKeys(order, m)
    ensures DistinctIds(ListChunks(order, m)) && Ids(ListChunks(order, m)) == m.Keys
    ensures forall c :: c in ListChunks(order, m) ==> c.chunkId in m && m[c.chunkId] == c
  {
    var chunks := ListChunks(order, m);
    assert forall i :: 0 <= i < |order| ==> order[i] in order;
    forall id | id in m ensures id in Ids(chunks) {
      var i :| 0 <= i < |order| && order[i] == id;
      assert chunks[i] in chunks && chunks[i].chunkId == id;
    }
  }

  lemma FoldIsNested(db: Db, ids: set<ChunkId>, rows: seq<JoinRow>, order: seq<ChunkId>, m: ChunkMap)
    requires IsJoin(db, ids, rows) && ids <= db.chunks.Keys
    requires FoldKeys(order, m) && FoldIndex(order, m, rows) && FoldPlaces(m, rows)
    requires forall id :: id in order ==> id in m
    ensures IsChunkList(db, ids, ListChunks(order, m))
  {
    hide FoldKeys, FoldPlaces, IsJoin, IsChunk, DistinctIds, Ids;
    ListIds(order, m);
    forall id | id in ids ensures id in m {
      JoinCovers(db, ids, rows, id);
    }
    forall id | id in m ensures id in ids && IsChunk(db, m[id]) {
      FoldChunk(db, ids, rows, order, m, id);
    }
  }

  /** A chunk without replicas still has its row, so it is kept. */
  lemma JoinCovers(db: Db, ids: set<ChunkId>, rows: seq<JoinRow>, id: ChunkId)
    requires IsJoin(db, ids, rows) && id in ids && id in db.chunks
    ensures exists r :: r in rows && r.chunkId == id
  {
    if Replicas(db, id) == {} {
      assert RowInJoin(db, ids, JoinRow(id, db.chunks[id].idx, None));
    } else {
      var a :| a in Replicas(db, id);
      assert RowInJoin(db, ids, JoinRow(id, db.chunks[id].idx, Some(a)));
    }
  }

  /** The row loop over a legal answer computes the nested lookup, in index order when the rows are. */
  method FoldRows(ghost db: Db, ghost ids: set<ChunkId>, rows: seq<JoinRow>) returns (chunks: seq<ChunkMeta>)
    requires IsJoin(db, ids, rows) && ids <= db.chunks.Keys
    ensures IsChunkList(db, ids, chunks)
    ensures OrderedByIdx(rows) ==> forall i, j :: 0 <= i < j < |chunks| ==> chunks[i].index <= chunks[j].index
  {
    hide FoldKeys, FoldIndex, FoldPlaces, IsJoin, IsChunkList, AddRow, OrderedByIdx;
    var order: seq<ChunkId>, m: ChunkMap := [], map[];
    FoldStart();
    for k := 0 to |rows|
      invariant FoldKeys(order, m) && FoldIndex(order, m, rows[..k]) && FoldPlaces(m, rows[..k])
    {
      FoldStep(db, ids, rows, k, order, m);
      var (o, n) := AddRow(order, m, rows[k]);
      order, m := o, n;
    }
    assert rows[..|rows|] == rows;
    FoldKnown(order, m, rows);
    FoldIsNested(db, ids, rows, order, m);
    chunks := ListChunks(order, m);
  }

  lemma FoldStart()
    ensures FoldKeys([], map[]) && FoldIndex([], map[], []) && FoldPlaces(map[], [])
  {}

  lemma FoldKnown(order: seq<ChunkId>, m: ChunkMap, rows: seq<JoinRow>)
    requires FoldKeys(order, m) && FoldIndex(order, m, rows)
    ensures forall id :: id in order ==> id in m
    ensures OrderedByIdx(rows) ==> forall i, j :: 0 <= i < j < |order| ==> m[order[i]].index <= m[order[j]].index
  {
    assert forall i :: 0 <= i < |order| ==> order[i] in order;
  }

  lemma FoldStep(db: Db, ids: set<ChunkId>, rows: seq<JoinRow>, k: nat, order: seq<ChunkId>, m: ChunkMap)
    requires IsJoin(db, ids, rows) && k < |rows|
    requires FoldKeys(order, m) && FoldIndex(order, m, rows[..k]) && FoldPlaces(m, rows[..k])
    ensures var (o, n) := AddRow(order, m, rows[k]);
      FoldKeys(o, n) && FoldIndex(o, n, rows[..k + 1]) && FoldPlaces(n, rows[..k + 1])
  {
    hide FoldKeys, FoldIndex, FoldPlaces, AddRow;
    assert rows[..k + 1] == rows[..k] + [rows[k]];
    forall x | x in rows[..k] && x.chunkId == rows[k].chunkId ensures x.idx == rows[k].idx {
      assert RowInJoin(db, ids, x) && RowInJoin(db, ids, rows[k]);
    }
    AddRowKeys(order, m, rows[k]);
    AddRowIndex(order, m, rows[..k], rows[k]);
    AddRowPlaces(order, m, rows[..k], rows[k]);
  }

  // ---- GROUP_CONCAT and split(",") ----

  function JoinComma(xs: seq<string>): string
    requires xs != []
  {
    if |xs| == 1 then xs[0] else xs[0] + "," + JoinComma(xs[1..])
  }

  function SplitComma(s: string): (r: seq<string>)
    ensures r != []
    ensures forall x :: x in r ==> ',' !in x
  {
    if s == [] then [""]
    else
      var rest := SplitComma(s[1..]);
      if s[0] == ',' then [""] + rest else [[s[0]] + rest[0]] + rest[1..]
  }

  /** GROUP_CONCAT of no rows is NULL. */
  function Encode(xs: seq<string>): Option<string> {
    if xs == [] then None else Some(JoinComma(xs))
  }

  /** NULL and the empty text stand for no addresses. */
  function Decode(o: Option<string>): seq<string> {
    if o.None? || o.value == "" then [] else SplitComma(o.value)
  }

  lemma {:induction false} SplitPlain(x: string)
    requires ',' !in x
    ensures SplitComma(x) == [x]
  {
    if x != [] {
      SplitPlain(x[1..]);
      assert [x[0]] + x[1..] == x;
    }
  }

  lemma {:induction false} SplitFirst(x: string, s: string)
    requires ',' !in x
    ensures SplitComma(x + "," + s) == [x] + SplitComma(s)
  {
    if x == [] {
      assert (x + "," + s)[1..] == s;
    } else {
      SplitFirst(x[1..], s);
      assert (x + "," + s)[1..] == x[1..] + "," + s;
      assert [x[0]] + x[1..] == x;
    }
  }

  lemma {:induction false} SplitJoin(xs: seq<string>)
    requires xs != [] && forall x :: x in xs ==> ',' !in x
    ensures SplitComma(JoinComma(xs)) == xs
  {
    if |xs| == 1 {
      SplitPlain(xs[0]);
    } else {
      SplitJoin(xs[1..]);
      SplitFirst(xs[0], JoinComma(xs[1..]));
    }
  }

  lemma JoinEmpty(xs: seq<string>)
    requires xs != []
    ensures JoinComma(xs) == "" <==> xs == [""]
  {
    if |xs| > 1 { assert |JoinComma(xs)| >= 1; }
  }

  /** The round trip through GROUP_CONCAT is lossless exactly for lists of comma-free addresses
      other than the list holding just the empty address. */
  lemma RoundTripIff(xs: seq<string>)
    ensures Decode(Encode(xs)) == xs <==> (forall x :: x in xs ==> ',' !in x) && xs != [""]
  {
    if xs != [] {
      JoinEmpty(xs);
      if forall x :: x in xs ==> ',' !in x {
        SplitJoin(xs);
      }
    }
  }

  // ---- the grouped query ----

  function CommittedIds(db: Db): set<ChunkId> {
    set id | id in db.chunks && db.chunks[id].filename in db.files
        && db.files[db.chunks[id].filename].status == Committed
  }

  /** The sum of the HAVING clause over the rows of one chunk: 1 for each live address. */
  function LiveSum(rows: seq<JoinRow>, id: ChunkId, live: set<Address>): nat {
    if rows == [] then 0 else
      var r := rows[0];
      (if r.chunkId == id && r.address.Some? && r.address.value in live then 1 else 0) + LiveSum(rows[1..], id, live)
  }

  ghost function LiveIn(rows: seq<JoinRow>, id: ChunkId, live: set<Address>): set<Address> {
    set r | r in rows && r.chunkId == id && r.address.Some? && r.address.value in live :: r.address.value
  }

  lemma {:induction false} LiveSumCounts(rows: seq<JoinRow>, id: ChunkId, live: set<Address>)
    requires Distinct(rows) && forall x, y :: x in rows && y in rows && x.chunkId == y.chunkId ==> x.idx == y.idx
    ensures LiveSum(rows, id, live) == |LiveIn(rows, id, live)|
  {
    if rows != [] {
      LiveSumCounts(rows[1..], id, live);
      var r := rows[0];
      if r.chunkId == id && r.address.Some? && r.address.value in live {
        forall x | x in rows[1..] ensures x.chunkId != id || x.address != r.address {
          var i :| 0 <= i < |rows[1..]| && rows[1..][i] == x;
          assert rows[i + 1] == x && x != r;
        }
        assert LiveIn(rows, id, live) == LiveIn(rows[1..], id, live) + {r.address.value};
      } else {
        assert LiveIn(rows, id, live) == LiveIn(rows[1..], id, live);
      }
    }
  }

  /** The HAVING clause counts the live replicas. */
  lemma HavingIsLiveCount(db: Db, ids: set<ChunkId>, rows: seq<JoinRow>, id: ChunkId, live: set<Address>)
    requires IsJoin(db, ids, rows) && id in ids && id in db.chunks
    ensures LiveSum(rows, id, live) == |LiveReplicas(db, id, live)|
  {
    forall x, y | x in rows && y in rows && x.chunkId == y.chunkId ensures x.idx == y.idx {
      assert RowInJoin(db, ids, x) && RowInJoin(db, ids, y);
    }
    LiveSumCounts(rows, id, live);
    forall a | a in LiveReplicas(db, id, live) ensures a in LiveIn(rows, id, live) {
      assert RowInJoin(db, ids, JoinRow(id, db.chunks[id].idx, Some(a)));
    }
    forall a | a in LiveIn(rows, id, live) ensures a in LiveReplicas(db, id, live) {
      var r :| r in rows && r.chunkId == id && r.address == Some(a);
      assert RowInJoin(db, ids, r);
    }
    assert LiveIn(rows, id, live) == LiveReplicas(db, id, live);
  }

  /** A row of the grouped query: the addresses of the chunk, concatenated in some order. */
  datatype GroupRow = GroupRow(chunkId: ChunkId, idx: int, addresses: Option<string>)

  function Texts(xs: seq<Address>): seq<string> {
    seq(|xs|, i requires 0 <= i < |xs| => xs[i].text)
  }

  ghost predicate Concatenates(addresses: Option<string>, all: set<Address>) {
    exists xs: seq<Address> :: Distinct(xs) && Elems(xs) == all && addresses == Encode(Texts(xs))
  }

  /** The group of the joined rows of one chunk, as GROUP BY and GROUP_CONCAT make it. */
  ghost predicate GroupOf(joined: seq<JoinRow>, row: GroupRow) {
    && (exists x :: x in joined && x.chunkId == row.chunkId && x.idx == row.idx)
    && Concatenates(row.addresses, AddressesIn(joined, row.chunkId))
  }

  ghost function AddressesIn(joined: seq<JoinRow>, id: ChunkId): set<Address> {
    set x | x in joined && x.chunkId == id && x.address.Some? :: x.address.value
  }

  /** One group for each chunk of the joined rows that passes the HAVING clause. */
  ghost predicate GroupsOf(joined: seq<JoinRow>, r: int, live: set<Address>, rows: seq<GroupRow>) {
    && (forall i, j :: 0 <= i < j < |rows| ==> rows[i].chunkId != rows[j].chunkId)
    && (forall i :: 0 <= i < |rows| ==> GroupOf(joined, rows[i]) && LiveSum(joined, rows[i].chunkId, live) < r)
    && (forall x :: x in joined && LiveSum(joined, x.chunkId, live) < r ==> Selected(rows, x.chunkId))
  }

  ghost predicate Selected(rows: seq<GroupRow>, id: ChunkId) {
    exists i :: 0 <= i < |rows| && rows[i].chunkId == id
  }

  /** A legal answer to the query: groups of some legal answer to the join of the committed chunks. */
  ghost predicate IsGroups(db: Db, r: int, live: set<Address>, rows: seq<GroupRow>) {
    exists joined :: IsJoin(db, CommittedIds(db), joined) && GroupsOf(joined, r, live, rows)
  }

  ghost predicate IsGroup(db: Db, row: GroupRow) {
    && row.chunkId in db.chunks && row.idx == db.chunks[row.chunkId].idx
    && Concatenates(row.addresses, Replicas(db, row.chunkId))
  }

  lemma GroupIsChunk(db: Db, ids: set<ChunkId>, joined: seq<JoinRow>, row: GroupRow)
    requires IsJoin(db, ids, joined) && GroupOf(joined, row)
    ensures IsGroup(db, row) && row.chunkId in ids
  {
    hide Concatenates;
    var x :| x in joined && x.chunkId == row.chunkId && x.idx == row.idx;
    assert RowInJoin(db, ids, x);
    forall a | a in Replicas(db, row.chunkId) ensures a in AddressesIn(joined, row.chunkId) {
      assert RowInJoin(db, ids, JoinRow(row.chunkId, x.idx, Some(a)));
    }
    forall a | a in AddressesIn(joined, row.chunkId) ensures a in Replicas(db, row.chunkId) {
      var y :| y in joined && y.chunkId == row.chunkId && y.address == Some(a);
      assert RowInJoin(db, ids, y);
    }
    assert AddressesIn(joined, row.chunkId) == Replicas(db, row.chunkId);
  }

  lemma SelectedIffBelow(db: Db, r: int, live: set<Address>, joined: seq<JoinRow>, rows: seq<GroupRow>, id: ChunkId)
    requires IsJoin(db, CommittedIds(db), joined) && GroupsOf(joined, r, live, rows)
    ensures Selected(rows, id) <==> id in UnderReplicated(db, r, live)
  {
    hide IsJoin, GroupOf, LiveReplicas;
    if Selected(rows, id) {
      var i :| 0 <= i < |rows| && rows[i].chunkId == id;
      GroupIsChunk(db, CommittedIds(db), joined, rows[i]);
    }
    if id in CommittedIds(db) {
      HavingIsLiveCount(db, CommittedIds(db), joined, id, live);
      JoinCovers(db, CommittedIds(db), joined, id);
      var x :| x in joined && x.chunkId == id;
    }
  }

  ghost function SelectedIds(rows: seq<GroupRow>): set<ChunkId> {
    set i | 0 <= i < |rows| :: rows[i].chunkId
  }

  lemma {:induction false} SelectedCount(rows: seq<GroupRow>)
    requires forall i, j :: 0 <= i < j < |rows| ==> rows[i].chunkId != rows[j].chunkId
    ensures |SelectedIds(rows)| == |rows|
  {
    if rows != [] {
      SelectedCount(rows[1..]);
      assert forall i :: 0 <= i < |rows[1..]| ==> rows[1..][i] == rows[i + 1];
      assert forall i :: 1 <= i < |rows| ==> rows[i] == rows[1..][i - 1];
      assert SelectedIds(rows) == SelectedIds(rows[1..]) + {rows[0].chunkId};
    }
  }

  /** The HAVING clause selects exactly the under-replicated chunks, once each, with all their recorded
      addresses; so counting the groups counts those chunks. */
  lemma GroupsSelect(db: Db, r: int, live: set<Address>, rows: seq<GroupRow>)
    requires IsGroups(db, r, live, rows)
    ensures forall id :: Selected(rows, id) <==> id in UnderReplicated(db, r, live)
    ensures |rows| == |UnderReplicated(db, r, live)|
    ensures forall i :: 0 <= i < |rows| ==> IsGroup(db, rows[i])
    ensures forall i, j :: 0 <= i < j < |rows| ==> rows[i].chunkId != rows[j].chunkId
  {
    hide IsJoin, GroupOf, IsGroup, UnderReplicated;
    var joined :| IsJoin(db, CommittedIds(db), joined) && GroupsOf(joined, r, live, rows);
    forall id ensures Selected(rows, id) <==> id in UnderReplicated(db, r, live) {
      SelectedIffBelow(db, r, live, joined, rows, id);
    }
    forall i | 0 <= i < |rows| ensures IsGroup(db, rows[i]) {
      GroupIsChunk(db, CommittedIds(db), joined, rows[i]);
    }
    SelectedCount(rows);
    forall id ensures id in SelectedIds(rows) <==> Selected(rows, id) {}
    assert SelectedIds(rows) == UnderReplicated(db, r, live);
  }

  lemma {:induction false} GroupsFor(joined: seq<JoinRow>, ids: set<ChunkId>) returns (rows: seq<GroupRow>)
    requires forall id :: id in ids ==> exists x :: x in joined && x.chunkId == id
    ensures forall i :: 0 <= i < |rows| ==> GroupOf(joined, rows[i]) && rows[i].chunkId in ids
    ensures forall i, j :: 0 <= i < j < |rows| ==> rows[i].chunkId != rows[j].chunkId
    ensures forall id :: id in ids ==> Selected(rows, id)
  {
    hide GroupOf;
    if ids == {} {
      rows := [];
    } else {
      var id :| id in ids;
      var rest := GroupsFor(joined, ids - {id});
      var row := OneGroup(joined, id);
      rows := [row] + rest;
      forall x | x in ids ensures Selected(rows, x) {
        if x == id {
          assert rows[0].chunkId == x;
        } else {
          assert Selected(rest, x);
          var i :| 0 <= i < |rest| && rest[i].chunkId == x;
          assert rows[i + 1].chunkId == x;
        }
      }
    }
  }

  lemma OneGroup(joined: seq<JoinRow>, id: ChunkId) returns (row: GroupRow)
    requires exists x :: x in joined && x.chunkId == id
    ensures row.chunkId == id && GroupOf(joined, row)
  {
    var x :| x in joined && x.chunkId == id;
    var xs := Listing(AddressesIn(joined, id));
    row := GroupRow(id, x.idx, Encode(Texts(xs)));
  }

  /** The grouped query always has an answer. */
  lemma GroupsAnswered(db: Db, r: int, live: set<Address>) returns (rows: seq<GroupRow>)
    ensures IsGroups(db, r, live, rows)
  {
    hide IsJoin, GroupOf;
    var joined := JoinAnswered(db, CommittedIds(db));
    var ids := set x | x in joined && LiveSum(joined, x.chunkId, live) < r :: x.chunkId;
    rows := GroupsFor(joined, ids);
    assert GroupsOf(joined, r, live, rows);
  }

  /** Addresses are host:port strings: not empty and without commas. */
  ghost predicate CleanAddresses(db: Db) {
    forall p :: p in db.replicas ==> p.1.text != "" && ',' !in p.1.text
  }

  ghost predicate CleanText(a: Address) {
    a.text != "" && ',' !in a.text
  }

  ghost predicate CleanWrite(w: Write) {
    match w
    case WCreate(_, _, _, chunks, _) => forall c, a :: c in chunks && a in c.locations ==> CleanText(a)
    case WAdd(_, a) => CleanText(a)
    case _ => true
  }

  lemma WriteKeepsClean(db: Db, w: Write)
    requires CleanAddresses(db) && CleanWrite(w) && (w.WCreate? ==> DistinctIds(w.chunks))
    ensures CleanAddresses(Perform(db, w))
  {
    hide ChunkRows;
    match w
    case WCreate(fn, size, n, chunks, now) =>
      forall p | p in Perform(db, w).replicas ensures CleanText(p.1) {
        if p in ReplicaRows(chunks) {
          var c :| c in chunks && p.1 in c.locations && c.chunkId == p.0;
        }
      }
    case WCommit(fn) =>
    case WDelete(fn) =>
    case WAdd(id, a) =>
    case WRemove(id, a) =>
  }

  lemma {:induction false} WritesKeepClean(db: Db, ws: seq<Write>)
    requires CleanAddresses(db) && LegalWrites(db, ws) && forall i :: 0 <= i < |ws| ==> CleanWrite(ws[i])
    ensures CleanAddresses(PerformAll(db, ws))
    decreases |ws|
  {
    hide Perform, CleanWrite;
    if ws != [] {
      assert forall i :: 0 <= i < |ws[1..]| ==> ws[1..][i] == ws[i + 1];
      WriteKeepsClean(db, ws[0]);
      WritesKeepClean(Perform(db, ws[0]), ws[1..]);
    }
  }

  /** Tables that were written with host:port addresses only hold such addresses. */
  lemma TablesStayClean(ws: seq<Write>)
    requires LegalWrites(EMPTY_DB, ws)
    requires forall i, c, a :: 0 <= i < |ws| && ws[i].WCreate? && c in ws[i].chunks && a in c.locations ==>
      a.text != "" && ',' !in a.text
    requires forall i :: 0 <= i < |ws| && ws[i].WAdd? ==> ws[i].a.text != "" && ',' !in ws[i].a.text
    ensures CleanAddresses(PerformAll(EMPTY_DB, ws))
  {
    hide LegalWrites, PerformAll;
    WritesKeepClean(EMPTY_DB, ws);
  }

  function Parse(texts: seq<string>): seq<Address> {
    seq(|texts|, i requires 0 <= i < |texts| => Address(texts[i]))
  }

  lemma ParseTexts(xs: seq<Address>)
    ensures Parse(Texts(xs)) == xs
  {
    forall i | 0 <= i < |xs| ensures Parse(Texts(xs))[i] == xs[i] {
      assert Texts(xs)[i] == xs[i].text;
    }
  }

  lemma DecodeGroup(db: Db, row: GroupRow)
    requires CleanAddresses(db) && IsGroup(db, row)
    ensures IsChunk(db, ChunkMeta(row.chunkId, row.idx, Parse(Decode(row.addresses))))
  {
    var xs: seq<Address> :| Distinct(xs) && Elems(xs) == Replicas(db, row.chunkId)
        && row.addresses == Encode(Texts(xs));
    forall x | x in Texts(xs) ensures ',' !in x && x != "" {
      var i :| 0 <= i < |xs| && Texts(xs)[i] == x;
      assert xs[i] in Elems(xs);
      assert (row.chunkId, xs[i]) in db.replicas;
    }
    assert |xs| > 0 ==> Texts(xs)[0] in Texts(xs) && Texts(xs)[0] != "";
    RoundTripIff(Texts(xs));
    ParseTexts(xs);
  }

  /** `under_replicated_chunks`: the rows of the grouped query turned into chunks, with all their
      known addresses. */
  method UnderReplicatedChunks(ghost db: Db, ghost r: int, ghost live: set<Address>, rows: seq<GroupRow>)
    returns (result: seq<ChunkMeta>)
    requires IsGroups(db, r, live, rows) && CleanAddresses(db)
    ensures IsChunkList(db, UnderReplicated(db, r, live), result)
  {
    hide IsGroups, IsGroup, UnderReplicated, CleanAddresses, Selected, IsChunk;
    GroupsSelect(db, r, live, rows);
    result := [];
    for k := 0 to |rows|
      invariant |result| == k
      invariant forall i :: 0 <= i < k ==> result[i].chunkId == rows[i].chunkId && IsChunk(db, result[i])
    {
      DecodeGroup(db, rows[k]);
      result := result + [ChunkMeta(rows[k].chunkId, rows[k].idx, Parse(Decode(rows[k].addresses)))];
    }
    GroupIds(rows, UnderReplicated(db, r, live), result);
  }

  lemma GroupIds(rows: seq<GroupRow>, ids: set<ChunkId>, result: seq<ChunkMeta>)
    requires |result| == |rows| && forall id :: Selected(rows, id) <==> id in ids
    requires forall i, j :: 0 <= i < j < |rows| ==> rows[i].chunkId != rows[j].chunkId
    requires forall i :: 0 <= i < |rows| ==> result[i].chunkId == rows[i].chunkId
    ensures DistinctIds(result) && Ids(result) == ids
  {
    forall id | id in ids ensures id in Ids(result) {
      var i :| 0 <= i < |rows| && rows[i].chunkId == id;
      assert result[i] in result && result[i].chunkId == id;
    }
    forall c | c in result ensures c.chunkId in ids {
      var i :| 0 <= i < |result| && result[i] == c;
      assert rows[i].chunkId == c.chunkId && Selected(rows, c.chunkId);
    }
  }

  // ---- the simple form the fast queries agree with ----

  predicate BelowTarget(c: ChunkMeta, r: int, live: set<Address>) {
    |Elems(c.locations) * live| < r
  }

  /** Filtering the full list by live count selects the same chunks, and as many, as the aggregate
      queries do. */
  lemma FilterAgrees(db: Db, r: int, live: set<Address>, all: seq<ChunkMeta>)
    requires IsChunkList(db, CommittedIds(db), all)
    ensures var below := Filter((c: ChunkMeta) => BelowTarget(c, r, live), all);
      IsChunkList(db, UnderReplicated(db, r, live), below) && |below| == |UnderReplicated(db, r, live)|
  {
    var p := (c: ChunkMeta) => BelowTarget(c, r, live);
    var below := Filter(p, all);
    forall c | c in all ensures p(c) <==> c.chunkId in UnderReplicated(db, r, live) {
      assert IsChunk(db, c) && c.chunkId in Ids(all);
    }
    FilterDistinctIds(p, all);
    forall id | id in UnderReplicated(db, r, live) ensures id in Ids(below) {
      assert id in Ids(all);
      var c :| c in all && c.chunkId == id;
      assert c in below;
    }
    assert Ids(below) == UnderReplicated(db, r, live);
    IdsCount(below);
  }

  lemma {:induction false} FilterDistinctIds(p: ChunkMeta -> bool, all: seq<ChunkMeta>)
    requires DistinctIds(all)
    ensures DistinctIds(Filter(p, all))
  {
    if all != [] {
      FilterDistinctIds(p, all[1..]);
      forall c | c in Filter(p, all[1..]) ensures c.chunkId != all[0].chunkId {
        var i :| 0 <= i < |all[1..]| && all[1..][i] == c;
        assert all[i + 1] == c;
      }
    }
  }

  lemma IdsSplit(chunks: seq<ChunkMeta>)
    requires DistinctIds(chunks) && chunks != []
    ensures DistinctIds(chunks[1..]) && chunks[0].chunkId !in Ids(chunks[1..])
    ensures Ids(chunks) == Ids(chunks[1..]) + {chunks[0].chunkId}
  {
    var rest := chunks[1..];
    assert chunks == [chunks[0]] + rest;
    forall c | c in rest ensures c.chunkId != chunks[0].chunkId {
      var i :| 0 <= i < |rest| && rest[i] == c;
      assert chunks[i + 1] == c;
    }
  }

  lemma {:induction false} IdsCount(chunks: seq<ChunkMeta>)
    requires DistinctIds(chunks)
    ensures |Ids(chunks)| == |chunks|
  {
    if chunks != [] {
      hide DistinctIds, Ids;
      IdsSplit(chunks);
      IdsCount(chunks[1..]);
    }
  }

  // ---- the store ----

  lemma RowsNext(fn: Filename, metas: seq<ChunkMeta>, i: nat)
    requires i < |metas| && DistinctIds(metas[..i]) && DistinctIds(metas[..i + 1])
    ensures ChunkRows(fn, metas[..i + 1]) == ChunkRows(fn, metas[..i])[metas[i].chunkId := ChunkRow(fn, metas[i].index)]
  {
    assert metas[..i + 1][..i] == metas[..i];
  }

  lemma MergeNext<K, V>(m: map<K, V>, n: map<K, V>, k: K, v: V)
    ensures m + n[k := v] == (m + n)[k := v]
  {}

  lemma InsertChunk(cleared: map<ChunkId, ChunkRow>, fn: Filename, metas: seq<ChunkMeta>, i: nat)
    requires i < |metas| && DistinctIds(metas)
    ensures DistinctIds(metas[..i]) && DistinctIds(metas[..i + 1])
    ensures cleared + ChunkRows(fn, metas[..i + 1])
      == (cleared + ChunkRows(fn, metas[..i]))[metas[i].chunkId := ChunkRow(fn, metas[i].index)]
  {
    hide ChunkRows;
    RowsNext(fn, metas, i);
    MergeNext(cleared, ChunkRows(fn, metas[..i]), metas[i].chunkId, ChunkRow(fn, metas[i].index));
  }

  lemma InsertReplicas(metas: seq<ChunkMeta>, i: nat)
    requires i < |metas|
    ensures ReplicaRows(metas[..i + 1])
        == ReplicaRows(metas[..i]) + set a | a in metas[i].locations :: (metas[i].chunkId, a)
  {
    assert metas[..i + 1] == metas[..i] + [metas[i]];
  }

  lemma NoRowsYet(db: Db, fn: Filename, metas: seq<ChunkMeta>)
    ensures DistinctIds(metas[..0]) && db.chunks + ChunkRows(fn, metas[..0]) == db.chunks
    ensures db.replicas + ReplicaRows(metas[..0]) == db.replicas
  {}

  datatype FileMeta = FileMeta(filename: Filename, size: int, numChunks: int, status: Status, chunks: seq<ChunkMeta>)

  /** Some committed chunk is recorded at the address. */
  ghost predicate HoldsCommitted(db: Db, a: Address) {
    exists id :: CommittedChunk(db, id) && a in Replicas(db, id)
  }

  datatype AddResult = Added | AlreadyThere | Refused

  class Store {
    var files: map<Filename, FileRow>
    var chunks: map<ChunkId, ChunkRow>
    var replicas: set<(ChunkId, Address)>

    ghost function Contents(): Db
      reads this
    {
      Db(files, chunks, replicas)
    }

    constructor ()
      ensures Contents() == EMPTY_DB
    {
      files, chunks, replicas := map[], map[], {};
    }

    /** Deletes the file row with its cascade; whether there was one. */
    method DeleteFile(fn: Filename) returns (deleted: bool)
      modifies this
      ensures Contents() == Perform(old(Contents()), WDelete(fn)) == DropFile(old(Contents()), fn)
      ensures deleted == (fn in old(files)) && files == old(files) - {fn}
      ensures forall id :: id in chunks <==> id in old(chunks) && old(chunks)[id].filename != fn
      ensures forall p :: p in replicas <==>
        p in old(replicas) && !(p.0 in old(chunks) && old(chunks)[p.0].filename == fn)
    {
      deleted := fn in files;
      var gone := set id | id in chunks && chunks[id].filename == fn;
      files := files - {fn};
      replicas := set p | p in replicas && p.0 !in gone;
      chunks := chunks - gone;
    }

    /** One transaction: clear the name, then insert the file, its chunks and their replicas row by row. */
    method CreatePending(fn: Filename, size: int, numChunks: int, metas: seq<ChunkMeta>, now: real)
      requires DistinctIds(metas) && forall c :: c in metas ==> c.chunkId !in chunks
      modifies this
      ensures Contents() == Tables.CreatePending(old(Contents()), fn, size, numChunks, metas, now)
      ensures Contents() == Perform(old(Contents()), WCreate(fn, size, numChunks, metas, now))
      ensures files == old(files)[fn := FileRow(size, numChunks, Pending, now)]
    {
      hide ChunkRows, ReplicaRows, DistinctIds, DropFile;
      var _ := DeleteFile(fn);
      ghost var cleared := Contents();
      NoRowsYet(cleared, fn, metas);
      files := files[fn := FileRow(size, numChunks, Pending, now)];
      for i := 0 to |metas|
        invariant files == cleared.files[fn := FileRow(size, numChunks, Pending, now)] && replicas == cleared.replicas
        invariant DistinctIds(metas[..i]) && chunks == cleared.chunks + ChunkRows(fn, metas[..i])
      {
        InsertChunk(cleared.chunks, fn, metas, i);
        chunks := chunks[metas[i].chunkId := ChunkRow(fn, metas[i].index)];
      }
      assert metas[..|metas|] == metas;
      for i := 0 to |metas|
        invariant files == cleared.files[fn := FileRow(size, numChunks, Pending, now)]
        invariant chunks == cleared.chunks + ChunkRows(fn, metas)
        invariant replicas == cleared.replicas + ReplicaRows(metas[..i])
      {
        InsertReplicas(metas, i);
        replicas := replicas + set a | a in metas[i].locations :: (metas[i].chunkId, a);
      }
    }

    method CommitFile(fn: Filename) returns (ok: bool)
      modifies this
      ensures Contents() == Perform(old(Contents()), WCommit(fn))
      ensures ok == (fn in old(files)) && chunks == old(chunks) && replicas == old(replicas)
      ensures files == if ok then old(files)[fn := old(files)[fn].(status := Committed)] else old(files)
    {
      ok := fn in files;
      if ok {
        files := files[fn := files[fn].(status := Committed)];
      }
    }

    /** True for a new row, False for one that was there already, an error when the foreign key refuses
        the chunk; only the first changes the tables. */
    method AddReplica(id: ChunkId, a: Address) returns (result: AddResult)
      modifies this
      ensures result.Refused? <==> id !in old(chunks)
      ensures result.AlreadyThere? <==> id in old(chunks) && a in Replicas(old(Contents()), id)
      ensures !result.Refused? ==> Contents() == Tables.AddReplica(old(Contents()), id, a).value
      ensures !result.Added? ==> Contents() == old(Contents())
      ensures Contents() == Perform(old(Contents()), WAdd(id, a))
      ensures result.Added? ==> files == old(files) && chunks == old(chunks) && replicas == old(replicas) + {(id, a)}
    {
      if id !in chunks {
        return Refused;
      }
      assert (id, a) in replicas ==> replicas + {(id, a)} == replicas;
      result := if (id, a) in replicas then AlreadyThere else Added;
      replicas := replicas + {(id, a)};
    }

    method RemoveReplica(id: ChunkId, a: Address) returns (removed: bool)
      modifies this
      ensures Contents() == Tables.RemoveReplica(old(Contents()), id, a)
      ensures Contents() == Perform(old(Contents()), WRemove(id, a))
      ensures files == old(files) && chunks == old(chunks) && replicas == old(replicas) - {(id, a)}
      ensures removed == ((id, a) in old(replicas))
    {
      removed := (id, a) in replicas;
      replicas := replicas - {(id, a)};
    }

    /** `rows` is the engine's answer to the LEFT JOIN of the second SELECT. */
    method GetFile(fn: Filename, rows: seq<JoinRow>) returns (fm: Option<FileMeta>)
      requires IsJoin(Contents(), ChunksOf(Contents(), fn), rows) && OrderedByIdx(rows)
      ensures fm.None? <==> fn !in files
      ensures fm.Some? ==>
        && fm.value == FileMeta(fn, files[fn].size, files[fn].numChunks, files[fn].status, fm.value.chunks)
        && IsChunkList(Contents(), ChunksOf(Contents(), fn), fm.value.chunks)
        && (IndexOnce(Contents()) ==> AscendingIndex(fm.value.chunks))
    {
      if fn !in files {
        return None;
      }
      var list := FoldRows(Contents(), ChunksOf(Contents(), fn), rows);
      StrictIndex(Contents(), fn, list);
      fm := Some(FileMeta(fn, files[fn].size, files[fn].numChunks, files[fn].status, list));
    }

    method ListChunkIdsFor(a: Address) returns (ids: set<ChunkId>)
      ensures forall id :: id in ids <==> a in Replicas(Contents(), id)
    {
      ids := set p | p in replicas && p.1 == a :: p.0;
    }

    method KnownReplicaAddresses() returns (known: set<Address>)
      ensures forall a :: a in known <==> HoldsCommitted(Contents(), a)
    {
      known := set p | p in replicas && p.0 in chunks && chunks[p.0].filename in files
        && files[chunks[p.0].filename].status == Committed :: p.1;
      assert known == KnownAddresses(Contents());
      KnownMeans(Contents());
    }
  }

  /** The known addresses are those where some committed chunk is recorded. */
  lemma KnownMeans(db: Db)
    ensures forall a :: a in KnownAddresses(db) <==> HoldsCommitted(db, a)
  {
    forall a ensures a in KnownAddresses(db) <==> HoldsCommitted(db, a) {
      if a in KnownAddresses(db) {
        var p :| p in db.replicas && p.1 == a && CommittedChunk(db, p.0);
        assert a in Replicas(db, p.0);
      }
      if HoldsCommitted(db, a) {
        var id :| CommittedChunk(db, id) && a in Replicas(db, id);
        assert (id, a) in db.replicas;
      }
    }
  }

  lemma KnownSame(db: Db, known: set<Address>)
    requires forall a :: a in known <==> HoldsCommitted(db, a)
    ensures known == KnownAddresses(db)
  {
    hide KnownAddresses, HoldsCommitted;
    KnownMeans(db);
    assert forall a :: a in known <==> a in KnownAddresses(db);
  }

  /** With every index used once, ascending order is strict. */
  lemma StrictIndex(db: Db, fn: Filename, list: seq<ChunkMeta>)
    requires IsChunkList(db, ChunksOf(db, fn), list)
    requires forall i, j :: 0 <= i < j < |list| ==> list[i].index <= list[j].index
    ensures IndexOnce(db) ==> AscendingIndex(list)
  {
    if IndexOnce(db) {
      forall i, j | 0 <= i < j < |list| ensures list[i].index < list[j].index {
        assert IsChunk(db, list[i]) && IsChunk(db, list[j]);
        assert list[i].chunkId in Ids(list) && list[j].chunkId in Ids(list);
        assert list[i].chunkId != list[j].chunkId;
      }
    }
  }

  // ---- what reading back gives ----

  /** In a well-formed store the list `get_file` builds has index i at place i, and all of them. */
  lemma SnapshotIds(db: Db, fn: Filename, list: seq<ChunkMeta>)
    requires Wf(db) && fn in db.files && IsChunkList(db, ChunksOf(db, fn), list) && AscendingIndex(list)
    ensures |list| == Span(db.files[fn].numChunks) && forall i :: 0 <= i < |list| ==> list[i].index == i
  {
    assert AllIndices(db, fn);
    forall i | 0 <= i < |list| ensures 0 <= list[i].index < db.files[fn].numChunks {
      assert list[i] in list && IsChunk(db, list[i]) && list[i].chunkId in Ids(list);
    }
    forall k | 0 <= k < db.files[fn].numChunks ensures k < |list| && list[k].index == k {
      IndexAt(db, fn, list, k);
    }
    if db.files[fn].numChunks > 0 {
      IndexAt(db, fn, list, db.files[fn].numChunks - 1);
    }
    if |list| > 0 {
      AscendingAtLeast(list, |list| - 1);
      assert list[|list| - 1].index < db.files[fn].numChunks;
    }
  }

  lemma {:induction false} AscendingAtLeast(list: seq<ChunkMeta>, i: nat)
    requires i < |list| && AscendingIndex(list) && list[0].index >= 0
    ensures list[i].index >= i
  {
    if i > 0 { AscendingAtLeast(list, i - 1); }
  }

  lemma {:induction false} IndexAt(db: Db, fn: Filename, list: seq<ChunkMeta>, k: nat)
    requires fn in db.files && AllIndices(db, fn) && k < db.files[fn].numChunks
    requires IsChunkList(db, ChunksOf(db, fn), list) && AscendingIndex(list)
    requires forall i :: 0 <= i < |list| ==> 0 <= list[i].index
    ensures k < |list| && list[k].index == k
  {
    assert HasIndex(db, fn, k);
    var id :| id in db.chunks && db.chunks[id] == ChunkRow(fn, k);
    assert id in Ids(list);
    var c :| c in list && c.chunkId == id;
    var j :| 0 <= j < |list| && list[j] == c;
    assert IsChunk(db, c);
    AscendingAtLeast(list, j);
    if j < k {
      IndexAt(db, fn, list, j);
    }
  }
}
