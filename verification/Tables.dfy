/** The three metadata tables of gfs/naming_server/metadata.py as a value, with one function for
    each atomic write. The store class runs these functions; the protocol takes them as steps. */
module Tables {
  import opened Base

  datatype Status = Pending | Committed
  datatype FileRow = FileRow(size: int, numChunks: int, status: Status, createdAt: real)
  datatype ChunkRow = ChunkRow(filename: Filename, idx: int)
  datatype ChunkMeta = ChunkMeta(chunkId: ChunkId, index: int, locations: seq<Address>)
  datatype Db = Db(files: map<Filename, FileRow>, chunks: map<ChunkId, ChunkRow>, replicas: set<(ChunkId, Address)>)

  const EMPTY_DB := Db(map[], map[], {})

  function Replicas(db: Db, id: ChunkId): set<Address> {
    set p | p in db.replicas && p.0 == id :: p.1
  }

  function ChunksOf(db: Db, fn: Filename): set<ChunkId> {
    set id | id in db.chunks && db.chunks[id].filename == fn
  }

  ghost predicate CommittedChunk(db: Db, id: ChunkId) {
    && id in db.chunks
    && db.chunks[id].filename in db.files
    && db.files[db.chunks[id].filename].status == Committed
  }

  /** How many indices there are from 0 up to `n`. */
  function Span(n: int): nat {
    if n < 0 then 0 else n
  }

  // ---- writes ----

  /** Deletes a file row, with the cascade to chunks and on to replicas. */
  function DropFile(db: Db, fn: Filename): Db {
    Db(db.files - {fn}, db.chunks - ChunksOf(db, fn), set p | p in db.replicas && p.0 !in ChunksOf(db, fn))
  }

  ghost predicate DistinctIds(chunks: seq<ChunkMeta>) {
    forall i, j :: 0 <= i < j < |chunks| ==> chunks[i].chunkId != chunks[j].chunkId
  }

  function Ids(chunks: seq<ChunkMeta>): set<ChunkId> {
    set c | c in chunks :: c.chunkId
  }

  function ChunkRows(fn: Filename, chunks: seq<ChunkMeta>): (rows: map<ChunkId, ChunkRow>)
    requires DistinctIds(chunks)
    ensures forall i :: 0 <= i < |chunks| ==>
      chunks[i].chunkId in rows && rows[chunks[i].chunkId] == ChunkRow(fn, chunks[i].index)
    ensures forall id :: id in rows <==> id in Ids(chunks)
  {
    if chunks == [] then map[] else
      var n := |chunks| - 1;
      assert chunks == chunks[..n] + [chunks[n]];
      ChunkRows(fn, chunks[..n])[chunks[n].chunkId := ChunkRow(fn, chunks[n].index)]
  }

  function ReplicaRows(chunks: seq<ChunkMeta>): set<(ChunkId, Address)> {
    set c, a | c in chunks && a in c.locations :: (c.chunkId, a)
  }

  function CreatePending(db: Db, fn: Filename, size: int, numChunks: int, chunks: seq<ChunkMeta>, now: real): Db
    requires DistinctIds(chunks)
  {
    var cleared := DropFile(db, fn);
    Db(cleared.files[fn := FileRow(size, numChunks, Pending, now)],
       cleared.chunks + ChunkRows(fn, chunks),
       cleared.replicas + ReplicaRows(chunks))
  }

  function CommitFile(db: Db, fn: Filename): Db {
    if fn in db.files then db.(files := db.files[fn := db.files[fn].(status := Committed)]) else db
  }

  /** A row that is there already stays; a chunk that is gone is refused by the foreign key. */
  function AddReplica(db: Db, id: ChunkId, a: Address): Option<Db> {
    if id in db.chunks then Some(db.(replicas := db.replicas + {(id, a)})) else None
  }

  function RemoveReplica(db: Db, id: ChunkId, a: Address): Db {
    db.(replicas := db.replicas - {(id, a)})
  }

  // ---- the structural invariant ----

  ghost predicate HasIndex(db: Db, fn: Filename, i: int) {
    exists id :: id in db.chunks && db.chunks[id] == ChunkRow(fn, i)
  }

  ghost predicate ForeignKeys(db: Db) {
    && (forall id :: id in db.chunks ==> db.chunks[id].filename in db.files)
    && (forall p :: p in db.replicas ==> p.0 in db.chunks)
  }

  ghost predicate IndexOnce(db: Db) {
    forall x, y :: x in db.chunks && y in db.chunks && db.chunks[x] == db.chunks[y] ==> x == y
  }

  ghost predicate IndexInRange(db: Db) {
    forall id :: id in db.chunks && db.chunks[id].filename in db.files ==>
      0 <= db.chunks[id].idx < db.files[db.chunks[id].filename].numChunks
  }

  ghost predicate AllIndices(db: Db, fn: Filename)
    requires fn in db.files
  {
    forall i :: 0 <= i < db.files[fn].numChunks ==> HasIndex(db, fn, i)
  }

  /** Foreign keys hold, and the chunk rows of each file carry every index below `num_chunks` once. */
  ghost predicate Wf(db: Db) {
    ForeignKeys(db) && IndexOnce(db) && IndexInRange(db) && forall fn :: fn in db.files ==> AllIndices(db, fn)
  }

  /** What CreateFile hands to `create_pending`: indices 0, 1, ... under ids never used before. */
  ghost predicate FreshLayout(db: Db, numChunks: int, chunks: seq<ChunkMeta>) {
    && |chunks| == Span(numChunks)
    && DistinctIds(chunks)
    && forall i :: 0 <= i < |chunks| ==> chunks[i].index == i && chunks[i].chunkId !in db.chunks
  }

  lemma DropFileWf(db: Db, fn: Filename)
    requires Wf(db)
    ensures Wf(DropFile(db, fn))
    ensures ChunksOf(DropFile(db, fn), fn) == {}
  {
    var d := DropFile(db, fn);
    forall g | g in d.files ensures AllIndices(d, g) {
      assert AllIndices(db, g);
      OtherFileIndices(db, d, g);
    }
  }

  lemma OtherFileIndices(db: Db, e: Db, g: Filename)
    requires g in db.files && AllIndices(db, g) && g in e.files && e.files[g].numChunks == db.files[g].numChunks
    requires forall id :: id in db.chunks && db.chunks[id].filename == g ==>
      id in e.chunks && e.chunks[id] == db.chunks[id]
    ensures AllIndices(e, g)
  {
    forall i | 0 <= i < e.files[g].numChunks ensures HasIndex(e, g, i) {
      assert HasIndex(db, g, i);
      var id :| id in db.chunks && db.chunks[id] == ChunkRow(g, i);
      assert e.chunks[id] == ChunkRow(g, i);
    }
  }

  /** The rows after `create_pending`: the new ids at their indices, other names untouched. */
  ghost predicate NewRows(db: Db, e: Db, fn: Filename, chunks: seq<ChunkMeta>) {
    && (forall i :: 0 <= i < |chunks| ==>
          chunks[i].chunkId in e.chunks && e.chunks[chunks[i].chunkId] == ChunkRow(fn, chunks[i].index))
    && (forall id :: id in e.chunks && id !in Ids(chunks) ==>
          id in db.chunks && db.chunks[id].filename != fn && e.chunks[id] == db.chunks[id])
    && (forall id :: id in db.chunks && db.chunks[id].filename != fn ==>
          id in e.chunks && e.chunks[id] == db.chunks[id])
  }

  lemma CreatePendingRows(db: Db, fn: Filename, size: int, numChunks: int, chunks: seq<ChunkMeta>, now: real)
    requires DistinctIds(chunks) && forall id :: id in Ids(chunks) ==> id !in db.chunks
    ensures NewRows(db, CreatePending(db, fn, size, numChunks, chunks, now), fn, chunks)
  {}

  lemma CreatePendingFk(db: Db, fn: Filename, size: int, numChunks: int, chunks: seq<ChunkMeta>, now: real)
    requires DistinctIds(chunks) && ForeignKeys(db)
    ensures ForeignKeys(CreatePending(db, fn, size, numChunks, chunks, now))
  {
    assert forall id :: id in Ids(chunks) ==> ChunkRows(fn, chunks)[id].filename == fn;
    assert forall p :: p in ReplicaRows(chunks) ==> p.0 in Ids(chunks);
  }

  lemma NewRow(db: Db, e: Db, fn: Filename, chunks: seq<ChunkMeta>, id: ChunkId) returns (i: int)
    requires NewRows(db, e, fn, chunks) && id in Ids(chunks)
    ensures 0 <= i < |chunks| && chunks[i].chunkId == id && id in e.chunks
    ensures e.chunks[id] == ChunkRow(fn, chunks[i].index)
  {
    var c :| c in chunks && c.chunkId == id;
    i :| 0 <= i < |chunks| && chunks[i] == c;
  }

  lemma NewRowsOnce(db: Db, e: Db, fn: Filename, numChunks: int, chunks: seq<ChunkMeta>, x: ChunkId, y: ChunkId)
    requires IndexOnce(db) && NewRows(db, e, fn, chunks) && FreshLayout(db, numChunks, chunks)
    requires x in e.chunks && y in e.chunks && e.chunks[x] == e.chunks[y]
    ensures x == y
  {
    if x in Ids(chunks) && y in Ids(chunks) {
      var i := NewRow(db, e, fn, chunks, x);
      var j := NewRow(db, e, fn, chunks, y);
    } else if x in Ids(chunks) {
      var i := NewRow(db, e, fn, chunks, x);
    } else if y in Ids(chunks) {
      var j := NewRow(db, e, fn, chunks, y);
    }
  }

  lemma NewRowsIndices(db: Db, e: Db, fn: Filename, numChunks: int, chunks: seq<ChunkMeta>)
    requires IndexOnce(db) && IndexInRange(db) && ForeignKeys(db) && NewRows(db, e, fn, chunks)
    requires FreshLayout(db, numChunks, chunks)
    requires fn in e.files && e.files[fn].numChunks == numChunks
    requires forall g :: g in db.files && g != fn ==> g in e.files && e.files[g] == db.files[g]
    ensures IndexOnce(e) && IndexInRange(e)
  {
    forall x, y | x in e.chunks && y in e.chunks && e.chunks[x] == e.chunks[y] ensures x == y {
      NewRowsOnce(db, e, fn, numChunks, chunks, x, y);
    }
    forall id | id in e.chunks && e.chunks[id].filename in e.files
      ensures 0 <= e.chunks[id].idx < e.files[e.chunks[id].filename].numChunks
    {
      if id in Ids(chunks) {
        var i := NewRow(db, e, fn, chunks, id);
      }
    }
  }

  lemma CreatePendingWf(db: Db, fn: Filename, size: int, numChunks: int, chunks: seq<ChunkMeta>, now: real)
    requires Wf(db) && FreshLayout(db, numChunks, chunks)
    ensures Wf(CreatePending(db, fn, size, numChunks, chunks, now))
  {
    var e := CreatePending(db, fn, size, numChunks, chunks, now);
    CreatePendingRows(db, fn, size, numChunks, chunks, now);
    CreatePendingFk(db, fn, size, numChunks, chunks, now);
    NewRowsIndices(db, e, fn, numChunks, chunks);
    forall g | g in e.files ensures AllIndices(e, g) {
      if g == fn {
        forall i | 0 <= i < numChunks ensures HasIndex(e, fn, i) {
          assert e.chunks[chunks[i].chunkId] == ChunkRow(fn, i);
        }
      } else {
        assert AllIndices(db, g);
        OtherFileIndices(db, e, g);
      }
    }
  }

  lemma SameRowsWf(db: Db, e: Db)
    requires Wf(db)
    requires e.chunks == db.chunks && e.files.Keys == db.files.Keys
    requires forall fn :: fn in db.files ==> e.files[fn].numChunks == db.files[fn].numChunks
    requires forall p :: p in e.replicas ==> p.0 in db.chunks
    ensures Wf(e)
  {
    forall g | g in e.files ensures AllIndices(e, g) {
      assert AllIndices(db, g);
      OtherFileIndices(db, e, g);
    }
  }

  datatype Write =
    | WCreate(fn: Filename, size: int, numChunks: int, chunks: seq<ChunkMeta>, now: real)
    | WCommit(fn: Filename)
    | WDelete(fn: Filename)
    | WAdd(id: ChunkId, a: Address)
    | WRemove(id: ChunkId, a: Address)

  /** One write transaction. A write that the engine refuses leaves the tables alone. */
  function Perform(db: Db, w: Write): Db
    requires w.WCreate? ==> DistinctIds(w.chunks)
  {
    match w
    case WCreate(fn, size, n, chunks, now) => CreatePending(db, fn, size, n, chunks, now)
    case WCommit(fn) => CommitFile(db, fn)
    case WDelete(fn) => DropFile(db, fn)
    case WAdd(id, a) => (match AddReplica(db, id, a) case Some(e) => e case None => db)
    case WRemove(id, a) => RemoveReplica(db, id, a)
  }

  ghost predicate LegalWrites(db: Db, ws: seq<Write>)
    decreases |ws|
  {
    ws == [] ||
    ((ws[0].WCreate? ==> FreshLayout(db, ws[0].numChunks, ws[0].chunks)) && LegalWrites(Perform(db, ws[0]), ws[1..]))
  }

  ghost function PerformAll(db: Db, ws: seq<Write>): Db
    requires LegalWrites(db, ws)
    decreases |ws|
  {
    if ws == [] then db else PerformAll(Perform(db, ws[0]), ws[1..])
  }

  /** A history goes on with any write but a create under an id in use. */
  lemma {:induction false} LegalExtends(db: Db, ws: seq<Write>, w: Write)
    requires LegalWrites(db, ws)
    ensures LegalWrites(db, ws + [w]) <==>
      (w.WCreate? ==> FreshLayout(PerformAll(db, ws), w.numChunks, w.chunks))
    decreases |ws|
  {
    hide Perform;
    if ws == [] {
      assert [w][1..] == [];
    } else {
      assert (ws + [w])[1..] == ws[1..] + [w];
      LegalExtends(Perform(db, ws[0]), ws[1..], w);
    }
  }

  lemma WriteKeepsWf(db: Db, w: Write)
    requires Wf(db)
    requires w.WCreate? ==> FreshLayout(db, w.numChunks, w.chunks)
    ensures Wf(Perform(db, w))
  {
    hide Wf, FreshLayout, CreatePending, DropFile;
    match w
    case WCreate(fn, size, n, chunks, now) =>
      FreshIsDistinct(db, n, chunks);
      CreatePendingWf(db, fn, size, n, chunks, now);
    case WDelete(fn) => DropFileWf(db, fn);
    case _ => WfKeys(db); SameRowsWf(db, Perform(db, w));
  }

  lemma WfKeys(db: Db)
    requires Wf(db)
    ensures forall p :: p in db.replicas ==> p.0 in db.chunks
  {}

  lemma FreshIsDistinct(db: Db, n: int, chunks: seq<ChunkMeta>)
    requires FreshLayout(db, n, chunks)
    ensures DistinctIds(chunks)
  {}

  /** Every history of writes, in any order and on any names, keeps the store well formed. */
  lemma {:induction false} WritesKeepWf(db: Db, ws: seq<Write>)
    requires Wf(db) && LegalWrites(db, ws)
    ensures Wf(PerformAll(db, ws))
    decreases |ws|
  {
    if ws != [] {
      WriteKeepsWf(db, ws[0]);
      WritesKeepWf(Perform(db, ws[0]), ws[1..]);
    }
  }

  // ---- how writes move the replica sets ----

  lemma AddReplicaSets(db: Db, id: ChunkId, a: Address)
    requires id in db.chunks
    ensures Replicas(AddReplica(db, id, a).value, id) == Replicas(db, id) + {a}
    ensures forall x :: x != id ==> Replicas(AddReplica(db, id, a).value, x) == Replicas(db, x)
  {
    var e := AddReplica(db, id, a).value;
    assert (id, a) in e.replicas;
    assert Replicas(e, id) == Replicas(db, id) + {a};
    forall x | x != id ensures Replicas(e, x) == Replicas(db, x) {
      assert forall p :: p in e.replicas && p.0 == x ==> p in db.replicas;
    }
  }

  lemma RemoveReplicaSets(db: Db, id: ChunkId, a: Address)
    ensures Replicas(RemoveReplica(db, id, a), id) == Replicas(db, id) - {a}
    ensures forall x :: x != id ==> Replicas(RemoveReplica(db, id, a), x) == Replicas(db, x)
  {
    var e := RemoveReplica(db, id, a);
    forall b | b in Replicas(db, id) - {a} ensures b in Replicas(e, id) {
      assert (id, b) in e.replicas;
    }
    assert Replicas(e, id) == Replicas(db, id) - {a};
    forall x | x != id ensures Replicas(e, x) == Replicas(db, x) {
      forall b | b in Replicas(db, x) ensures b in Replicas(e, x) {
        assert (x, b) in e.replicas;
      }
    }
  }

  lemma DropFileSets(db: Db, fn: Filename, id: ChunkId)
    requires id !in ChunksOf(db, fn)
    ensures Replicas(DropFile(db, fn), id) == Replicas(db, id)
  {
    var e := DropFile(db, fn);
    forall b | b in Replicas(db, id) ensures b in Replicas(e, id) {
      assert (id, b) in e.replicas;
    }
  }
}
