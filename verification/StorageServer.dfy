/** A storage server (gfs/storage_server/server.py): a directory of chunk files and two counters that
    are updated incrementally instead of scanning the directory. Handlers run one at a time here. */
module StorageServer {
  import opened Base

  type Disk = map<ChunkId, Bytes>

  /** The files held and the counters of chunks and bytes. */
  datatype Server = Server(disk: Disk, count: int, bytes: int)

  // ---- the bytes held ----

  ghost function SumBytes(disk: Disk): int {
    if disk == map[] then 0 else
      var id :| id in disk;
      |disk[id]| + SumBytes(disk - {id})
  }

  lemma {:induction false} SumTake(disk: Disk, id: ChunkId)
    requires id in disk
    ensures SumBytes(disk) == |disk[id]| + SumBytes(disk - {id})
    decreases |disk|
  {
    var x :| x in disk && SumBytes(disk) == |disk[x]| + SumBytes(disk - {x});
    if x != id {
      SumTake(disk - {x}, id);
      SumTake(disk - {id}, x);
      assert disk - {x} - {id} == disk - {id} - {x};
    }
  }

  function SizeAt(disk: Disk, id: ChunkId): nat {
    if id in disk then |disk[id]| else 0
  }

  lemma SumRemove(disk: Disk, id: ChunkId)
    ensures SumBytes(disk - {id}) == SumBytes(disk) - SizeAt(disk, id)
  {
    if id in disk {
      SumTake(disk, id);
    } else {
      assert disk - {id} == disk;
    }
  }

  lemma SumPut(disk: Disk, id: ChunkId, data: Bytes)
    ensures SumBytes(disk[id := data]) == SumBytes(disk) - SizeAt(disk, id) + |data|
  {
    hide SumBytes;
    SumRemove(disk, id);
    SumTake(disk[id := data], id);
    assert disk[id := data] - {id} == disk - {id};
  }

  lemma CountRemove(disk: Disk, id: ChunkId)
    ensures |disk - {id}| == |disk| - if id in disk then 1 else 0
  {
    assert (disk - {id}).Keys == disk.Keys - {id};
  }

  lemma CountPut(disk: Disk, id: ChunkId, data: Bytes)
    ensures |disk[id := data]| == |disk| + if id in disk then 0 else 1
  {
    assert disk[id := data].Keys == disk.Keys + {id};
  }

  // ---- one handler call each ----

  /** How far the counters are off. */
  ghost function CountDrift(s: Server): int {
    s.count - |s.disk|
  }

  ghost function BytesDrift(s: Server): int {
    s.bytes - SumBytes(s.disk)
  }

  ghost predicate Counted(s: Server) {
    CountDrift(s) == 0 && BytesDrift(s) == 0
  }

  /** One store: the old size of a new chunk is taken as -1. */
  function PutChunk(s: Server, id: ChunkId, data: Bytes): Server {
    var oldSize := if id in s.disk then |s.disk[id]| else -1;
    if oldSize == -1 then Server(s.disk[id := data], s.count + 1, s.bytes + |data|)
    else Server(s.disk[id := data], s.count, s.bytes + |data| - oldSize)
  }

  function Removed(s: Server, id: ChunkId): Server {
    if id in s.disk then Server(s.disk - {id}, s.count - 1, s.bytes - |s.disk[id]|) else s
  }

  /** Single stores, in order. */
  function StoredEach(s: Server, chunks: seq<(ChunkId, Bytes)>): Server {
    if chunks == [] then s else
      var n := |chunks| - 1;
      PutChunk(StoredEach(s, chunks[..n]), chunks[n].0, chunks[n].1)
  }

  ghost function Synced(disk: Disk): Server {
    Server(disk, |disk|, SumBytes(disk))
  }

  /** The scrub after it removed `gone`: it returns at once when there is no orphan, re-reads the
      counters when it gets to the end, and leaves them alone when a removal fails on the way. */
  ghost function Scrubbed(s: Server, expected: set<ChunkId>, gone: seq<ChunkId>, finished: bool): Server {
    if s.disk.Keys <= expected then s
    else if finished then Synced(s.disk - Elems(gone))
    else s.(disk := s.disk - Elems(gone))
  }

  /** `gone` is what a scrub can have removed: orphans, each once, and all of them if it finished. */
  ghost predicate ScrubRun(s: Server, expected: set<ChunkId>, gone: seq<ChunkId>, finished: bool) {
    && Distinct(gone) && Elems(gone) <= s.disk.Keys - expected
    && (finished ==> Elems(gone) == s.disk.Keys - expected)
  }

  datatype ServerCall =
    | Store(id: ChunkId, data: Bytes)
    | StoreBatch(chunks: seq<(ChunkId, Bytes)>)
    | Remove(id: ChunkId)
    | Scrub(expected: set<ChunkId>, gone: seq<ChunkId>, finished: bool)
    | Failed

  ghost predicate CanDo(s: Server, op: ServerCall) {
    op.Scrub? ==> ScrubRun(s, op.expected, op.gone, op.finished)
  }

  ghost function Do(s: Server, op: ServerCall): Server {
    match op
    case Store(id, data) => PutChunk(s, id, data)
    case StoreBatch(chunks) => StoredEach(s, chunks)
    case Remove(id) => Removed(s, id)
    case Scrub(expected, gone, finished) => Scrubbed(s, expected, gone, finished)
    case Failed => s
  }

  // ---- the counters ----

  lemma StoredDrift(s: Server, id: ChunkId, data: Bytes)
    ensures CountDrift(PutChunk(s, id, data)) == CountDrift(s) && BytesDrift(PutChunk(s, id, data)) == BytesDrift(s)
  {
    hide SumBytes;
    SumPut(s.disk, id, data);
    CountPut(s.disk, id, data);
  }

  lemma RemovedDrift(s: Server, id: ChunkId)
    ensures CountDrift(Removed(s, id)) == CountDrift(s) && BytesDrift(Removed(s, id)) == BytesDrift(s)
  {
    hide SumBytes;
    SumRemove(s.disk, id);
    CountRemove(s.disk, id);
  }

  lemma {:induction false} StoredEachDrift(s: Server, chunks: seq<(ChunkId, Bytes)>)
    ensures CountDrift(StoredEach(s, chunks)) == CountDrift(s) && BytesDrift(StoredEach(s, chunks)) == BytesDrift(s)
  {
    hide PutChunk;
    if chunks != [] {
      var n := |chunks| - 1;
      StoredEachDrift(s, chunks[..n]);
      StoredDrift(StoredEach(s, chunks[..n]), chunks[n].0, chunks[n].1);
    }
  }

  lemma GoneCount(disk: Disk, gone: seq<ChunkId>)
    requires Distinct(gone) && Elems(gone) <= disk.Keys
    ensures |disk - Elems(gone)| == |disk| - |gone|
  {
    ElemsDistinct(gone);
    assert (disk - Elems(gone)).Keys == disk.Keys - Elems(gone);
  }

  lemma NothingGone(disk: Disk)
    ensures disk - Elems([]) == disk
  {}

  /** A scrub that finishes, or removes nothing, leaves right counters right; one that is cut short
      after removing something always leaves them wrong. */
  lemma ScrubCounted(s: Server, expected: set<ChunkId>, gone: seq<ChunkId>, finished: bool)
    requires Counted(s) && ScrubRun(s, expected, gone, finished)
    ensures Counted(Scrubbed(s, expected, gone, finished)) <==> finished || gone == []
  {
    hide SumBytes, Distinct;
    GoneCount(s.disk, gone);
    NothingGone(s.disk);
    SomeOrphan(s, expected, gone, finished);
  }

  lemma SomeOrphan(s: Server, expected: set<ChunkId>, gone: seq<ChunkId>, finished: bool)
    requires ScrubRun(s, expected, gone, finished)
    ensures gone != [] ==> !(s.disk.Keys <= expected)
  {
    if gone != [] {
      assert gone[0] in Elems(gone);
    }
  }

  ghost predicate Serial(s: Server, ops: seq<ServerCall>)
  {
    ops == [] || (Serial(s, ops[..|ops| - 1]) && CanDo(DoAll(s, ops[..|ops| - 1]), ops[|ops| - 1]))
  }

  ghost function DoAll(s: Server, ops: seq<ServerCall>): Server {
    if ops == [] then s else Do(DoAll(s, ops[..|ops| - 1]), ops[|ops| - 1])
  }

  /** A history goes on with any call the server can be given, whatever it did before. */
  lemma SerialExtends(s: Server, ops: seq<ServerCall>, op: ServerCall)
    requires Serial(s, ops)
    ensures Serial(s, []) && DoAll(s, ops + [op]) == Do(DoAll(s, ops), op)
    ensures Serial(s, ops + [op]) <==>
      !op.Scrub? || ScrubRun(DoAll(s, ops), op.expected, op.gone, op.finished)
  {
    assert (ops + [op])[..|ops|] == ops;
  }

  /** Since the last scrub that got to its end with something to remove, some scrub was cut short after
      it had removed something. */
  ghost predicate OffCount(s: Server, ops: seq<ServerCall>) {
    if ops == [] then false else
      var before, op := DoAll(s, ops[..|ops| - 1]), ops[|ops| - 1];
      if op.Scrub? && !(before.disk.Keys <= op.expected) && op.finished then false
      else OffCount(s, ops[..|ops| - 1]) || (op.Scrub? && op.gone != [])
  }

  lemma OpDrift(s: Server, op: ServerCall)
    requires CanDo(s, op)
    ensures if !op.Scrub? then CountDrift(Do(s, op)) == CountDrift(s) && BytesDrift(Do(s, op)) == BytesDrift(s)
      else if !(s.disk.Keys <= op.expected) && op.finished then Counted(Do(s, op))
      else CountDrift(Do(s, op)) == CountDrift(s) + |op.gone| && (op.gone == [] ==> Do(s, op) == s)
  {
    match op
    case Store(id, data) => StoredDrift(s, id, data);
    case StoreBatch(chunks) => StoredEachDrift(s, chunks);
    case Remove(id) => RemovedDrift(s, id);
    case Failed =>
    case Scrub(expected, gone, finished) =>
      GoneCount(s.disk, gone);
      NothingGone(s.disk);
      SomeOrphan(s, expected, gone, finished);
  }

  lemma {:induction false} RunDrift(s: Server, ops: seq<ServerCall>)
    requires Counted(s) && Serial(s, ops)
    ensures CountDrift(DoAll(s, ops)) >= 0
    ensures if OffCount(s, ops) then CountDrift(DoAll(s, ops)) > 0 else Counted(DoAll(s, ops))
    decreases |ops|
  {
    hide Do, CanDo;
    if ops != [] {
      var n := |ops| - 1;
      RunDrift(s, ops[..n]);
      OpDrift(DoAll(s, ops[..n]), ops[n]);
    }
  }

  /** After any serial sequence of stores, batches, replications, deletes and scrubs the counters are
      the number and the summed size of the chunks held, exactly unless a scrub was cut short after
      removing something and none has completed since. */
  lemma CountersEqualDisk(s: Server, ops: seq<ServerCall>, t: Server)
    requires Counted(s) && Serial(s, ops) && t == DoAll(s, ops)
    ensures t.count == |t.disk| && t.bytes == SumBytes(t.disk) <==> !OffCount(s, ops)
  {
    RunDrift(s, ops);
  }

  // ---- a batch ----

  /** What a batch leaves on the disk: under each id it names, the payload it names last. */
  lemma {:induction false} BatchWrites(s: Server, chunks: seq<(ChunkId, Bytes)>, i: nat)
    requires i < |chunks| && forall j :: i < j < |chunks| ==> chunks[j].0 != chunks[i].0
    ensures chunks[i].0 in StoredEach(s, chunks).disk && StoredEach(s, chunks).disk[chunks[i].0] == chunks[i].1
  {
    var n := |chunks| - 1;
    if i < n {
      BatchWrites(s, chunks[..n], i);
    }
  }

  /** And under every other id what was there before. */
  lemma {:induction false} BatchSpares(s: Server, chunks: seq<(ChunkId, Bytes)>, id: ChunkId)
    requires forall i :: 0 <= i < |chunks| ==> chunks[i].0 != id
    ensures id in StoredEach(s, chunks).disk <==> id in s.disk
    ensures id in s.disk ==> StoredEach(s, chunks).disk[id] == s.disk[id]
  {
    if chunks != [] {
      BatchSpares(s, chunks[..|chunks| - 1], id);
    }
  }

  // ---- the summing scan ----

  /** The start-up scan: a loop over the files held. */
  method ScanDisk(disk: Disk) returns (count: int, total: int)
    ensures Server(disk, count, total) == Synced(disk)
    ensures count == |disk| && total == SumBytes(disk)
  {
    var left := disk;
    total := 0;
    while left != map[]
      invariant total + SumBytes(left) == SumBytes(disk)
      decreases |left|
    {
      assert left.Keys != {} by {
        assert left != map[];
      }
      var id :| id in left.Keys;
      SumTake(left, id);
      CountRemove(left, id);
      total := total + |left[id]|;
      left := left - {id};
    }
    count := |disk|;
  }

  // ---- reads ----

  /** Each id asked for is answered with its bytes or reported missing. */
  ghost predicate EachAnswered(disk: Disk, readable: ChunkId -> bool, ids: seq<ChunkId>,
      found: seq<(ChunkId, Bytes)>, missing: seq<ChunkId>) {
    && (forall x :: x in found ==> x.0 in ids && x.0 in disk && x.1 == disk[x.0] && readable(x.0))
    && (forall id :: id in missing ==> id in ids && !(id in disk && readable(id)))
    && (forall id :: id in ids ==> if id in disk && readable(id) then (id, disk[id]) in found else id in missing)
    && |found| + |missing| == |ids|
  }

  class StorageServicer {
    var disk: Disk
    var chunkCount: int
    var totalBytes: int

    ghost function Contents(): Server
      reads this
    {
      Server(disk, chunkCount, totalBytes)
    }

    /** Starts over whatever the directory holds. */
    constructor (onDisk: Disk)
      ensures Contents() == Synced(onDisk) && disk == onDisk
      ensures chunkCount == |onDisk| && totalBytes == SumBytes(onDisk)
    {
      var count, total := ScanDisk(onDisk);
      disk, chunkCount, totalBytes := onDisk, count, total;
    }

    /** `writable` is false when the operating system refuses the write. */
    method StoreChunk(id: ChunkId, data: Bytes, writable: bool) returns (ok: bool)
      modifies this
      ensures ok == writable
      ensures Contents() == Do(old(Contents()), if ok then Store(id, data) else Failed)
      ensures ok ==> disk == old(disk)[id := data]
      ensures ok ==> chunkCount == old(chunkCount) + if id in old(disk) then 0 else 1
      ensures ok ==> totalBytes == old(totalBytes) + |data| - if id in old(disk) then |old(disk)[id]| else 0
    {
      if !writable {
        return false;
      }
      var oldSize := if id in disk then |disk[id]| else -1;
      disk := disk[id := data];
      if oldSize == -1 {
        chunkCount := chunkCount + 1;
        totalBytes := totalBytes + |data|;
      } else {
        totalBytes := totalBytes + |data| - oldSize;
      }
      ok := true;
    }

    /** The batch stops at the first chunk that cannot be written; what came before stays stored, as by
        single stores in order. */
    method StoreChunks(chunks: seq<(ChunkId, Bytes)>, writable: seq<bool>) returns (ok: bool, stored: nat)
      requires |writable| == |chunks|
      modifies this
      ensures stored <= |chunks| && Contents() == Do(old(Contents()), StoreBatch(chunks[..stored]))
      ensures forall i :: 0 <= i < stored ==> writable[i]
      ensures ok <==> stored == |chunks|
      ensures !ok ==> !writable[stored]
    {
      stored := 0;
      for k := 0 to |chunks|
        invariant stored == k && Contents() == StoredEach(old(Contents()), chunks[..k])
        invariant forall i :: 0 <= i < k ==> writable[i]
      {
        if !writable[k] {
          return false, stored;
        }
        var (id, data) := chunks[k];
        assert chunks[..k + 1][..k] == chunks[..k];
        var oldSize := if id in disk then |disk[id]| else -1;
        disk := disk[id := data];
        if oldSize == -1 {
          chunkCount := chunkCount + 1;
        }
        totalBytes := totalBytes + |data| - (if oldSize < 0 then 0 else oldSize);
        stored := stored + 1;
      }
      ok := true;
    }

    method GetChunk(id: ChunkId, readable: bool) returns (data: Option<Bytes>)
      ensures data == if id in disk && readable then Some(disk[id]) else None
    {
      data := if id in disk && readable then Some(disk[id]) else None;
    }

    method GetChunks(ids: seq<ChunkId>, readable: ChunkId -> bool)
      returns (ok: bool, found: seq<(ChunkId, Bytes)>, missing: seq<ChunkId>)
      ensures EachAnswered(disk, readable, ids, found, missing)
      ensures forall id :: id in ids && id in disk && readable(id) ==> (id, disk[id]) in found
      ensures forall id :: id in ids && !(id in disk && readable(id)) ==> id in missing
      ensures |found| + |missing| == |ids|
      ensures ok <==> forall id :: id in ids ==> id in disk && readable(id)
    {
      found, missing := [], [];
      for k := 0 to |ids|
        invariant EachAnswered(disk, readable, ids[..k], found, missing)
      {
        assert ids[..k + 1] == ids[..k] + [ids[k]];
        if ids[k] in disk && readable(ids[k]) {
          found := found + [(ids[k], disk[ids[k]])];
        } else {
          missing := missing + [ids[k]];
        }
      }
      assert ids[..|ids|] == ids;
      ok := missing == [];
      if !ok { assert missing[0] in missing; }
    }

    /** Idempotent: an absent chunk is no error. */
    method DeleteChunk(id: ChunkId)
      modifies this
      ensures Contents() == Do(old(Contents()), Remove(id))
      ensures id !in disk && disk.Keys == old(disk.Keys) - {id}
      ensures forall x :: x in disk ==> disk[x] == old(disk)[x]
      ensures chunkCount == old(chunkCount) - if id in old(disk) then 1 else 0
      ensures totalBytes == old(totalBytes) - if id in old(disk) then |old(disk)[id]| else 0
    {
      if id in disk {
        var oldSize := |disk[id]|;
        disk := disk - {id};
        chunkCount := chunkCount - 1;
        totalBytes := totalBytes - oldSize;
      }
    }

    /** Server to server: fetch from `source`, which may be out of reach, then store here. On success
        both servers hold the same bytes under the id. */
    method ReplicateChunk(id: ChunkId, source: StorageServicer, reachable: bool, writable: bool) returns (ok: bool)
      modifies this
      ensures ok <==> reachable && writable && id in old(source.disk)
      ensures ok ==> Contents() == Do(old(Contents()), Store(id, old(source.disk)[id]))
      ensures ok ==> id in disk && id in source.disk && disk[id] == source.disk[id]
      ensures !ok ==> Contents() == old(Contents())
    {
      var data := source.GetChunk(id, reachable);
      if data.None? {
        return false;
      }
      ok := StoreChunk(id, data.value, writable);
    }

    /** Removes files in order, up to the first removal that is refused. */
    method RemoveFiles(order: seq<ChunkId>, removable: seq<bool>) returns (n: nat)
      requires |removable| == |order|
      modifies this`disk
      ensures n <= |order| && disk == old(disk) - Elems(order[..n])
      ensures forall i :: 0 <= i < n ==> removable[i]
      ensures n < |order| ==> !removable[n]
    {
      n := 0;
      NothingGone(disk);
      while n < |order| && removable[n]
        invariant n <= |order| && disk == old(disk) - Elems(order[..n])
        invariant forall i :: 0 <= i < n ==> removable[i]
      {
        assert order[..n + 1] == order[..n] + [order[n]];
        assert Elems(order[..n + 1]) == Elems(order[..n]) + {order[n]};
        disk := disk - {order[n]};
        n := n + 1;
      }
    }

    /** The orphan scrub, in the given order of removal. A removal the operating system refuses ends it
        there, before the counters are read again. */
    method CleanupOrphans(expected: set<ChunkId>, order: seq<ChunkId>, removable: seq<bool>)
      returns (finished: bool, ghost gone: seq<ChunkId>)
      requires Distinct(order) && Elems(order) == disk.Keys - expected && |removable| == |order|
      modifies this
      ensures gone <= order && CanDo(old(Contents()), Scrub(expected, gone, finished))
      ensures Contents() == Do(old(Contents()), Scrub(expected, gone, finished))
      ensures finished <==> forall i :: 0 <= i < |order| ==> removable[i]
      ensures disk.Keys == old(disk.Keys) - Elems(gone) && forall x :: x in disk ==> disk[x] == old(disk)[x]
      ensures finished ==> disk.Keys == old(disk.Keys) * expected
      ensures finished && order != [] ==> chunkCount == |disk| && totalBytes == SumBytes(disk)
      ensures !finished || order == [] ==> chunkCount == old(chunkCount) && totalBytes == old(totalBytes)
      ensures Counted(old(Contents())) ==> (Counted(Contents()) <==> finished || gone == [])
    {
      hide SumBytes, Distinct, Elems, CanDo, Do, Counted, Synced;
      ghost var before := Contents();
      if order == [] {
        NoOrphans(before, expected, order);
        KeptKeys(before.disk, expected, order, 0);
        return true, [];
      }
      var n := RemoveFiles(order, removable);
      finished, gone := n == |order|, order[..n];
      PartScrub(before, expected, order, n);
      KeptKeys(before.disk, expected, order, n);
      if finished {
        var count, total := ScanDisk(disk);
        chunkCount, totalBytes := count, total;
      }
    }
  }

  /** What a scrub keeps. */
  lemma KeptKeys(disk: Disk, expected: set<ChunkId>, order: seq<ChunkId>, n: nat)
    requires Elems(order) == disk.Keys - expected && n <= |order|
    ensures (disk - Elems(order[..n])).Keys == disk.Keys - Elems(order[..n])
    ensures n == |order| ==> disk.Keys - Elems(order[..n]) == disk.Keys * expected
    ensures n == 0 ==> order[..n] == [] && disk.Keys - Elems(order[..n]) == disk.Keys
  {
    assert n == |order| ==> order[..n] == order;
  }

  lemma NoOrphans(s: Server, expected: set<ChunkId>, order: seq<ChunkId>)
    requires order == [] && Elems(order) == s.disk.Keys - expected
    ensures CanDo(s, Scrub(expected, [], true)) && Do(s, Scrub(expected, [], true)) == s
  {
    assert Elems(order) == {};
    forall id | id in s.disk ensures id in expected {
      assert id !in Elems(order);
    }
  }

  lemma PartScrub(s: Server, expected: set<ChunkId>, order: seq<ChunkId>, n: nat)
    requires order != [] && n <= |order| && Distinct(order) && Elems(order) == s.disk.Keys - expected
    ensures var gone, finished := order[..n], n == |order|;
      && CanDo(s, Scrub(expected, gone, finished))
      && Do(s, Scrub(expected, gone, finished))
          == (if finished then Synced(s.disk - Elems(gone)) else s.(disk := s.disk - Elems(gone)))
      && (Counted(s) ==> (Counted(Do(s, Scrub(expected, gone, finished))) <==> finished || gone == []))
  {
    hide SumBytes;
    assert order[0] in Elems(order);
    assert Elems(order[..n]) <= Elems(order);
    assert n == |order| ==> order[..n] == order;
    if Counted(s) {
      ScrubCounted(s, expected, order[..n], n == |order|);
    }
  }
}
