/** gfs/config.py and the pure slicing of gfs/client/client.py. */
module Chunking {
  import opened Base

  const CHUNK_SIZE := 1024
  const BATCH_SIZE := 1024

  /** How many chunks hold `size` bytes; none for sizes that are not positive. */
  function NumChunksForSize(size: int): (n: nat)
    ensures size > 0 ==> 1024 * (n - 1) < size <= 1024 * n
    ensures size <= 0 ==> n == 0
  {
    if size <= 0 then 0 else (size + CHUNK_SIZE - 1) / CHUNK_SIZE
  }

  /** Consecutive slices of the given width; the last may be shorter. */
  function Slices<T>(xs: seq<T>, width: nat): (pieces: seq<seq<T>>)
    requires width > 0
    ensures Concat(pieces) == xs
    ensures forall k :: 0 <= k < |pieces| ==> 0 < |pieces[k]| <= width
    ensures forall k :: 0 <= k < |pieces| - 1 ==> |pieces[k]| == width
  {
    if xs == [] then []
    else if |xs| <= width then [xs]
    else
      [xs[..width]] + Slices(xs[width..], width)
  }

  function SplitChunks(data: Bytes): (pieces: seq<Bytes>) {
    Slices(data, CHUNK_SIZE)
  }

  function ChunkIdBatches(ids: seq<ChunkId>): (batches: seq<seq<ChunkId>>) {
    Slices(ids, BATCH_SIZE)
  }

  /** The client's piece count is the number of chunks its size calls for. */
  lemma {:induction false} SplitCount(data: Bytes)
    ensures |SplitChunks(data)| == NumChunksForSize(|data|)
  {
    if |data| > CHUNK_SIZE {
      SplitCount(data[CHUNK_SIZE..]);
    }
  }

  /** Cutting into pieces of the chunk size is the only way to cut: any list of pieces that joins
      to the data, all full but a non-empty last one, is the client's split. */
  lemma {:induction false} SplitUnique(data: Bytes, pieces: seq<Bytes>)
    requires Concat(pieces) == data
    requires forall k :: 0 <= k < |pieces| ==> 0 < |pieces[k]| <= 1024
    requires forall k :: 0 <= k < |pieces| - 1 ==> |pieces[k]| == 1024
    ensures pieces == SplitChunks(data)
  {
    if |pieces| <= 1 {
      if |pieces| == 1 { assert pieces == [pieces[0]] && pieces[0] + [] == pieces[0]; }
    } else {
      var rest := pieces[1..];
      assert |Concat(rest)| > 0 by { assert Concat(rest) == rest[0] + Concat(rest[1..]); }
      assert data == pieces[0] + Concat(rest);
      assert data[CHUNK_SIZE..] == Concat(rest) && data[..CHUNK_SIZE] == pieces[0];
      SplitUnique(Concat(rest), rest);
      assert pieces == [pieces[0]] + rest;
    }
  }
}
