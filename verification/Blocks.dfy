/** Splitting a byte stream into blocks of at most BLOCK_SIZE bytes, and joining blocks again. */
module Blocks {
  import opened Wrappers

  type byte = x: int | 0 <= x < 256

  const BLOCK_SIZE: nat := 512

  datatype FileBlock = FileBlock(block: seq<byte>)

  /** The blocks of a stream: full blocks, then the remainder if there is one. */
  function Chunks(data: seq<byte>): seq<seq<byte>>
    decreases |data|
  {
    if data == [] then []
    else if |data| <= BLOCK_SIZE then [data]
    else [data[..BLOCK_SIZE]] + Chunks(data[BLOCK_SIZE..])
  }

  function Flatten(chunks: seq<seq<byte>>): seq<byte> {
    if chunks == [] then [] else chunks[0] + Flatten(chunks[1..])
  }

  function Payloads(blocks: seq<FileBlock>): (r: seq<seq<byte>>)
    ensures |r| == |blocks| && forall i :: 0 <= i < |r| ==> r[i] == blocks[i].block
  {
    seq(|blocks|, i requires 0 <= i < |blocks| => blocks[i].block)
  }

  /** Every block holds between 1 and BLOCK_SIZE bytes. */
  ghost predicate WellSized(chunks: seq<seq<byte>>) {
    forall i :: 0 <= i < |chunks| ==> 1 <= |chunks[i]| <= BLOCK_SIZE
  }

  method ByteToBlock(data: seq<byte>) returns (list: seq<FileBlock>)
    ensures Payloads(list) == Chunks(data)
  {
    var size := |data|;
    var blockNum := (size + BLOCK_SIZE - 1) / BLOCK_SIZE;
    list := [];
    for i := 0 to blockNum
      invariant i < blockNum ==> i * BLOCK_SIZE < size
      invariant Chunks(data) == Payloads(list) + Chunks(data[if i * BLOCK_SIZE < size then i * BLOCK_SIZE else size..])
    {
      var start := i * BLOCK_SIZE;
      var end := start + BLOCK_SIZE;
      if end > size {
        end := size;
      }
      var fileBlock := FileBlock(data[start..end]);
      ghost var rest := data[start..];
      assert rest[..end - start] == data[start..end] && rest[end - start..] == data[end..];
      assert end == size ==> rest == data[start..end] && Chunks(data[end..]) == [];
      assert Chunks(rest) == [data[start..end]] + Chunks(data[end..]);
      assert Payloads(list + [fileBlock]) == Payloads(list) + [data[start..end]];
      list := list + [fileBlock];
    }
  }

  method BlockYToByte(blocks: Option<seq<FileBlock>>, totalSize: int) returns (data: seq<byte>)
    ensures var all := if blocks.None? then [] else Flatten(Payloads(blocks.value));
            data == if totalSize < 0 then [] else if totalSize < |all| then all[..totalSize] else all
  {
    if totalSize <= 0 || blocks.None? || |blocks.value| == 0 {
      return [];
    }
    var list := blocks.value;
    ghost var payloads := Payloads(list);
    data := [];
    for i := 0 to |list|
      invariant data == Flatten(payloads[..i])
    {
      assert payloads[..i + 1] == payloads[..i] + [list[i].block];
      FlattenAppend(payloads[..i], [list[i].block]);
      assert Flatten([list[i].block]) == list[i].block;
      data := data + list[i].block;
    }
    assert payloads[..|list|] == payloads;
    if |data| > totalSize {
      data := data[..totalSize];
    }
  }

  /** Splitting then joining gives the stream back, block boundaries included. */
  lemma {:induction false} FlattenChunks(data: seq<byte>)
    ensures Flatten(Chunks(data)) == data
    ensures WellSized(Chunks(data))
    ensures |Chunks(data)| == (|data| + 511) / 512
    ensures forall k :: 0 <= k < |Chunks(data)| ==> 1 <= |Chunks(data)[k]| <= 512
    decreases |data|
  {
    if data == [] {
    } else if |data| <= BLOCK_SIZE {
      assert Flatten([data]) == data + Flatten([data][1..]);
    } else {
      FlattenChunks(data[BLOCK_SIZE..]);
      assert Chunks(data)[1..] == Chunks(data[BLOCK_SIZE..]);
      assert data == data[..BLOCK_SIZE] + data[BLOCK_SIZE..];
    }
  }

  /** Only the last block may be short: block k is exactly the k-th window of the stream. */
  lemma {:induction false} ChunkAt(data: seq<byte>, k: nat)
    requires k < |Chunks(data)|
    ensures 512 * k < |data|
    ensures Chunks(data)[k] == data[512 * k..if 512 * k + 512 < |data| then 512 * k + 512 else |data|]
    decreases |data|
  {
    if |data| > BLOCK_SIZE && k > 0 {
      ChunkAt(data[BLOCK_SIZE..], k - 1);
    }
  }

  lemma {:induction false} FlattenAppend(a: seq<seq<byte>>, b: seq<seq<byte>>)
    ensures Flatten(a + b) == Flatten(a) + Flatten(b)
  {
    if a == [] {
      assert a + b == b;
    } else {
      FlattenAppend(a[1..], b);
      assert (a + b)[1..] == a[1..] + b;
    }
  }
}
