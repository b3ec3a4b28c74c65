/** The block read the driver uses to drain the gesture FIFO: select the FIFO
    register, then read the requested length in transfers of at most 32
    bytes. The transport is given as its outcomes: whether selecting the
    register succeeds, and what each successive transfer delivers. */
module Fifo {

  const BLOCK_SIZE: int := 32

  /** One transfer: the bytes it delivers and whether it reported success. */
  datatype Chunk = Chunk(bytes: seq<bv8>, ok: bool)

  /** The block read's results: the buffer, the count of bytes accepted, and
      whether it ended with a transport error. */
  datatype Block = Block(data: seq<bv8>, bytesRead: int, failed: bool)

  function Min(a: int, b: int): (m: int)
    ensures m <= a && m <= b && (m == a || m == b)
  {
    if a < b then a else b
  }

  /** Transfer j; a transfer past the given ones fails and delivers nothing. */
  function ChunkAt(chunks: seq<Chunk>, j: nat): Chunk {
    if j < |chunks| then chunks[j] else Chunk([], false)
  }

  /** `data` with `src` copied over it starting at `off`. */
  function Overwrite(data: seq<bv8>, off: nat, src: seq<bv8>): (res: seq<bv8>)
    requires off + |src| <= |data|
    ensures |res| == |data|
    ensures forall i :: 0 <= i < |data| ==> res[i] == if off <= i < off + |src| then src[i - off] else data[i]
  {
    data[..off] + src + data[off + |src|..]
  }

  /** The bytes transfer k must deliver when `length` bytes are requested. */
  function Want(length: nat, k: nat): int {
    Min(BLOCK_SIZE, length - BLOCK_SIZE * k)
  }

  /** Transfer k is accepted: it succeeds and delivers at least what is asked. */
  predicate Full(chunks: seq<Chunk>, length: nat, k: nat) {
    ChunkAt(chunks, k).ok && |ChunkAt(chunks, k).bytes| >= Want(length, k)
  }

  /** The number of transfers a length needs. */
  function Transfers(length: nat): nat {
    (length + BLOCK_SIZE - 1) / BLOCK_SIZE
  }

  /** Every transfer a length needs is accepted. */
  predicate AllFull(chunks: seq<Chunk>, length: nat) {
    forall j :: 0 <= j < Transfers(length) ==> Full(chunks, length, j)
  }

  /** The transfer loop from transfer k on. Transfer k is copied to offset k
      of the buffer (the loop advances its offset by one per transfer), and a
      failed or short transfer ends the loop without being counted. */
  function Fill(length: nat, k: nat, chunks: seq<Chunk>, data: seq<bv8>, bytesRead: int): (b: Block)
    requires |data| == length
    ensures |b.data| == length
    decreases length - BLOCK_SIZE * k
  {
    if length - BLOCK_SIZE * k <= 0 then Block(data, bytesRead, false)
    else
      var want := Want(length, k);
      var c := ChunkAt(chunks, k);
      if !c.ok || Min(|c.bytes|, want) != want then Block(data, bytesRead, !c.ok)
      else Fill(length, k + 1, chunks, Overwrite(data, k, c.bytes[..want]), bytesRead + want)
  }

  /** What wireReadBlock returns for the requested length. */
  function ReadBlock(length: nat, selectOk: bool, chunks: seq<Chunk>): (b: Block)
    ensures |b.data| == length
  {
    var zeros := seq(length, _ => 0 as bv8);
    if !selectOk then Block(zeros, 0, true)
    else Fill(length, 0, chunks, zeros, 0)
  }

  /** Copies one transfer's bytes into the buffer from offset `off` on. */
  method CopyInto(a: array<bv8>, off: nat, src: seq<bv8>)
    requires off + |src| <= a.Length
    modifies a
    ensures a[..] == Overwrite(old(a[..]), off, src)
  {
    for i := 0 to |src|
      invariant forall j :: 0 <= j < a.Length ==>
        a[j] == if off <= j < off + i then src[j - off] else old(a[j])
    {
      a[off + i] := src[i];
    }
  }

  /** The block read as the driver performs it, transfer by transfer. */
  method WireReadBlock(length: nat, selectOk: bool, chunks: seq<Chunk>) returns (b: Block)
    ensures b == ReadBlock(length, selectOk, chunks)
  {
    var fifoData := new bv8[length](_ => 0);
    assert fifoData[..] == seq(length, _ => 0 as bv8);
    var bytesRead := 0;
    if !selectOk {
      return Block(fifoData[..], bytesRead, true);
    }
    var remaining: int := length;
    var k: nat := 0;
    while remaining > 0
      invariant remaining == length - BLOCK_SIZE * k
      invariant Fill(length, k, chunks, fifoData[..], bytesRead) == ReadBlock(length, selectOk, chunks)
      decreases remaining
    {
      var bufLength := Min(BLOCK_SIZE, remaining);
      var c := ChunkAt(chunks, k);
      var rb := Min(|c.bytes|, bufLength);
      if !c.ok || rb != bufLength {
        return Block(fifoData[..], bytesRead, !c.ok);
      }
      CopyInto(fifoData, k, c.bytes[..bufLength]);
      k := k + 1;
      remaining := remaining - BLOCK_SIZE;
      bytesRead := bytesRead + rb;
    }
    return Block(fifoData[..], bytesRead, false);
  }

  /** The transfer loop counts exactly the requested length, without error,
      precisely when every remaining transfer is accepted. */
  lemma {:induction false} FillComplete(length: nat, k: nat, chunks: seq<Chunk>, data: seq<bv8>, bytesRead: int)
    requires |data| == length && BLOCK_SIZE * k <= length + BLOCK_SIZE - 1
    requires bytesRead == Min(length, BLOCK_SIZE * k)
    ensures var b := Fill(length, k, chunks, data, bytesRead);
      (b.bytesRead == length && !b.failed) <==> forall j :: k <= j < Transfers(length) ==> Full(chunks, length, j)
    ensures Fill(length, k, chunks, data, bytesRead).bytesRead <= length
    decreases length - BLOCK_SIZE * k
  {
    if length - BLOCK_SIZE * k > 0 {
      var want := Want(length, k);
      var c := ChunkAt(chunks, k);
      if !c.ok || Min(|c.bytes|, want) != want {
        assert !Full(chunks, length, k);
      } else {
        FillComplete(length, k + 1, chunks, Overwrite(data, k, c.bytes[..want]), bytesRead + want);
      }
    }
  }

  /** A block read delivers exactly the requested length, without error,
      precisely when selecting the register and every transfer succeed. */
  lemma ReadBlockComplete(length: nat, selectOk: bool, chunks: seq<Chunk>)
    ensures var b := ReadBlock(length, selectOk, chunks);
      (b.bytesRead == length && !b.failed) <==> selectOk && AllFull(chunks, length)
    ensures ReadBlock(length, selectOk, chunks).bytesRead <= length
  {
    if selectOk {
      FillComplete(length, 0, chunks, seq(length, _ => 0 as bv8), 0);
    }
  }

  /** A block of at most 32 bytes is the first transfer's bytes. */
  lemma ReadBlockSingleTransfer(length: nat, chunks: seq<Chunk>)
    requires 0 < length <= BLOCK_SIZE && Full(chunks, length, 0)
    ensures ReadBlock(length, true, chunks) == Block(chunks[0].bytes[..length], length, false)
  {
    var zeros := seq(length, _ => 0 as bv8);
    assert Want(length, 0) == length;
    var data := Overwrite(zeros, 0, chunks[0].bytes[..length]);
    assert data == chunks[0].bytes[..length];
    assert Fill(length, 1, chunks, data, length) == Block(data, length, false);
  }

  /** A 64-byte block keeps only the first byte of the first transfer: the
      second transfer is copied over it from offset 1, and the last 31 bytes
      stay zero. */
  lemma ReadBlockTwoTransfers(chunks: seq<Chunk>)
    requires Full(chunks, 64, 0) && Full(chunks, 64, 1)
    ensures ReadBlock(64, true, chunks) ==
      Block([chunks[0].bytes[0]] + chunks[1].bytes[..32] + seq(31, _ => 0 as bv8), 64, false)
  {
    var zeros := seq(64, _ => 0 as bv8);
    var d1 := Overwrite(zeros, 0, chunks[0].bytes[..32]);
    var d2 := Overwrite(d1, 1, chunks[1].bytes[..32]);
    assert Fill(64, 2, chunks, d2, 64) == Block(d2, 64, false);
    assert d2 == [chunks[0].bytes[0]] + chunks[1].bytes[..32] + seq(31, _ => 0 as bv8);
  }
}
