/**
 * Immutable assets: validated ranges and chunks, the in-memory store, and
 * `read_asset_fully`, which assembles an asset from bounded range reads.
 */
module AssetRead {
  import opened Prelude

  datatype AssetId = AssetId(uuid: nat)

  type Bytes = seq<byte>

  /** The largest byte buffer a process can hold (`isize::MAX`). */
  const MAX_BYTES := 0x7FFF_FFFF_FFFF_FFFF

  const READ_CHUNK_SIZE: u64 := 64 * 1024

  datatype RangeError = ZeroLength | RangeOverflow

  datatype ByteRange = ByteRange(offset: u64, length: u64) {
    predicate Valid() { length > 0 && offset + length <= U64_MAX }

    function EndOffset(): Option<u64> { CheckedAdd(offset, length) }
  }

  /** `AssetByteRange::new`. */
  function NewRange(offset: u64, length: u64): (r: Result<ByteRange, RangeError>)
    ensures r.Ok? <==> ByteRange(offset, length).Valid()
    ensures r.Ok? ==> r.value.offset == offset && r.value.length == length
    ensures r == Err(ZeroLength) <==> length == 0
  {
    if length == 0 then Err(ZeroLength)
    else if CheckedAdd(offset, length).None? then Err(RangeOverflow)
    else Ok(ByteRange(offset, length))
  }

  /** A range a caller can hold. */
  type Range = r: ByteRange | r.Valid() witness ByteRange(0, 1)

  datatype ChunkError = OffsetBeyondTotal | ChunkOverflow | BytesBeyondTotal | EmptyBeforeEof

  datatype ByteChunk = ByteChunk(offset: u64, bytes: Bytes, totalLength: u64) {
    predicate Valid() {
      |bytes| <= MAX_BYTES && offset + |bytes| <= totalLength && (bytes == [] ==> offset == totalLength)
    }

    function NextOffset(): Option<u64>
      requires |bytes| <= MAX_BYTES
    {
      CheckedAdd(offset, |bytes|)
    }
  }

  /** `AssetByteChunk::new`: the only way to make a chunk. */
  function NewChunk(offset: u64, bytes: Bytes, totalLength: u64): (r: Result<ByteChunk, ChunkError>)
    requires |bytes| <= MAX_BYTES
    ensures r.Ok? <==> offset + |bytes| <= totalLength && (bytes == [] ==> offset == totalLength)
    ensures r.Ok? ==> r.value == ByteChunk(offset, bytes, totalLength) && r.value.Valid()
    ensures r == Err(OffsetBeyondTotal) <==> offset > totalLength
    ensures r == Err(EmptyBeforeEof) <==> bytes == [] && offset < totalLength
    ensures r == Err(ChunkOverflow) <==> offset <= totalLength && offset + |bytes| > U64_MAX
  {
    if offset > totalLength then Err(OffsetBeyondTotal)
    else if CheckedAdd(offset, |bytes|).None? then Err(ChunkOverflow)
    else if CheckedAdd(offset, |bytes|).value > totalLength then Err(BytesBeyondTotal)
    else if bytes == [] && offset < totalLength then Err(EmptyBeforeEof)
    else Ok(ByteChunk(offset, bytes, totalLength))
  }

  /** A chunk a reader can hand out. */
  type Chunk = c: ByteChunk | c.Valid() witness ByteChunk(0, [], 0)

  datatype ReadError = AssetMissing | RangeOutOfBounds | ReadUnavailable

  // ---------------------------------------------------------------------------
  // The in-memory store.

  datatype Descriptor = Descriptor(id: AssetId, byteLength: u64, contentHash: nat)
  datatype Record = Record(descriptor: Descriptor, bytes: Bytes)
  datatype InsertOutcome = Inserted | Existing
  datatype InsertError = LengthMismatch | HashMismatch | AssetConflict

  predicate Consistent(records: map<AssetId, Record>) {
    forall id :: id in records ==>
                   records[id].descriptor.id == id && records[id].descriptor.byteLength == |records[id].bytes| <= MAX_BYTES
  }

  /** `MemoryAssetStore::read_range`. */
  function ReadRange(records: map<AssetId, Record>, id: AssetId, range: Range): Result<Chunk, ReadError>
    requires Consistent(records)
  {
    if id !in records then Err(AssetMissing) else
    var total := records[id].descriptor.byteLength;
    if range.offset > total then Err(RangeOutOfBounds) else
    var end := if range.EndOffset().value < total then range.EndOffset().value else total;
    var bytes := if range.offset == total then [] else records[id].bytes[range.offset..end];
    match NewChunk(range.offset, bytes, total)
    case Ok(chunk) => Ok(chunk)
    case Err(_) => Err(ReadUnavailable)
  }

  class MemoryAssetStore {
    var records: map<AssetId, Record>
    const sha256: Bytes -> nat

    constructor (sha256: Bytes -> nat)
      ensures records == map[] && Consistent(records) && this.sha256 == sha256
    {
      records := map[];
      this.sha256 := sha256;
    }

    /**
     * `insert_verified`: only bytes that match their descriptor enter, and an asset once
     * inserted is never replaced.
     */
    method InsertVerified(descriptor: Descriptor, bytes: Bytes) returns (r: Result<InsertOutcome, InsertError>)
      requires Consistent(records) && |bytes| <= MAX_BYTES
      modifies this
      ensures Consistent(records)
      ensures forall id :: id in old(records) ==> id in records && records[id] == old(records)[id]
      ensures r.Ok? <==> && descriptor.byteLength == |bytes| && descriptor.contentHash == sha256(bytes)
                         && (descriptor.id in old(records) ==> old(records)[descriptor.id] == Record(descriptor, bytes))
      ensures r.Ok? ==> records == old(records)[descriptor.id := Record(descriptor, bytes)]
      ensures r.Ok? ==> r.value == if descriptor.id in old(records) then Existing else Inserted
      ensures r == Err(LengthMismatch) <==> descriptor.byteLength != |bytes|
      ensures r == Err(HashMismatch) <==> descriptor.byteLength == |bytes| && descriptor.contentHash != sha256(bytes)
      ensures r.Err? ==> records == old(records)
    {
      if descriptor.byteLength != |bytes| {
        return Err(LengthMismatch);
      }
      if descriptor.contentHash != sha256(bytes) {
        return Err(HashMismatch);
      }
      if descriptor.id in records {
        var existing := records[descriptor.id];
        r := if existing.descriptor == descriptor && existing.bytes == bytes then Ok(Existing) else Err(AssetConflict);
        assert r.Ok? ==> records == records[descriptor.id := Record(descriptor, bytes)];
        return;
      }
      records := records[descriptor.id := Record(descriptor, bytes)];
      r := Ok(Inserted);
    }
  }

  // ---------------------------------------------------------------------------
  // Reading an asset fully.

  datatype ChunkFault =
    | GeneratedInvalidRange
    | MetadataDisagrees
    | LengthDisagrees
    | NextOffsetOverflowed
    | NoForwardProgress
    | AssembledLengthDisagrees

  datatype ReadAllError =
    | CatalogUnavailable
    | NotFound
    | AssetTooLarge(length: u64, maxBytes: u64)
    | LengthOverflow
    | Reader(source: ReadError)
    | InvalidChunk(fault: ChunkFault)

  /** What the catalog answers. */
  datatype Lookup = LookupFailed | Absent | Present(descriptor: Descriptor)

  /** A reader port: any answer to each range, which may differ from call to call. */
  type ReaderPort = (nat, Range) -> Result<Chunk, ReadError>

  /** The number of 64 KiB blocks begun by an asset. */
  function Blocks(total: u64): nat {
    (total + READ_CHUNK_SIZE - 1) / READ_CHUNK_SIZE
  }

  lemma {:induction false} BlockIsCounted(total: u64, i: nat)
    ensures i * READ_CHUNK_SIZE < total <==> i < Blocks(total)
  {
    var n := Blocks(total);
    assert (n - 1) * READ_CHUNK_SIZE < total <= n * READ_CHUNK_SIZE || total == n == 0;
  }

  function Block(total: u64, i: nat): Range
    requires i * READ_CHUNK_SIZE < total
  {
    var at := i * READ_CHUNK_SIZE;
    ByteRange(at, if total - at < READ_CHUNK_SIZE then total - at else READ_CHUNK_SIZE)
  }

  /** Read number i was answered with a chunk of exactly the i-th block. */
  predicate Answered(reader: ReaderPort, total: u64, i: nat)
    requires i * READ_CHUNK_SIZE < total
  {
    var block := Block(total, i);
    var answer := reader(i, block);
    && answer.Ok? && answer.value.offset == block.offset && answer.value.totalLength == total
    && |answer.value.bytes| == block.length
  }

  /** ... and its bytes stand at the block's place in the output. */
  predicate InPlace(reader: ReaderPort, total: u64, i: nat, output: Bytes)
    requires i * READ_CHUNK_SIZE < total
  {
    var block := Block(total, i);
    && Answered(reader, total, i) && block.offset + block.length <= |output|
    && output[block.offset..block.offset + block.length] == reader(i, block).value.bytes
  }

  /**
   * `read_asset_fully`, for any reader whatsoever. It reads the blocks in order, each
   * once; it succeeds exactly when every block is answered, with the answers laid end to
   * end at the declared length; otherwise the last read is the one that was not answered.
   * The faults its own arithmetic guards against never occur.
   */
  method ReadAssetFully(lookup: Lookup, reader: ReaderPort, maxBytes: u64)
    returns (r: Result<Bytes, ReadAllError>, calls: nat)
    ensures !lookup.Present? ==> calls == 0 && r == Err(if lookup.Absent? then NotFound else CatalogUnavailable)
    ensures lookup.Present? && lookup.descriptor.byteLength > maxBytes ==>
              calls == 0 && r == Err(AssetTooLarge(lookup.descriptor.byteLength, maxBytes))
    ensures lookup.Present? && lookup.descriptor.byteLength <= maxBytes ==>
              var total := lookup.descriptor.byteLength;
              && calls <= Blocks(total) == (total + 65535) / 65536
              && (forall i :: 0 <= i < calls ==> i * READ_CHUNK_SIZE < total)
              && (r.Ok? ==> && calls == Blocks(total) && |r.value| == total
                            && forall i :: 0 <= i < calls ==> InPlace(reader, total, i, r.value))
              && (r.Err? ==> && calls > 0 && !Answered(reader, total, calls - 1)
                             && (reader(calls - 1, Block(total, calls - 1)).Err? ==>
                                   r.error == Reader(reader(calls - 1, Block(total, calls - 1)).error))
                             && (reader(calls - 1, Block(total, calls - 1)).Ok? ==>
                                   var chunk := reader(calls - 1, Block(total, calls - 1)).value;
                                   r.error == InvalidChunk(
                                     if chunk.offset != Block(total, calls - 1).offset || chunk.totalLength != total then MetadataDisagrees
                                     else LengthDisagrees)))
    ensures r.Err? && r.error.InvalidChunk? ==> r.error.fault.MetadataDisagrees? || r.error.fault.LengthDisagrees?
    ensures r != Err(LengthOverflow)
  {
    if lookup.LookupFailed? {
      return Err(CatalogUnavailable), 0;
    }
    if lookup.Absent? {
      return Err(NotFound), 0;
    }
    var total := lookup.descriptor.byteLength;
    if total > maxBytes {
      return Err(AssetTooLarge(total, maxBytes)), 0;
    }
    var output: Bytes := [];
    var offset: u64 := 0;
    calls := 0;
    while offset < total
      invariant offset <= total && |output| == offset
      invariant offset == (if calls * READ_CHUNK_SIZE < total then calls * READ_CHUNK_SIZE else total)
      invariant forall i :: 0 <= i < calls ==> i * READ_CHUNK_SIZE < total
      invariant calls <= Blocks(total)
      invariant forall i :: 0 <= i < calls ==> InPlace(reader, total, i, output)
      decreases total - offset
    {
      var length := if total - offset < READ_CHUNK_SIZE then total - offset else READ_CHUNK_SIZE;
      var range := NewRange(offset, length);
      if range.Err? {
        return Err(InvalidChunk(GeneratedInvalidRange)), calls;
      }
      assert range.value == Block(total, calls);
      BlockIsCounted(total, calls);
      var answer := reader(calls, range.value);
      calls := calls + 1;
      if answer.Err? {
        return Err(Reader(answer.error)), calls;
      }
      var chunk := answer.value;
      if chunk.offset != offset || chunk.totalLength != total {
        return Err(InvalidChunk(MetadataDisagrees)), calls;
      }
      if |chunk.bytes| != length {
        return Err(InvalidChunk(LengthDisagrees)), calls;
      }
      var next := chunk.NextOffset();
      if next.None? {
        return Err(InvalidChunk(NextOffsetOverflowed)), calls;
      }
      if next.value <= offset || next.value > total {
        return Err(InvalidChunk(NoForwardProgress)), calls;
      }
      output := Extend(reader, total, calls - 1, output, chunk.bytes);
      offset := next.value;
    }
    BlockIsCounted(total, calls);
    if |output| != total {
      return Err(InvalidChunk(AssembledLengthDisagrees)), calls;
    }
    r := Ok(output);
  }

  /** `extend_from_slice`: the blocks already in place stay there. */
  method Extend(reader: ReaderPort, total: u64, done: nat, output: Bytes, bytes: Bytes) returns (longer: Bytes)
    requires forall i :: 0 <= i < done ==> i * READ_CHUNK_SIZE < total && InPlace(reader, total, i, output)
    requires done * READ_CHUNK_SIZE < total && |output| == Block(total, done).offset
    requires Answered(reader, total, done) && bytes == reader(done, Block(total, done)).value.bytes
    ensures longer == output + bytes
    ensures forall i :: 0 <= i <= done ==> InPlace(reader, total, i, longer)
  {
    longer := output + bytes;
    forall i | 0 <= i < done ensures InPlace(reader, total, i, longer) {
      assert InPlace(reader, total, i, output);
      var block := Block(total, i);
      assert longer[block.offset..block.offset + block.length] == output[block.offset..block.offset + block.length];
    }
    assert longer[|output|..] == bytes;
  }

  /**
   * The memory store answers every range it is asked for: the bytes from the offset up to
   * the range's end or the asset's, nothing at the very end, and an error beyond it.
   */
  lemma {:induction false} StoreAnswersEveryRange(records: map<AssetId, Record>, id: AssetId, range: Range)
    requires Consistent(records)
    ensures var r := ReadRange(records, id, range);
            if id !in records then r == Err(AssetMissing) else
            var total := |records[id].bytes|;
            if range.offset > total then r == Err(RangeOutOfBounds)
            else if range.offset + range.length <= total then
              r == Ok(ByteChunk(range.offset, records[id].bytes[range.offset..range.offset + range.length], total))
            else r == Ok(ByteChunk(range.offset, records[id].bytes[range.offset..], total))
  {
    if id in records && range.offset <= |records[id].bytes| {
      assert records[id].bytes[range.offset..|records[id].bytes|] == records[id].bytes[range.offset..];
    }
  }

  /** Every block of a stored asset is answered, with that block's bytes. */
  lemma {:induction false} StoreAnswers(records: map<AssetId, Record>, id: AssetId, reader: ReaderPort, i: nat)
    requires Consistent(records) && id in records && i * READ_CHUNK_SIZE < |records[id].bytes|
    requires forall n, range: Range :: reader(n, range) == ReadRange(records, id, range)
    ensures Answered(reader, |records[id].bytes|, i)
    ensures var block := Block(|records[id].bytes|, i);
            reader(i, block).value.bytes == records[id].bytes[block.offset..block.offset + block.length]
  {
    var block := Block(|records[id].bytes|, i);
    assert reader(i, block) == ReadRange(records, id, block);
  }

  /** Two byte strings that agree on every block are equal. */
  lemma {:induction false} BlocksDetermine(a: Bytes, b: Bytes)
    requires |a| == |b| <= MAX_BYTES
    requires forall i :: 0 <= i < Blocks(|a|) ==> i * READ_CHUNK_SIZE < |a| && SameBlock(a, b, i)
    ensures a == b
  {
    forall j | 0 <= j < |a| ensures a[j] == b[j] {
      var i := j / READ_CHUNK_SIZE;
      assert SameBlock(a, b, i);
      var block := Block(|a|, i);
      assert a[block.offset..block.offset + block.length][j - block.offset] == b[block.offset..block.offset + block.length][j - block.offset];
    }
  }

  predicate SameBlock(a: Bytes, b: Bytes, i: nat)
    requires |a| == |b| <= MAX_BYTES && i * READ_CHUNK_SIZE < |a|
  {
    var block := Block(|a|, i);
    a[block.offset..block.offset + block.length] == b[block.offset..block.offset + block.length]
  }

  /** Against the memory store the helper returns exactly the inserted bytes, within the caller's limit. */
  method ReadStoredAsset(records: map<AssetId, Record>, id: AssetId, maxBytes: u64) returns (r: Result<Bytes, ReadAllError>)
    requires Consistent(records)
    ensures r == if id !in records then Err(NotFound)
                 else if |records[id].bytes| > maxBytes then Err(AssetTooLarge(|records[id].bytes|, maxBytes))
                 else Ok(records[id].bytes)
  {
    var lookup := if id in records then Present(records[id].descriptor) else Absent;
    var reader: ReaderPort := (n: nat, range: Range) => ReadRange(records, id, range);
    var calls;
    r, calls := ReadAssetFully(lookup, reader, maxBytes);
    if id in records && |records[id].bytes| <= maxBytes {
      forall i | 0 <= i < calls
        ensures i * READ_CHUNK_SIZE < |records[id].bytes| && Answered(reader, |records[id].bytes|, i)
      {
        StoreAnswers(records, id, reader, i);
      }
      forall i | 0 <= i < calls ensures SameBlock(r.value, records[id].bytes, i) {
        StoreAnswers(records, id, reader, i);
        assert InPlace(reader, |records[id].bytes|, i, r.value);
      }
      BlocksDetermine(r.value, records[id].bytes);
    }
  }
}
