/**
 * Cursor and checkpoint tokens: a fixed byte layout carrying a version, a kind, the
 * owning store, for storage adapters a continuation epoch, and a big-endian position.
 */
module EventTokens {
  import opened Prelude

  /** A UUID as its sixteen bytes. */
  type EntityId = s: seq<byte> | |s| == 16 witness seq(16, _ => 0)

  /**
   * A token string, seen through unpadded base64url (section 5 of RFC 4648): either it
   * does not decode, or it is the one spelling of its bytes.
   */
  datatype Token = Undecodable | Base64(bytes: seq<byte>)
  {
    predicate IsEmpty() { this == Base64([]) }
  }

  datatype TokenKind = Cursor | Checkpoint

  function KindByte(kind: TokenKind): byte {
    match kind case Cursor => 1 case Checkpoint => 2
  }

  const TOKEN_VERSION: byte := 1
  const TOKEN_LENGTH := 26
  const STORAGE_TOKEN_VERSION: byte := 1
  const STORAGE_TOKEN_LENGTH := 42

  // ---------------------------------------------------------------------------
  // Big-endian integers.

  function Pow256(width: nat): (r: nat)
    ensures r > 0
  {
    if width == 0 then 1 else 256 * Pow256(width - 1)
  }

  function BigEndian(n: nat, width: nat): (r: seq<byte>)
    ensures |r| == width
  {
    if width == 0 then [] else BigEndian(n / 256, width - 1) + [n % 256]
  }

  function FromBigEndian(bytes: seq<byte>): nat {
    if bytes == [] then 0 else 256 * FromBigEndian(bytes[..|bytes| - 1]) + bytes[|bytes| - 1]
  }

  lemma {:induction false} BigEndianRoundTrip(n: nat, width: nat)
    requires n < Pow256(width)
    ensures FromBigEndian(BigEndian(n, width)) == n
    decreases width
  {
    if width > 0 {
      BigEndianRoundTrip(n / 256, width - 1);
      var high := BigEndian(n / 256, width - 1);
      assert BigEndian(n, width)[..width - 1] == high;
    }
  }

  lemma {:induction false} FromBigEndianRoundTrip(bytes: seq<byte>)
    ensures FromBigEndian(bytes) < Pow256(|bytes|)
    ensures BigEndian(FromBigEndian(bytes), |bytes|) == bytes
    decreases |bytes|
  {
    if bytes != [] {
      var high := bytes[..|bytes| - 1];
      FromBigEndianRoundTrip(high);
      assert FromBigEndian(bytes) / 256 == FromBigEndian(high);
      assert bytes == high + [bytes[|bytes| - 1]];
    }
  }

  /** Network order: the first byte weighs most. */
  lemma {:induction false} FirstByteWeighsMost(b: byte, rest: seq<byte>)
    ensures FromBigEndian([b] + rest) == b * Pow256(|rest|) + FromBigEndian(rest)
    decreases |rest|
  {
    if rest == [] {
      assert [b] + rest == [b] && [b][..0] == [];
    } else {
      var high := rest[..|rest| - 1];
      FirstByteWeighsMost(b, high);
      assert ([b] + rest)[..|rest|] == [b] + high;
      assert 256 * (b * Pow256(|high|)) == b * Pow256(|rest|);
    }
  }

  lemma {:induction false} EightBytesHoldU64()
    ensures Pow256(8) == U64_MAX + 1
  {
    assert Pow256(2) == 0x1_0000;
    assert Pow256(4) == 0x1_0000_0000;
    assert Pow256(6) == 0x1_0000_0000_0000;
  }

  // ---------------------------------------------------------------------------
  // Layouts.

  function MemoryHeader(kind: TokenKind, store: EntityId): seq<byte> {
    [TOKEN_VERSION, KindByte(kind)] + store
  }

  function StorageHeader(kind: TokenKind, store: EntityId, epoch: EntityId): seq<byte> {
    [STORAGE_TOKEN_VERSION, KindByte(kind)] + store + epoch
  }

  /** The token for a position of the memory store. */
  function MemoryToken(kind: TokenKind, store: EntityId, position: u64): Token {
    Base64(MemoryHeader(kind, store) + BigEndian(position, 8))
  }

  function StorageToken(kind: TokenKind, store: EntityId, epoch: EntityId, position: u64): Token {
    Base64(StorageHeader(kind, store, epoch) + BigEndian(position, 8))
  }

  /** `decode_memory_token`. */
  function DecodeMemoryToken(token: Token, kind: TokenKind, store: EntityId): Option<nat> {
    if token.Undecodable? then None else
    var bytes := token.bytes;
    if |bytes| != TOKEN_LENGTH || bytes[0] != TOKEN_VERSION || bytes[1] != KindByte(kind) || bytes[2..18] != store
    then None
    else Some(FromBigEndian(bytes[18..]))
  }

  /** `decode_storage_token`. */
  function DecodeStorageToken(token: Token, kind: TokenKind, store: EntityId, epoch: EntityId): Option<nat> {
    if token.Undecodable? then None else
    var bytes := token.bytes;
    if || |bytes| != STORAGE_TOKEN_LENGTH || bytes[0] != STORAGE_TOKEN_VERSION || bytes[1] != KindByte(kind)
       || bytes[2..18] != store || bytes[18..34] != epoch
    then None
    else Some(FromBigEndian(bytes[34..]))
  }

  /** `copy_from_slice` into part of the byte array. */
  method CopyInto(target: array<byte>, at: nat, source: seq<byte>)
    requires at + |source| <= target.Length
    modifies target
    ensures target[..] == old(target[..at]) + source + old(target[at + |source|..])
  {
    for i := 0 to |source|
      invariant forall k :: 0 <= k < target.Length ==> target[k] == if at <= k < at + i then source[k - at] else old(target[k])
    {
      target[at + i] := source[i];
    }
  }

  method EncodeMemoryToken(kind: TokenKind, store: EntityId, position: u64) returns (token: Token)
    ensures token == MemoryToken(kind, store, position)
  {
    var bytes := new byte[TOKEN_LENGTH](_ => 0);
    bytes[0] := TOKEN_VERSION;
    bytes[1] := KindByte(kind);
    assert bytes[..2] == [TOKEN_VERSION, KindByte(kind)];
    CopyInto(bytes, 2, store);
    assert bytes[..18] == MemoryHeader(kind, store);
    CopyInto(bytes, 18, BigEndian(position, 8));
    token := Base64(bytes[..]);
  }

  method EncodeStorageToken(kind: TokenKind, store: EntityId, epoch: EntityId, position: u64) returns (token: Token)
    ensures token == StorageToken(kind, store, epoch, position)
  {
    var bytes := new byte[STORAGE_TOKEN_LENGTH](_ => 0);
    bytes[0] := STORAGE_TOKEN_VERSION;
    bytes[1] := KindByte(kind);
    assert bytes[..2] == [STORAGE_TOKEN_VERSION, KindByte(kind)];
    CopyInto(bytes, 2, store);
    assert bytes[..18] == MemoryHeader(kind, store);
    CopyInto(bytes, 18, epoch);
    assert bytes[..34] == StorageHeader(kind, store, epoch);
    CopyInto(bytes, 34, BigEndian(position, 8));
    token := Base64(bytes[..]);
  }

  lemma {:induction false} MemoryTokenRoundTrip(kind: TokenKind, store: EntityId, position: u64)
    ensures DecodeMemoryToken(MemoryToken(kind, store, position), kind, store) == Some(position)
  {
    EightBytesHoldU64();
    BigEndianRoundTrip(position, 8);
    var own := MemoryToken(kind, store, position).bytes;
    assert own[2..18] == store && own[18..] == BigEndian(position, 8);
  }

  /**
   * Decoding answers a position exactly for that position's own token: every u64 comes
   * back, and a token of another kind, store or layout answers nothing.
   */
  lemma {:induction false} MemoryTokenDecodesExactly(token: Token, kind: TokenKind, store: EntityId, position: u64)
    ensures DecodeMemoryToken(token, kind, store) == Some(position) <==> token == MemoryToken(kind, store, position)
  {
    MemoryTokenRoundTrip(kind, store, position);
    if DecodeMemoryToken(token, kind, store) == Some(position) {
      var bytes := token.bytes;
      FromBigEndianRoundTrip(bytes[18..]);
      assert bytes == [bytes[0], bytes[1]] + bytes[2..18] + bytes[18..];
    }
  }

  lemma {:induction false} StorageTokenRoundTrip(kind: TokenKind, store: EntityId, epoch: EntityId, position: u64)
    ensures DecodeStorageToken(StorageToken(kind, store, epoch, position), kind, store, epoch) == Some(position)
  {
    EightBytesHoldU64();
    BigEndianRoundTrip(position, 8);
    var header, own := StorageHeader(kind, store, epoch), StorageToken(kind, store, epoch, position).bytes;
    assert header[2..18] == store && header[18..34] == epoch;
    assert own[..34] == header && own[34..] == BigEndian(position, 8);
    assert own[2..18] == own[..34][2..18] && own[18..34] == own[..34][18..34];
  }

  /** Any bytes of the right length are their header and their position. */
  lemma {:induction false} StorageBytesSplit(bytes: seq<byte>)
    requires |bytes| == STORAGE_TOKEN_LENGTH
    ensures bytes == [bytes[0], bytes[1]] + bytes[2..18] + bytes[18..34] + BigEndian(FromBigEndian(bytes[34..]), 8)
  {
    FromBigEndianRoundTrip(bytes[34..]);
    assert bytes[..18] == [bytes[0], bytes[1]] + bytes[2..18];
    assert bytes[..34] == bytes[..18] + bytes[18..34];
    assert bytes == bytes[..34] + bytes[34..];
  }

  lemma {:induction false} StorageTokenDecodesExactly(
    token: Token, kind: TokenKind, store: EntityId, epoch: EntityId, position: u64)
    ensures DecodeStorageToken(token, kind, store, epoch) == Some(position)
            <==> token == StorageToken(kind, store, epoch, position)
  {
    StorageTokenRoundTrip(kind, store, epoch, position);
    if DecodeStorageToken(token, kind, store, epoch) == Some(position) {
      StorageBytesSplit(token.bytes);
    }
  }

  /** The bytes of a memory token: 26 of them, version 1, kind 1 or 2, the store, the position in network order. */
  lemma {:induction false} MemoryTokenLayout(kind: TokenKind, store: EntityId, position: u64)
    ensures var bytes := MemoryToken(kind, store, position).bytes;
            && |bytes| == 26 && bytes[0] == 1 && bytes[1] == (if kind.Cursor? then 1 else 2) && bytes[2..18] == store
            && bytes[18..] == BigEndian(position, 8)
  {
  }

  /** The bytes of a storage token: 42 of them, with the epoch between store and position. */
  lemma {:induction false} StorageTokenLayout(kind: TokenKind, store: EntityId, epoch: EntityId, position: u64)
    ensures var bytes := StorageToken(kind, store, epoch, position).bytes;
            && |bytes| == 42 && bytes[0] == 1 && bytes[1] == (if kind.Cursor? then 1 else 2)
            && bytes[2..18] == store && bytes[18..34] == epoch
            && bytes[34..] == BigEndian(position, 8)
  {
    var header := StorageHeader(kind, store, epoch);
    assert header[2..18] == store && header[18..34] == epoch;
    assert StorageToken(kind, store, epoch, position).bytes[..34] == header;
  }

  /** Whatever a token decodes to is a u64. */
  lemma {:induction false} DecodedFitsU64(token: Token, kind: TokenKind, store: EntityId, epoch: EntityId)
    ensures var r := DecodeMemoryToken(token, kind, store); r.Some? ==> r.value <= U64_MAX
    ensures var r := DecodeStorageToken(token, kind, store, epoch); r.Some? ==> r.value <= U64_MAX
  {
    EightBytesHoldU64();
    if DecodeMemoryToken(token, kind, store).Some? {
      FromBigEndianRoundTrip(token.bytes[18..]);
    }
    if DecodeStorageToken(token, kind, store, epoch).Some? {
      FromBigEndianRoundTrip(token.bytes[34..]);
    }
  }

  /** A token issued for one purpose answers nothing for another: kind, store, epoch and layout all separate. */
  lemma {:induction false} ForeignTokensDecodeToNothing(
    kind: TokenKind, store: EntityId, epoch: EntityId, kind': TokenKind, store': EntityId, epoch': EntityId, position: u64)
    ensures DecodeMemoryToken(MemoryToken(kind', store', position), kind, store).Some? <==> kind == kind' && store == store'
    ensures DecodeStorageToken(StorageToken(kind', store', epoch', position), kind, store, epoch).Some?
            <==> kind == kind' && store == store' && epoch == epoch'
    ensures DecodeMemoryToken(StorageToken(kind', store', epoch', position), kind, store).None?
    ensures DecodeStorageToken(MemoryToken(kind', store', position), kind, store, epoch).None?
  {
    var m, t := MemoryToken(kind', store', position).bytes, StorageToken(kind', store', epoch', position).bytes;
    assert m[2..18] == store';
    assert t[2..18] == store' && t[18..34] == epoch';
  }
}
