/**
 The physical cache key: a digest of a length-prefixed encoding of
 (info hash, canonical path, size).
 */
module Keys {
  import opened Outcomes

  type Byte = b: int | 0 <= b < 256

  const U32_RANGE: nat := 0x1_0000_0000

  datatype Identity = Identity(infoHash: seq<Byte>, canonicalPath: seq<Byte>, size: nat)

  function Power256(width: nat): (p: nat)
    ensures p > 0
  {
    if width == 0 then 1 else 256 * Power256(width - 1)
  }

  /** The low `width` bytes of `n`, most significant first. */
  function BigEndian(n: nat, width: nat): (bytes: seq<Byte>)
    ensures |bytes| == width
  {
    if width == 0 then [] else BigEndian(n / 256, width - 1) + [n % 256]
  }

  function FromBigEndian(bytes: seq<Byte>): nat {
    if bytes == [] then 0 else FromBigEndian(bytes[..|bytes| - 1]) * 256 + bytes[|bytes| - 1]
  }

  lemma {:induction false} BigEndianRoundTrip(n: nat, width: nat)
    requires n < Power256(width)
    ensures FromBigEndian(BigEndian(n, width)) == n
  {
    if width > 0 {
      BigEndianRoundTrip(n / 256, width - 1);
      var bytes := BigEndian(n, width);
      assert bytes[..|bytes| - 1] == BigEndian(n / 256, width - 1);
    }
  }

  lemma {:induction false} FromBigEndianBound(bytes: seq<Byte>)
    ensures FromBigEndian(bytes) < Power256(|bytes|)
  {
    if bytes != [] {
      FromBigEndianBound(bytes[..|bytes| - 1]);
    }
  }

  lemma {:induction false} Powers()
    ensures Power256(4) == U32_RANGE && Power256(8) == U64_RANGE
  {
    assert Power256(2) == 65536;
    assert Power256(4) == U32_RANGE;
    assert Power256(6) == 65536 * U32_RANGE;
  }

  /** The cast `len as u32` keeps the low 32 bits; `to_be_bytes` writes them. */
  function LengthPrefixed(s: seq<Byte>): seq<Byte> {
    BigEndian(|s| % U32_RANGE, 4) + s
  }

  function Encode(id: Identity): seq<Byte>
    requires id.size < U64_RANGE
  {
    LengthPrefixed(id.infoHash) + LengthPrefixed(id.canonicalPath) + BigEndian(id.size, 8)
  }

  /** Take one length-prefixed field off the front. */
  function TakeField(buf: seq<Byte>): Result<(seq<Byte>, seq<Byte>), ()> {
    if |buf| < 4 then Err(())
    else
      var n := FromBigEndian(buf[..4]);
      if |buf| < 4 + n then Err(()) else Ok((buf[4..4 + n], buf[4 + n..]))
  }

  function Decode(buf: seq<Byte>): Option<Identity> {
    match TakeField(buf)
    case Err(_) => None
    case Ok((infoHash, afterHash)) =>
      match TakeField(afterHash)
      case Err(_) => None
      case Ok((path, afterPath)) =>
        if |afterPath| == 8 then Some(Identity(infoHash, path, FromBigEndian(afterPath))) else None
  }

  lemma {:induction false} TakeFieldUndoesPrefix(s: seq<Byte>, rest: seq<Byte>)
    requires |s| < U32_RANGE
    ensures TakeField(LengthPrefixed(s) + rest) == Ok((s, rest))
  {
    hide BigEndian, FromBigEndian, Power256;
    Powers();
    BigEndianRoundTrip(|s|, 4);
    var head := BigEndian(|s| % U32_RANGE, 4);
    assert LengthPrefixed(s) + rest == head + s + rest;
    CutThree(head, s, rest);
  }

  lemma {:induction false} CutThree(a: seq<Byte>, b: seq<Byte>, c: seq<Byte>)
    ensures var buf := a + b + c;
      buf[..|a|] == a && buf[|a|..|a| + |b|] == b && buf[|a| + |b|..] == c
  {
  }

  lemma {:induction false} TakenFieldIsShort(buf: seq<Byte>)
    ensures TakeField(buf).Ok? ==> |TakeField(buf).value.0| < U32_RANGE
  {
    if |buf| >= 4 {
      Powers();
      FromBigEndianBound(buf[..4]);
    }
  }

  /** The encoding can be undone exactly while both strings fit their 32-bit length fields. */
  lemma {:induction false} DecodeUndoesEncode(id: Identity)
    requires id.size < U64_RANGE
    ensures Decode(Encode(id)) == Some(id)
       <==> |id.infoHash| < U32_RANGE && |id.canonicalPath| < U32_RANGE
  {
    var tail := BigEndian(id.size, 8);
    var mid := LengthPrefixed(id.canonicalPath) + tail;
    if |id.infoHash| < U32_RANGE && |id.canonicalPath| < U32_RANGE {
      assert Encode(id) == LengthPrefixed(id.infoHash) + mid;
      TakeFieldUndoesPrefix(id.infoHash, mid);
      TakeFieldUndoesPrefix(id.canonicalPath, tail);
      Powers();
      BigEndianRoundTrip(id.size, 8);
    } else {
      var buf := Encode(id);
      TakenFieldIsShort(buf);
      if TakeField(buf).Ok? {
        TakenFieldIsShort(TakeField(buf).value.1);
      }
    }
  }

  predicate Encodable(id: Identity) {
    |id.infoHash| < U32_RANGE && |id.canonicalPath| < U32_RANGE && id.size < U64_RANGE
  }

  ghost predicate Injective(digest: seq<Byte> -> string) {
    forall a, b :: digest(a) == digest(b) ==> a == b
  }

  function PhysicalKey(digest: seq<Byte> -> string, id: Identity): string
    requires id.size < U64_RANGE
  {
    digest(Encode(id))
  }

  /** With a collision-free digest, an encodable file shares its key with no other file, encodable or not. */
  lemma {:induction false} KeysIdentifyFiles(digest: seq<Byte> -> string, a: Identity, b: Identity)
    requires Injective(digest) && Encodable(a) && b.size < U64_RANGE
    ensures PhysicalKey(digest, a) == PhysicalKey(digest, b) <==> a == b
  {
    if Encode(a) == Encode(b) {
      SharedEncodingFits(a, b);
      DecodeUndoesEncode(a);
      DecodeUndoesEncode(b);
    }
  }

  /** A name too long for its length field makes the whole encoding longer than that of an encodable file. */
  lemma {:induction false} SharedEncodingFits(a: Identity, b: Identity)
    requires Encodable(a) && b.size < U64_RANGE && Encode(a) == Encode(b)
    ensures Encodable(b)
  {
    hide Encode;
    EncodingShape(a);
    EncodingShape(b);
    NoMultiple(|a.infoHash|, |b.infoHash|, |a.canonicalPath|, |b.canonicalPath|);
  }

  /** The encoding tells the total length and the first length field. */
  lemma {:induction false} EncodingShape(id: Identity)
    requires id.size < U64_RANGE
    ensures |Encode(id)| == 16 + |id.infoHash| + |id.canonicalPath|
    ensures FromBigEndian(Encode(id)[..4]) == |id.infoHash| % U32_RANGE
  {
    Powers();
    BigEndianRoundTrip(|id.infoHash| % U32_RANGE, 4);
    hide BigEndian, FromBigEndian, Power256;
    assert Encode(id)[..4] == BigEndian(|id.infoHash| % U32_RANGE, 4);
  }

  lemma {:induction false} NoMultiple(a: nat, b: nat, c: nat, d: nat)
    requires a < U32_RANGE && c < U32_RANGE && a + c == b + d && a == b % U32_RANGE
    ensures b == a && d == c
  {
  }

  function Zeros(n: nat): seq<Byte> {
    seq(n, _ => 0)
  }

  /** Beyond 32 bits the length field wraps and two different files do share their encoding. */
  lemma {:induction false} LongNamesCollide()
    ensures var a := Identity(Zeros(U32_RANGE), [], 1); var b := Identity([], Zeros(U32_RANGE), 1);
      a != b && Encode(a) == Encode(b)
  {
    var a, b := Identity(Zeros(U32_RANGE), [], 1), Identity([], Zeros(U32_RANGE), 1);
    assert |a.infoHash| != |b.infoHash|;
    FourZeros();
    var z4 := Zeros(4);
    assert LengthPrefixed(a.infoHash) == z4 + Zeros(U32_RANGE);
    assert LengthPrefixed(a.canonicalPath) == z4;
    assert LengthPrefixed(b.infoHash) == z4;
    assert LengthPrefixed(b.canonicalPath) == z4 + Zeros(U32_RANGE);
    assert z4 + Zeros(U32_RANGE) + z4 == z4 + (z4 + Zeros(U32_RANGE));
  }

  lemma {:induction false} FourZeros()
    ensures BigEndian(0, 4) == Zeros(4)
  {
    assert BigEndian(0, 1) == [0];
    assert BigEndian(0, 2) == [0, 0];
    assert BigEndian(0, 3) == [0, 0, 0];
  }
}
