/** The lexicographic order in which the store keeps its keys. */
module ByteOrder {
  import opened Common

  predicate Less(a: Bytes, b: Bytes) {
    b != [] && (a == [] || a[0] < b[0] || (a[0] == b[0] && Less(a[1..], b[1..])))
  }

  predicate AtMost(a: Bytes, b: Bytes) {
    a == b || Less(a, b)
  }

  predicate StrictlyAscending(keys: seq<Bytes>) {
    forall i, j | 0 <= i < j < |keys| :: Less(keys[i], keys[j])
  }

  lemma {:induction false} LessIrreflexive(a: Bytes)
    ensures !Less(a, a)
  {
    if a != [] {
      LessIrreflexive(a[1..]);
    }
  }

  lemma {:induction false} LessTransitive(a: Bytes, b: Bytes, c: Bytes)
    requires Less(a, b) && Less(b, c)
    ensures Less(a, c)
  {
    if a != [] && a[0] == b[0] && b[0] == c[0] {
      LessTransitive(a[1..], b[1..], c[1..]);
    }
  }

  lemma LessAsymmetric(a: Bytes, b: Bytes)
    requires Less(a, b)
    ensures !AtMost(b, a)
  {
    LessIrreflexive(a);
    if Less(b, a) {
      LessTransitive(a, b, a);
    }
  }

  lemma {:induction false} LessTotal(a: Bytes, b: Bytes)
    ensures a == b || Less(a, b) || Less(b, a)
  {
    if a != [] && b != [] && a[0] == b[0] {
      LessTotal(a[1..], b[1..]);
      assert a == [a[0]] + a[1..] && b == [b[0]] + b[1..];
    }
  }

  /** A shared prefix does not influence the order of what follows it. */
  lemma {:induction false} LessAfterPrefix(p: Bytes, x: Bytes, y: Bytes)
    ensures Less(p + x, p + y) <==> Less(x, y)
  {
    if p == [] {
      assert p + x == x && p + y == y;
    } else {
      assert (p + x)[1..] == p[1..] + x && (p + y)[1..] == p[1..] + y;
      LessAfterPrefix(p[1..], x, y);
    }
  }

  /** Heads of equal length are compared first, tails only when the heads agree. */
  lemma {:induction false} LessOfEqualLengthHeads(a: Bytes, x: Bytes, b: Bytes, y: Bytes)
    requires |a| == |b|
    ensures Less(a + x, b + y) <==> Less(a, b) || (a == b && Less(x, y))
  {
    if a == [] {
      assert a + x == x && b + y == y;
    } else {
      assert (a + x)[1..] == a[1..] + x && (b + y)[1..] == b[1..] + y;
      LessOfEqualLengthHeads(a[1..], x, b[1..], y);
      assert a == [a[0]] + a[1..] && b == [b[0]] + b[1..];
    }
  }

  lemma AscendingSnoc(keys: seq<Bytes>, k: Bytes)
    requires StrictlyAscending(keys)
    requires keys != [] ==> Less(keys[|keys| - 1], k)
    ensures StrictlyAscending(keys + [k])
  {
    forall i | 0 <= i < |keys| ensures Less(keys[i], k) {
      if i < |keys| - 1 {
        LessTransitive(keys[i], keys[|keys| - 1], k);
      }
    }
  }
}

/** Big-endian fixed-width integers, the only number encoding used in keys and values. */
module BigEndian {
  import opened Common
  import opened ByteOrder

  function Pow256(width: nat): (p: nat)
    ensures p > 0
  {
    if width == 0 then 1 else 256 * Pow256(width - 1)
  }

  function Encode(width: nat, v: nat): (b: Bytes)
    ensures |b| == width
  {
    if width == 0 then [] else Encode(width - 1, v / 256) + [v % 256]
  }

  function Decode(b: Bytes): (v: nat)
    ensures v < Pow256(|b|)
  {
    if b == [] then 0 else 256 * Decode(b[..|b| - 1]) + b[|b| - 1]
  }

  lemma Widths()
    ensures Pow256(8) == U64_SIZE
    ensures Pow256(16) == U128_SIZE
  {
    assert Pow256(4) == 0x1_0000_0000;
    assert Pow256(8) == U64_SIZE;
    assert Pow256(12) == 0x1_0000_0000 * Pow256(8);
    assert Pow256(16) == 0x1_0000_0000 * Pow256(12);
  }

  lemma {:induction false} DecodeEncode(width: nat, v: nat)
    requires v < Pow256(width)
    ensures Decode(Encode(width, v)) == v
  {
    if width > 0 {
      DecodeEncode(width - 1, v / 256);
      assert Encode(width, v)[..width - 1] == Encode(width - 1, v / 256);
    }
  }

  lemma {:induction false} EncodeDecode(b: Bytes)
    ensures Encode(|b|, Decode(b)) == b
  {
    if b != [] {
      EncodeDecode(b[..|b| - 1]);
      assert b == b[..|b| - 1] + [b[|b| - 1]];
    }
  }

  /** Byte order on encodings is numeric order. */
  lemma {:induction false} EncodeIsOrderEmbedding(width: nat, a: nat, b: nat)
    requires a < Pow256(width) && b < Pow256(width)
    ensures Less(Encode(width, a), Encode(width, b)) <==> a < b
    ensures Encode(width, a) == Encode(width, b) <==> a == b
  {
    DecodeEncode(width, a);
    DecodeEncode(width, b);
    if width > 0 {
      EncodeIsOrderEmbedding(width - 1, a / 256, b / 256);
      LessOfEqualLengthHeads(Encode(width - 1, a / 256), [a % 256], Encode(width - 1, b / 256), [b % 256]);
      assert Less([a % 256], [b % 256]) <==> a % 256 < b % 256;
    }
  }

  function U64Bytes(v: u64): (b: Bytes)
    ensures |b| == 8
  {
    Encode(8, v)
  }

  function U128Bytes(v: u128): (b: Bytes)
    ensures |b| == 16
  {
    Encode(16, v)
  }

  function ReadU64(b: Bytes): u64
    requires |b| == 8
  {
    Widths();
    Decode(b)
  }

  function ReadU128(b: Bytes): u128
    requires |b| == 16
  {
    Widths();
    Decode(b)
  }

  lemma U64RoundTrip(v: u64)
    ensures ReadU64(U64Bytes(v)) == v
  {
    Widths();
    DecodeEncode(8, v);
  }

  lemma U128RoundTrip(v: u128)
    ensures ReadU128(U128Bytes(v)) == v
  {
    Widths();
    DecodeEncode(16, v);
  }

  lemma U64Order(a: u64, b: u64)
    ensures Less(U64Bytes(a), U64Bytes(b)) <==> a < b
    ensures U64Bytes(a) == U64Bytes(b) <==> a == b
  {
    Widths();
    EncodeIsOrderEmbedding(8, a, b);
  }

  lemma U128Order(a: u128, b: u128)
    ensures Less(U128Bytes(a), U128Bytes(b)) <==> a < b
    ensures U128Bytes(a) == U128Bytes(b) <==> a == b
  {
    Widths();
    EncodeIsOrderEmbedding(16, a, b);
  }
}
