/** Basin and stream names: valid UTF-8 strings, ordered by their bytes. */
module Names {
  import opened Common
  import opened ByteOrder

  predicate Continues(b: Bytes, from: nat, to: nat) {
    to <= |b| && forall i | from <= i < to :: 0x80 <= b[i] <= 0xBF
  }

  /** Length of the UTF-8 encoded scalar value at the front of `b`, or 0 if there is none
      (table 3-7 of the Unicode Standard, section 3.9). */
  function ScalarLength(b: Bytes): (n: nat)
    ensures n <= |b|
  {
    if b == [] then 0
    else if b[0] <= 0x7F then 1
    else if 0xC2 <= b[0] <= 0xDF then (if Continues(b, 1, 2) then 2 else 0)
    else if 0xE0 <= b[0] <= 0xEF then
      (if Continues(b, 1, 3) && (b[0] == 0xE0 ==> b[1] >= 0xA0) && (b[0] == 0xED ==> b[1] <= 0x9F) then 3 else 0)
    else if 0xF0 <= b[0] <= 0xF4 then
      (if Continues(b, 1, 4) && (b[0] == 0xF0 ==> b[1] >= 0x90) && (b[0] == 0xF4 ==> b[1] <= 0x8F) then 4 else 0)
    else 0
  }

  predicate ValidUtf8(b: Bytes) {
    b == [] || (ScalarLength(b) > 0 && ValidUtf8(b[ScalarLength(b)..]))
  }

  // What validity means: the bytes are the encoding of a sequence of scalar values (section 3 of RFC 3629)

  type Scalar = c: int | 0 <= c <= 0x10FFFF && !(0xD800 <= c <= 0xDFFF)

  function EncodedScalar(c: Scalar): (b: Bytes)
    ensures 1 <= |b| <= 4
  {
    if c < 0x80 then [c]
    else if c < 0x800 then [0xC0 + c / 64, 0x80 + c % 64]
    else if c < 0x1_0000 then [0xE0 + c / 4096, 0x80 + c / 64 % 64, 0x80 + c % 64]
    else [0xF0 + c / 262144, 0x80 + c / 4096 % 64, 0x80 + c / 64 % 64, 0x80 + c % 64]
  }

  function EncodedText(cs: seq<Scalar>): Bytes {
    if cs == [] then [] else EncodedScalar(cs[0]) + EncodedText(cs[1..])
  }

  lemma EncodedScalarIsFound(c: Scalar, rest: Bytes)
    ensures ScalarLength(EncodedScalar(c) + rest) == |EncodedScalar(c)|
  {
    var b := EncodedScalar(c) + rest;
    assert forall i | 0 <= i < |EncodedScalar(c)| :: b[i] == EncodedScalar(c)[i];
  }

  lemma TwoBytes(x: nat, y: nat)
    requires 2 <= x < 32 && y < 64
    ensures EncodedScalar(x * 64 + y) == [0xC0 + x, 0x80 + y]
  {
  }

  lemma ThreeBytes(x: nat, y: nat, z: nat)
    requires x < 16 && y < 64 && z < 64 && (x == 0 ==> y >= 32) && (x == 13 ==> y < 32)
    ensures EncodedScalar(x * 4096 + y * 64 + z) == [0xE0 + x, 0x80 + y, 0x80 + z]
  {
    var c := x * 4096 + y * 64 + z;
    assert c / 64 == x * 64 + y && c % 64 == z && c / 4096 == x;
  }

  lemma FourBytes(x: nat, y: nat, z: nat, u: nat)
    requires x < 5 && y < 64 && z < 64 && u < 64 && (x == 0 ==> y >= 16) && (x == 4 ==> y < 16)
    ensures EncodedScalar(x * 262144 + y * 4096 + z * 64 + u) == [0xF0 + x, 0x80 + y, 0x80 + z, 0x80 + u]
  {
    var c := x * 262144 + y * 4096 + z * 64 + u;
    assert c / 64 == x * 4096 + y * 64 + z && c % 64 == u;
    assert c / 4096 == x * 64 + y && c / 262144 == x;
  }

  lemma FoundIsEncodedScalar(b: Bytes) returns (c: Scalar)
    requires ScalarLength(b) > 0
    ensures b[..ScalarLength(b)] == EncodedScalar(c)
  {
    var n := ScalarLength(b);
    if n == 1 {
      c := b[0];
    } else if n == 2 {
      var x: nat, y: nat := b[0] - 0xC0, b[1] - 0x80;
      TwoBytes(x, y);
      c := x * 64 + y;
    } else if n == 3 {
      var x: nat, y: nat, z: nat := b[0] - 0xE0, b[1] - 0x80, b[2] - 0x80;
      ThreeBytes(x, y, z);
      c := x * 4096 + y * 64 + z;
    } else {
      var x: nat, y: nat, z: nat, u: nat := b[0] - 0xF0, b[1] - 0x80, b[2] - 0x80, b[3] - 0x80;
      FourBytes(x, y, z, u);
      c := x * 262144 + y * 4096 + z * 64 + u;
    }
  }

  lemma {:induction false} EncodedTextIsValid(cs: seq<Scalar>)
    ensures ValidUtf8(EncodedText(cs))
  {
    if cs != [] {
      var head, tail := EncodedScalar(cs[0]), EncodedText(cs[1..]);
      EncodedScalarIsFound(cs[0], tail);
      assert (head + tail)[|head|..] == tail;
      EncodedTextIsValid(cs[1..]);
    }
  }

  lemma {:induction false} ValidIsEncodedText(b: Bytes) returns (cs: seq<Scalar>)
    requires ValidUtf8(b)
    ensures EncodedText(cs) == b
  {
    if b == [] {
      cs := [];
    } else {
      var n := ScalarLength(b);
      var c := FoundIsEncodedScalar(b);
      var rest := ValidIsEncodedText(b[n..]);
      cs := [c] + rest;
      assert cs[1..] == rest && b == b[..n] + b[n..];
    }
  }

  /** The names a listing can return are exactly the encodings of sequences of scalar values, whatever their lengths. */
  lemma ValidUtf8IsEncodedText(b: Bytes)
    ensures ValidUtf8(b) <==> exists cs: seq<Scalar> :: EncodedText(cs) == b
  {
    if ValidUtf8(b) {
      var cs := ValidIsEncodedText(b);
    }
    if cs: seq<Scalar> :| EncodedText(cs) == b {
      EncodedTextIsValid(cs);
    }
  }

  type Name = b: Bytes | ValidUtf8(b) witness []

  // The library's stable sort, by name

  function Inserted<T>(x: T, sorted: seq<T>, name: T -> Bytes): seq<T> {
    if sorted == [] then [x]
    else if AtMost(name(x), name(sorted[0])) then [x] + sorted
    else [sorted[0]] + Inserted(x, sorted[1..], name)
  }

  function SortBy<T>(xs: seq<T>, name: T -> Bytes): seq<T> {
    if xs == [] then [] else Inserted(xs[0], SortBy(xs[1..], name), name)
  }

  ghost predicate AscendingBy<T>(xs: seq<T>, name: T -> Bytes) {
    forall i, j | 0 <= i < j < |xs| :: Less(name(xs[i]), name(xs[j]))
  }

  lemma {:induction false} SortingAscendingIsNoOp<T>(xs: seq<T>, name: T -> Bytes)
    requires AscendingBy(xs, name)
    ensures SortBy(xs, name) == xs
  {
    if xs != [] {
      assert AscendingBy(xs[1..], name);
      SortingAscendingIsNoOp(xs[1..], name);
      assert xs == [xs[0]] + xs[1..];
    }
  }

  ghost predicate NonDescendingBy<T>(xs: seq<T>, name: T -> Bytes) {
    forall i, j | 0 <= i < j < |xs| :: AtMost(name(xs[i]), name(xs[j]))
  }

  /** What is below the first element of a sorted list is below everything in the rest and what is added to it. */
  lemma HeadStaysLeast<T>(x: T, sorted: seq<T>, rest: seq<T>, name: T -> Bytes)
    requires NonDescendingBy(sorted, name) && sorted != [] && AtMost(name(sorted[0]), name(x))
    requires multiset(rest) == multiset(sorted[1..]) + multiset{x}
    ensures forall i | 0 <= i < |rest| :: AtMost(name(sorted[0]), name(rest[i]))
  {
    forall i | 0 <= i < |rest| ensures AtMost(name(sorted[0]), name(rest[i])) {
      assert rest[i] in multiset(rest);
      if rest[i] != x {
        assert rest[i] in multiset(sorted[1..]);
        var j :| 0 <= j < |sorted[1..]| && sorted[1..][j] == rest[i];
        assert sorted[j + 1] == rest[i];
      }
    }
  }

  lemma {:induction false} InsertedSorts<T>(x: T, sorted: seq<T>, name: T -> Bytes)
    requires NonDescendingBy(sorted, name)
    ensures NonDescendingBy(Inserted(x, sorted, name), name)
    ensures multiset(Inserted(x, sorted, name)) == multiset(sorted) + multiset{x}
  {
    if sorted != [] {
      var head, tail := sorted[0], sorted[1..];
      assert sorted == [head] + tail;
      if AtMost(name(x), name(head)) {
        forall i | 0 <= i < |sorted| ensures AtMost(name(x), name(sorted[i])) {
          if i > 0 && name(x) != name(head) && name(head) != name(sorted[i]) {
            LessTransitive(name(x), name(head), name(sorted[i]));
          }
        }
      } else {
        assert NonDescendingBy(tail, name);
        InsertedSorts(x, tail, name);
        LessTotal(name(x), name(head));
        HeadStaysLeast(x, sorted, Inserted(x, tail, name), name);
      }
    }
  }

  lemma {:induction false} SortBySorts<T>(xs: seq<T>, name: T -> Bytes)
    ensures NonDescendingBy(SortBy(xs, name), name)
    ensures multiset(SortBy(xs, name)) == multiset(xs)
  {
    if xs != [] {
      SortBySorts(xs[1..], name);
      InsertedSorts(xs[0], SortBy(xs[1..], name), name);
      assert xs == [xs[0]] + xs[1..];
    }
  }
}
