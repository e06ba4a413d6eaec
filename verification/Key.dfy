/** Key tags, the key builder, and the range of keys that share a prefix. */
module Key {
  import opened Common
  import opened ByteOrder
  import opened BigEndian
  import opened Storage

  const RECORD_SEQUENCE_NUMBER_PREFIX_KEY: u8 := 0x01
  const RECORD_STREAM_RECORD_PREFIX_KEY: u8 := 0x03
  const META_STREAM_PREFIX_KEY: u8 := 0x01
  const META_BASIN_PREFIX_KEY: u8 := 0x02
  const SEQ_STREAM_PREFIX_KEY: u8 := 0x02

  class BytesBuilder {
    var buf: Bytes

    constructor ()
      ensures buf == []
    {
      buf := [];
    }

    method AddU8(v: u8)
      modifies this
      ensures buf == old(buf) + [v]
    {
      buf := buf + [v];
    }

    method AddU64(v: u64)
      modifies this
      ensures buf == old(buf) + U64Bytes(v)
    {
      buf := buf + U64Bytes(v);
    }

    method AddU128(v: u128)
      modifies this
      ensures buf == old(buf) + U128Bytes(v)
    {
      buf := buf + U128Bytes(v);
    }

    method PutStr(s: Bytes)
      modifies this
      ensures buf == old(buf) + s
    {
      buf := buf + s;
    }

    method Build() returns (b: Bytes)
      ensures b == buf
    {
      b := buf;
    }
  }

  // Strings with a given prefix, and the strings above all of them

  ghost predicate AboveEveryExtension(prefix: Bytes, u: Bytes) {
    forall k: Bytes :: prefix <= k ==> Less(k, u)
  }

  /** The least string above every extension of `prefix`, found by bumping its last byte that can be bumped. */
  function Successor(prefix: Bytes): (r: Option<Bytes>)
    ensures r.Some? ==> r.value != []
  {
    if prefix == [] then None
    else match Successor(prefix[1..])
         case Some(e) => Some([prefix[0]] + e)
         case None => if prefix[0] == 0xFF then None else Some([prefix[0] + 1])
  }

  function AllFF(n: nat): (b: Bytes)
    ensures |b| == n && forall i | 0 <= i < n :: b[i] == 0xFF
  {
    seq(n, i => 0xFF)
  }

  /** A run of 0xFF bytes lies above every shorter string. */
  lemma {:induction false} LongerFFIsAbove(u: Bytes, n: nat)
    requires |u| < n
    ensures Less(u, AllFF(n))
  {
    if u != [] {
      assert AllFF(n)[1..] == AllFF(n - 1);
      LongerFFIsAbove(u[1..], n - 1);
    }
  }

  lemma {:induction false} SuccessorIsAbove(prefix: Bytes, rest: Bytes)
    requires Successor(prefix).Some?
    ensures Less(prefix + rest, Successor(prefix).value)
  {
    assert (prefix + rest)[1..] == prefix[1..] + rest;
    if Successor(prefix[1..]).Some? {
      SuccessorIsAbove(prefix[1..], rest);
    }
  }

  /** Any string below the successor lies at or below some extension of the prefix. */
  lemma {:induction false} SuccessorIsTight(prefix: Bytes, u: Bytes)
    requires Successor(prefix).Some? ==> Less(u, Successor(prefix).value)
    ensures !Less(prefix + AllFF(|u| + 1), u)
  {
    var k := prefix + AllFF(|u| + 1);
    if prefix == [] {
      assert k == AllFF(|u| + 1);
      LongerFFIsAbove(u, |u| + 1);
      LessAsymmetric(u, k);
    } else if u != [] && u[0] == prefix[0] {
      SuccessorIsTight(prefix[1..], u[1..]);
      assert k[1..] == prefix[1..] + AllFF(|u| + 1);
      var short := prefix[1..] + AllFF(|u[1..]| + 1);
      assert k[1..] == short + [0xFF];
      if Less(k[1..], u[1..]) {
        LessAfterPrefix(short, [], [0xFF]);
        assert short + [] == short;
        LessTransitive(short, k[1..], u[1..]);
      }
    }
  }

  /** Main result about prefixes: the successor is the least upper bound, and it is missing only when there is none. */
  lemma SuccessorIsLeastUpperBound(prefix: Bytes)
    ensures Successor(prefix).None? <==> !exists u :: AboveEveryExtension(prefix, u)
    ensures Successor(prefix).None? <==> forall i | 0 <= i < |prefix| :: prefix[i] == 0xFF
    ensures Successor(prefix).Some? ==> AboveEveryExtension(prefix, Successor(prefix).value)
    ensures Successor(prefix).Some? ==> forall u | AboveEveryExtension(prefix, u) :: AtMost(Successor(prefix).value, u)
  {
    SuccessorMissingIffAllFF(prefix);
    if Successor(prefix).Some? {
      forall k: Bytes | prefix <= k ensures Less(k, Successor(prefix).value) {
        assert k == prefix + k[|prefix|..];
        SuccessorIsAbove(prefix, k[|prefix|..]);
      }
      assert AboveEveryExtension(prefix, Successor(prefix).value);
    }
    forall u | AboveEveryExtension(prefix, u)
      ensures Successor(prefix).Some? && AtMost(Successor(prefix).value, u)
    {
      assert prefix <= prefix + AllFF(|u| + 1);
      if Successor(prefix).None? {
        SuccessorIsTight(prefix, u);
      } else {
        LessTotal(Successor(prefix).value, u);
        if Less(u, Successor(prefix).value) {
          SuccessorIsTight(prefix, u);
        }
      }
    }
  }

  lemma {:induction false} SuccessorMissingIffAllFF(prefix: Bytes)
    ensures Successor(prefix).None? <==> forall i | 0 <= i < |prefix| :: prefix[i] == 0xFF
  {
    if prefix != [] {
      SuccessorMissingIffAllFF(prefix[1..]);
      assert forall i | 1 <= i < |prefix| :: prefix[i] == prefix[1..][i - 1];
      assert forall i | 0 <= i < |prefix| - 1 :: prefix[1..][i] == prefix[i + 1];
    }
  }

  /** Bytes after the bumped one do not matter: this is why the loop may stop at the first it can bump. */
  lemma {:induction false} SuccessorOfConcatenation(head: Bytes, tail: Bytes)
    ensures Successor(tail).Some? ==> Successor(head + tail) == Some(head + Successor(tail).value)
    ensures Successor(tail).None? && head != [] && head[|head| - 1] != 0xFF ==>
              Successor(head + tail) == Some(head[..|head| - 1] + [head[|head| - 1] + 1])
  {
    if head == [] {
      assert head + tail == tail;
      if Successor(tail).Some? {
        assert head + Successor(tail).value == Successor(tail).value;
      }
    } else {
      assert (head + tail)[1..] == head[1..] + tail;
      SuccessorOfConcatenation(head[1..], tail);
      if Successor(tail).Some? {
        assert [head[0]] + (head[1..] + Successor(tail).value) == head + Successor(tail).value;
      } else if head[|head| - 1] != 0xFF {
        var bumped := [head[|head| - 1] + 1];
        if |head| == 1 {
          assert head[1..] + tail == tail && head[..0] + bumped == bumped;
        } else {
          assert [head[0]] + (head[1..][..|head| - 2] + bumped) == head[..|head| - 1] + bumped;
        }
      }
    }
  }

  method NextPrefix(prefix: Bytes) returns (r: Option<Bytes>)
    ensures r == Successor(prefix)
  {
    var end := prefix;
    var idx := |end|;
    assert prefix[|prefix|..] == [];
    while idx > 0
      invariant 0 <= idx <= |prefix|
      invariant end == prefix
      invariant Successor(prefix[idx..]).None?
    {
      idx := idx - 1;
      if end[idx] != 0xFF {
        SuccessorOfConcatenation(prefix[..idx + 1], prefix[idx + 1..]);
        assert prefix == prefix[..idx + 1] + prefix[idx + 1..];
        end := end[idx := end[idx] + 1];
        end := end[..idx + 1];
        assert end == prefix[..idx + 1][..idx] + [prefix[idx] + 1];
        return Some(end);
      }
      assert prefix[idx..][1..] == prefix[idx + 1..];
    }
    assert prefix[0..] == prefix;
    return None;
  }

  /** A string that is not below `prefix` but below its successor must extend it. */
  lemma {:induction false} BetweenPrefixAndSuccessor(prefix: Bytes, k: Bytes)
    requires AtMost(prefix, k)
    requires Successor(prefix).Some? ==> Less(k, Successor(prefix).value)
    ensures prefix <= k
  {
    if prefix != [] && prefix != k {
      if Successor(prefix).None? {
        SuccessorMissingIffAllFF(prefix);
      }
      assert k[0] == prefix[0];
      BetweenPrefixAndSuccessor(prefix[1..], k[1..]);
      assert k == [k[0]] + k[1..] && prefix == [prefix[0]] + prefix[1..];
    }
  }

  lemma PrefixIsAtMostExtension(prefix: Bytes, k: Bytes)
    requires prefix <= k
    ensures AtMost(prefix, k)
  {
    assert k == prefix + k[|prefix|..] && prefix == prefix + [];
    LessAfterPrefix(prefix, [], k[|prefix|..]);
  }

  method PrefixRange(prefix: Bytes) returns (range: BytesRange)
    ensures forall k: Bytes :: range.Contains(k) <==> prefix <= k
    ensures range.Scannable()
  {
    var next := NextPrefix(prefix);
    var end := match next case Some(e) => Excluded(e) case None => Unbounded;
    range := BytesRange(Included(prefix), end);
    SuccessorIsLeastUpperBound(prefix);
    assert prefix <= prefix;
    forall k: Bytes ensures range.Contains(k) <==> prefix <= k {
      if prefix <= k {
        PrefixIsAtMostExtension(prefix, k);
      }
      if range.Contains(k) {
        BetweenPrefixAndSuccessor(prefix, k);
      }
    }
  }
}
