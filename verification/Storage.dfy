/** Key ranges and the records exchanged with a store. */
module Storage {
  import opened Common
  import opened ByteOrder

  datatype Bound = Included(key: Bytes) | Excluded(key: Bytes) | Unbounded

  datatype BytesRange = BytesRange(start: Bound, end: Bound) {
    predicate Contains(k: Bytes) {
      && (match start
          case Included(s) => AtMost(s, k)
          case Excluded(s) => Less(s, k)
          case Unbounded => true)
      && (match end
          case Included(e) => AtMost(k, e)
          case Excluded(e) => Less(k, e)
          case Unbounded => true)
    }

    // An ordered map refuses (by panicking) a range whose start lies beyond its end, and one that
    // excludes the same key at both ends.
    predicate Scannable() {
      start.Unbounded? || end.Unbounded? ||
      Less(start.key, end.key) ||
      (start.key == end.key && !(start.Excluded? && end.Excluded?))
    }
  }

  /** A range holds what is neither below its start nor above its end, and an end itself exactly if it includes it. */
  lemma RangeIsInterval(range: BytesRange, k: Bytes)
    ensures range.Contains(k) <==>
            && (!range.start.Unbounded? ==>
                  !Less(k, range.start.key) && (k == range.start.key ==> range.start.Included?))
            && (!range.end.Unbounded? ==>
                  !Less(range.end.key, k) && (k == range.end.key ==> range.end.Included?))
  {
    if !range.start.Unbounded? {
      OrderIsStrictAndTotal(range.start.key, k);
    }
    if !range.end.Unbounded? {
      OrderIsStrictAndTotal(k, range.end.key);
    }
  }

  lemma OrderIsStrictAndTotal(a: Bytes, b: Bytes)
    ensures Less(a, b) <==> !AtMost(b, a)
  {
    LessTotal(a, b);
    LessIrreflexive(a);
    if Less(a, b) {
      LessAsymmetric(a, b);
    }
  }

  datatype StorageRecord = StorageRecord(key: Bytes, value: Bytes)

  datatype StorageError = Backend | Internal

  datatype WriteResult = WriteResult(seqnum: u64)
}
