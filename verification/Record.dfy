/** A stream record and its stored form: the sequence number in eight bytes, then the data. */
module StreamRecord {
  import opened Common
  import opened BigEndian

  datatype RecordError = TooShort(length: nat)

  datatype Record = Record(seqNum: u64, data: Bytes) {
    function Encoded(): (b: Bytes)
      ensures |b| == 8 + |data|
    {
      U64Bytes(seqNum) + data
    }

    method Serialise() returns (buf: Bytes)
      ensures buf == Encoded()
    {
      buf := [];
      buf := buf + U64Bytes(seqNum);
      buf := buf + data;
    }
  }

  function Deserialise(buf: Bytes): (r: Result<Record, RecordError>)
    ensures r.Err? <==> |buf| < 8
  {
    if |buf| < 8 then Err(TooShort(|buf|)) else Ok(Record(ReadU64(buf[..8]), buf[8..]))
  }

  lemma RecordRoundTrip(r: Record)
    ensures Deserialise(r.Encoded()) == Ok(r)
    ensures Decode(r.Encoded()[..8]) == r.seqNum && r.Encoded()[8..] == r.data
  {
    assert r.Encoded()[..8] == U64Bytes(r.seqNum) && r.Encoded()[8..] == r.data;
    U64RoundTrip(r.seqNum);
  }

  lemma RecordReencodes(buf: Bytes)
    requires |buf| >= 8
    ensures Deserialise(buf).value.Encoded() == buf
  {
    EncodeDecode(buf[..8]);
    assert buf == buf[..8] + buf[8..];
  }
}
