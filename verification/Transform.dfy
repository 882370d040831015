/** The time-to-live prefix of gossip data: p2p/src/transform.rs. */
module Transform {
  import opened Wrappers
  import opened Network

  const MID_SIZE: nat := 8
  const U64: nat := 0x1_0000_0000_0000_0000

  datatype TransformError = NoSource | TooShort | Expired

  datatype Delivered = Delivered(source: PeerId, data: seq<Byte>, topic: string)

  /** The value of some bytes, most significant first. */
  function BigEndian(bytes: seq<Byte>): nat {
    if bytes == [] then 0 else 256 * BigEndian(bytes[..|bytes| - 1]) + bytes[|bytes| - 1]
  }

  /** `size` bytes of a number, most significant first. */
  function ToBigEndian(n: nat, size: nat): (r: seq<Byte>)
    ensures |r| == size
  {
    if size == 0 then [] else ToBigEndian(n / 256, size - 1) + [n % 256]
  }

  function Power(size: nat): nat {
    if size == 0 then 1 else 256 * Power(size - 1)
  }

  lemma {:induction false} BigEndianInverts(n: nat, size: nat)
    requires n < Power(size)
    ensures BigEndian(ToBigEndian(n, size)) == n
    decreases size
  {
    if size > 0 {
      var bytes := ToBigEndian(n, size);
      assert bytes[..|bytes| - 1] == ToBigEndian(n / 256, size - 1);
      BigEndianInverts(n / 256, size - 1);
    }
  }

  lemma {:induction false} ToBigEndianInverts(bytes: seq<Byte>)
    ensures BigEndian(bytes) < Power(|bytes|)
    ensures ToBigEndian(BigEndian(bytes), |bytes|) == bytes
    decreases |bytes|
  {
    if bytes != [] {
      var front := bytes[..|bytes| - 1];
      ToBigEndianInverts(front);
      assert BigEndian(bytes) / 256 == BigEndian(front);
      assert bytes == front + [bytes[|bytes| - 1]];
    }
  }

  lemma EightBytesHoldU64()
    ensures Power(MID_SIZE) == U64
  {
    assert Power(4) == 0x1_0000_0000;
    assert Power(8) == 256 * (256 * (256 * (256 * Power(4))));
  }

  class RawMessage {
    var source: Option<PeerId>
    var data: seq<Byte>
    var topic: string

    constructor (source: Option<PeerId>, data: seq<Byte>, topic: string)
      ensures this.source == source && this.data == data && this.topic == topic
    {
      this.source, this.data, this.topic := source, data, topic;
    }

    /** `Vec::split_off`: keeps the front and returns the rest. */
    method SplitOff(at: nat) returns (rest: seq<Byte>)
      requires at <= |data|
      modifies this`data
      ensures data == old(data[..at]) && rest == old(data[at..])
    {
      rest := data[at..];
      data := data[..at];
    }
  }

  /** The message's time plus its time to live, in the wrapping arithmetic of a release build. */
  function Deadline(time: nat, ttl: nat): nat {
    (time + ttl) % U64
  }

  /** What an inbound message is turned into. */
  function Unwrap(source: Option<PeerId>, data: seq<Byte>, topic: string, ttl: nat,
                  now: nat): Result<Delivered, TransformError> {
    if source.None? then Err(NoSource)
    else if |data| < MID_SIZE then Err(TooShort)
    else if Deadline(BigEndian(data[..MID_SIZE]), ttl) < now then Err(Expired)
    else Ok(Delivered(source.value, data[MID_SIZE..], topic))
  }

  class TTLDataTransform {
    const ttlSecs: nat

    constructor (ttlSecs: nat)
      requires ttlSecs < U64
      ensures this.ttlSecs == ttlSecs
    {
      this.ttlSecs := ttlSecs;
    }

    /** Checks the prefix of a received message and takes it off. */
    method InboundTransform(raw: RawMessage, now: nat) returns (r: Result<Delivered, TransformError>)
      modifies raw
      ensures r == Unwrap(old(raw.source), old(raw.data), old(raw.topic), ttlSecs, now)
      ensures r == Err(NoSource) <==> old(raw.source).None?
      ensures r == Err(TooShort) <==> old(raw.source).Some? && |old(raw.data)| < MID_SIZE
    {
      if raw.source.None? {
        return Err(NoSource);
      }
      if |raw.data| < MID_SIZE {
        return Err(TooShort);
      }
      var rawData := raw.SplitOff(MID_SIZE);
      var msgTime := BigEndian(raw.data);
      if Deadline(msgTime, ttlSecs) < now {
        return Err(Expired);
      }
      r := Ok(Delivered(raw.source.value, rawData, raw.topic));
    }

    /** Prepends the current time to the data. */
    method OutboundTransform(data: seq<Byte>, now: nat) returns (transformed: seq<Byte>)
      requires now < U64
      ensures |transformed| == MID_SIZE + |data|
      ensures BigEndian(transformed[..MID_SIZE]) == now
      ensures transformed[MID_SIZE..] == data
    {
      EightBytesHoldU64();
      BigEndianInverts(now, MID_SIZE);
      var msgTime := ToBigEndian(now, MID_SIZE);
      transformed := [];
      transformed := transformed + msgTime;
      transformed := transformed + data;
      assert transformed[..MID_SIZE] == msgTime;
    }
  }

  /**
   Sent at one time and received at another, with a source: the data comes back exactly when the
   wrapped deadline has not passed, and otherwise the message is refused as expired.
   */
  lemma RoundTrip(sent: seq<Byte>, data: seq<Byte>, source: PeerId, topic: string, ttl: nat, t1: nat, t2: nat)
    requires |sent| == MID_SIZE + |data| && BigEndian(sent[..MID_SIZE]) == t1 && sent[MID_SIZE..] == data
    ensures Unwrap(Some(source), sent, topic, ttl, t2) == Ok(Delivered(source, data, topic)) <==>
      t2 <= Deadline(t1, ttl)
    ensures Unwrap(Some(source), sent, topic, ttl, t2) == Err(Expired) <==> t2 > Deadline(t1, ttl)
  {
  }

  /** The wrapped deadline is the intended one exactly when the sum fits 64 bits. */
  lemma DeadlineIsIntended(t1: nat, ttl: nat)
    requires t1 < U64 && ttl < U64
    ensures Deadline(t1, ttl) == t1 + ttl <==> t1 + ttl < U64
    ensures t1 + ttl >= U64 ==> Deadline(t1, ttl) == t1 + ttl - U64 < t1
  {
  }

  /** An expired message stays expired. */
  lemma ExpiryIsForever(source: Option<PeerId>, data: seq<Byte>, topic: string, ttl: nat, now: nat, later: nat)
    requires Unwrap(source, data, topic, ttl, now) == Err(Expired) && now <= later
    ensures Unwrap(source, data, topic, ttl, later) == Err(Expired)
  {
  }

  /** The first byte counts most. */
  lemma {:induction false} MostSignificantFirst(first: Byte, rest: seq<Byte>)
    ensures BigEndian([first] + rest) == first * Power(|rest|) + BigEndian(rest)
    decreases |rest|
  {
    var bytes := [first] + rest;
    if rest == [] {
      assert bytes[..0] == [];
    } else {
      var n := |rest| - 1;
      MostSignificantFirst(first, rest[..n]);
      assert bytes[..n + 1] == [first] + rest[..n];
      assert bytes[n + 1] == rest[n];
    }
  }
}
