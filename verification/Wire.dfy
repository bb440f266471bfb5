/** The packets the broker builds and the PUBLISH packets it takes apart. */
module Wire {
  import opened Bytes

  const CONNECT := 1
  const CONNACK := 2
  const PUBLISH := 3
  const PUBACK := 4
  const PUBREC := 5
  const PUBREL := 6
  const PUBCOMP := 7
  const SUBSCRIBE := 8
  const SUBACK := 9
  const UNSUBSCRIBE := 10
  const UNSUBACK := 11
  const PINGREQ := 12
  const PINGRESP := 13
  const DISCONNECT := 14

  /** A two-bit QoS field. The value 3 is malformed, but the broker lets it through. */
  type QoS = q: int | 0 <= q < 4

  function MinQoS(a: QoS, b: QoS): (r: QoS)
    ensures r <= a && r <= b && (r == a || r == b)
  {
    if a <= b then a else b
  }

  /** A remaining length, seven bits per byte, low bits first (section 2.2.3 of MQTT Version 3.1.1). */
  function RemBytes(n: nat): (r: Bytes)
    ensures |r| >= 1
  {
    if n < 128 then [n] else [n % 128 + 128] + RemBytes(n / 128)
  }

  method EncodeRem(len: nat, buf: Bytes) returns (out: Bytes)
    ensures out == buf + RemBytes(len)
  {
    var n := len;
    out := buf;
    while true
      invariant out + RemBytes(n) == buf + RemBytes(len)
      decreases n
    {
      ghost var before, m := out, n;
      var b: byte := n % 128;
      n := n / 128;
      if n > 0 {
        b := b + 128;
      }
      out := out + [b];
      if n == 0 {
        break;
      }
      assert before + ([b] + RemBytes(n)) == before + [b] + RemBytes(n);
    }
  }

  function BuildConnack(): (r: Bytes) {
    [CONNACK * 16, 2, 0, 0]
  }

  /** The four-byte packets that carry nothing but a packet id. */
  function BuildAck(ptype: nat, pid: nat): (r: Bytes)
    requires ptype < 16
  {
    [ptype * 16, 2, pid / 256 % 256, pid % 256]
  }

  /** PUBREL has the fixed flags 0010; a retransmission sets the DUP bit besides. */
  function BuildPubrel(pid: nat, dup: bool): (r: Bytes) {
    [PUBREL * 16 + 2 + if dup then 8 else 0, 2, pid / 256 % 256, pid % 256]
  }

  function GrantBytes(grants: seq<QoS>): (r: Bytes)
    ensures |r| == |grants| && forall i :: 0 <= i < |grants| ==> r[i] == grants[i]
  {
    if grants == [] then [] else [grants[0] as byte] + GrantBytes(grants[1..])
  }

  /** The length byte of a SUBACK is cast to one byte, whatever the number of grants. */
  function BuildSuback(pid: nat, grants: seq<QoS>): (r: Bytes) {
    [SUBACK * 16, (2 + |grants|) % 256, pid / 256 % 256, pid % 256] + GrantBytes(grants)
  }

  function BuildPingresp(): (r: Bytes) {
    [PINGRESP * 16, 0]
  }

  function PublishHeader(qos: QoS, dup: bool, retain: bool): (b: byte) {
    PUBLISH * 16 + 2 * qos + (if dup then 8 else 0) + if retain then 1 else 0
  }

  function PidBytes(pid: Option<nat>): (r: Bytes) {
    if pid.Some? then Be16(pid.value) else []
  }

  function PublishBody(topic: Bytes, payload: Bytes, pid: Option<nat>): (r: Bytes) {
    Be16(|topic|) + topic + PidBytes(pid) + payload
  }

  /** A PUBLISH for a subscriber, as `build_forward` assembles it. */
  function BuildForward(
    topic: Bytes, payload: Bytes, qos: QoS, pid: Option<nat>, dup: bool, retain: bool): (pkt: Bytes) {
    var body := PublishBody(topic, payload, pid);
    [PublishHeader(qos, dup, retain)] + RemBytes(|body|) + body
  }

  datatype Publish = Publish(topic: Bytes, qos: QoS, pid: Option<nat>, payload: Bytes, retain: bool)

  function QosOf(flags: nat): (q: QoS) {
    flags / 2 % 4
  }

  function ParsePublish(flags: nat, body: Bytes): (r: Option<Publish>) {
    if |body| < 3 then None
    else
      var tlen := FromBe16(body[0], body[1]);
      var qos := QosOf(flags);
      var retain := flags % 2 == 1;
      var pos := 2 + tlen;
      if pos > |body| then None
      else
        var topic := body[2..pos];
        if qos > 0 then
          if pos + 2 > |body| then None
          else Some(Publish(topic, qos, Some(FromBe16(body[pos], body[pos + 1])), body[pos + 2..], retain))
        else Some(Publish(topic, qos, None, body[pos..], retain))
  }

  /** The packet id alone, for a PUBLISH nobody will receive. */
  function ParsePidOnly(body: Bytes): (r: Option<nat>) {
    if |body| < 4 then None
    else
      var tlen := FromBe16(body[0], body[1]);
      if |body| < 2 + tlen + 2 then None
      else Some(FromBe16(body[2 + tlen], body[2 + tlen + 1]))
  }

  /** The short parser accepts the same bodies as the full one and finds the same id. */
  lemma PidOnlyAgrees(flags: nat, body: Bytes)
    requires QosOf(flags) > 0
    ensures ParsePidOnly(body) ==
      match ParsePublish(flags, body)
        case None => None
        case Some(p) => p.pid
    ensures ParsePublish(flags, body).Some? ==> ParsePublish(flags, body).value.pid.Some?
  {
  }

  /** Where the parts of a PUBLISH body lie. */
  lemma BodySlices(topic: Bytes, payload: Bytes, pid: Option<nat>)
    requires |topic| <= U16_MAX
    ensures var body := PublishBody(topic, payload, pid);
      && FromBe16(body[0], body[1]) == |topic|
      && body[2..2 + |topic|] == topic
      && body[2 + |topic|..] == PidBytes(pid) + payload
  {
    var body := PublishBody(topic, payload, pid);
    Be16RoundTrip(|topic|);
    assert body == Be16(|topic|) + (topic + (PidBytes(pid) + payload));
    assert body[2..] == topic + (PidBytes(pid) + payload);
    assert body[2..2 + |topic|] == body[2..][..|topic|];
    assert body[2 + |topic|..] == body[2..][|topic|..];
  }

  lemma PidSlices(topic: Bytes, payload: Bytes, pid: nat)
    requires |topic| <= U16_MAX && pid <= U16_MAX
    ensures var body := PublishBody(topic, payload, Some(pid));
      && FromBe16(body[2 + |topic|], body[3 + |topic|]) == pid
      && body[4 + |topic|..] == payload
  {
    var body := PublishBody(topic, payload, Some(pid));
    BodySlices(topic, payload, Some(pid));
    Be16RoundTrip(pid);
    var rest := Be16(pid) + payload;
    assert body[2 + |topic|] == rest[0] && body[3 + |topic|] == rest[1];
    assert body[4 + |topic|..] == rest[2..] == payload;
  }

  /** What a receiver parses from a forward is what the broker put into it. */
  lemma ForwardRoundTrip(topic: Bytes, payload: Bytes, qos: QoS, pid: Option<nat>, dup: bool, retain: bool)
    requires |topic| <= U16_MAX
    requires pid.Some? <==> qos > 0
    requires pid.Some? ==> pid.value <= U16_MAX
    requires |PublishBody(topic, payload, pid)| >= 3
    ensures ParsePublish(PublishHeader(qos, dup, retain) % 16, PublishBody(topic, payload, pid))
      == Some(Publish(topic, qos, pid, payload, retain))
  {
    var body := PublishBody(topic, payload, pid);
    var flags := PublishHeader(qos, dup, retain) % 16;
    assert QosOf(flags) == qos && (flags % 2 == 1) == retain;
    BodySlices(topic, payload, pid);
    if qos > 0 {
      PidSlices(topic, payload, pid.value);
      ParseWithPid(flags, body, topic, pid.value, payload);
    } else {
      assert body[2 + |topic|..] == payload;
      ParseWithoutPid(flags, body, topic, payload);
    }
  }

  lemma ParseWithPid(flags: nat, body: Bytes, topic: Bytes, pid: nat, payload: Bytes)
    requires QosOf(flags) > 0 && |body| >= 4 + |topic| && FromBe16(body[0], body[1]) == |topic|
    requires body[2..2 + |topic|] == topic && body[4 + |topic|..] == payload
    requires FromBe16(body[2 + |topic|], body[3 + |topic|]) == pid
    ensures ParsePublish(flags, body) == Some(Publish(topic, QosOf(flags), Some(pid), payload, flags % 2 == 1))
  {
  }

  lemma ParseWithoutPid(flags: nat, body: Bytes, topic: Bytes, payload: Bytes)
    requires QosOf(flags) == 0 && |body| >= 3 && |body| >= 2 + |topic| && FromBe16(body[0], body[1]) == |topic|
    requires body[2..2 + |topic|] == topic && body[2 + |topic|..] == payload
    ensures ParsePublish(flags, body) == Some(Publish(topic, 0, None, payload, flags % 2 == 1))
  {
  }

  /** Every body that parses is the body of the message it parses to. */
  lemma ParseRebuilds(flags: nat, body: Bytes)
    requires ParsePublish(flags, body).Some?
    ensures var p := ParsePublish(flags, body).value;
      && body == PublishBody(p.topic, p.payload, p.pid)
      && |p.topic| <= U16_MAX && (p.pid.Some? <==> p.qos > 0)
      && p.qos == QosOf(flags) && p.retain == (flags % 2 == 1)
  {
    var p := ParsePublish(flags, body).value;
    var pos := 2 + |p.topic|;
    var tail := body[pos..];
    Be16At(body, 0);
    assert body[0..] == body;
    SplitAt(body[..pos], 2);
    SplitAt(body, pos);
    assert body[..pos][..2] == Be16(|p.topic|) && body[..pos][2..] == p.topic;
    if p.pid.Some? {
      Be16At(body, pos);
      SplitAt(tail, 2);
      DropDrop(body, pos, 2);
      Assoc(Be16(|p.topic|) + p.topic, Be16(p.pid.value), p.payload);
    } else {
      AppendNothing(Be16(|p.topic|) + p.topic);
    }
  }

  /**
   How `remove_client` reads a packet back from the write queue: it takes the remaining
   length to be one byte long. `None` stands for an index out of range, which is a panic.
   */
  function DecodeQueued(pkt: Bytes): (r: Option<(Bytes, Bytes, QoS)>) {
    if |pkt| < 4 then None
    else
      var body := pkt[2..];
      var tlen := FromBe16(body[0], body[1]);
      var qos := QosOf(pkt[0]);
      var off := 2 + tlen + if qos > 0 then 2 else 0;
      if off > |body| then None else Some((body[2..2 + tlen], body[off..], qos))
  }

  /**
   Reading a queued forward back returns what went into it exactly when its remaining length
   fits one byte. A longer body never comes back right: either the read panics, or the two
   strings have the wrong total length.
   */
  lemma DecodeQueuedExactly(topic: Bytes, payload: Bytes, qos: QoS, pid: Option<nat>, dup: bool, retain: bool)
    requires pid.Some? <==> qos > 0
    ensures DecodeQueued(BuildForward(topic, payload, qos, pid, dup, retain)) == Some((topic, payload, qos))
      <==> |PublishBody(topic, payload, pid)| <= 127
  {
    var body := PublishBody(topic, payload, pid);
    var pkt := BuildForward(topic, payload, qos, pid, dup, retain);
    assert QosOf(pkt[0]) == qos;
    ForwardLength(topic, payload, qos, pid, dup, retain);
    if |body| <= 127 {
      assert pkt[2..] == body;
      BodySlices(topic, payload, pid);
      if qos > 0 {
        PidPayload(body, topic, payload, pid.value);
      } else {
        PrependNothing(payload);
      }
      DecodeFrom(pkt, body, topic, payload, qos);
    } else if DecodeQueued(pkt).Some? {
      DecodedLength(pkt);
    }
  }

  lemma PidPayload(body: Bytes, topic: Bytes, payload: Bytes, pid: nat)
    requires |body| >= 4 + |topic| && body[2 + |topic|..] == Be16(pid) + payload
    ensures body[4 + |topic|..] == payload
  {
    DropDrop(body, 2 + |topic|, 2);
    assert (Be16(pid) + payload)[2..] == payload;
  }

  lemma ForwardLength(topic: Bytes, payload: Bytes, qos: QoS, pid: Option<nat>, dup: bool, retain: bool)
    requires pid.Some? <==> qos > 0
    ensures var n := |PublishBody(topic, payload, pid)|;
      && n == 2 + |topic| + |payload| + (if qos > 0 then 2 else 0)
      && |BuildForward(topic, payload, qos, pid, dup, retain)| == 1 + |RemBytes(n)| + n
      && (n >= 128 ==> |RemBytes(n)| >= 2)
  {
  }

  lemma DecodeFrom(pkt: Bytes, body: Bytes, topic: Bytes, payload: Bytes, qos: QoS)
    requires |pkt| >= 4 && pkt[2..] == body && QosOf(pkt[0]) == qos
    requires FromBe16(body[0], body[1]) == |topic| && |body| == 2 + |topic| + |payload| + if qos > 0 then 2 else 0
    requires body[2..2 + |topic|] == topic
    requires body[2 + |topic| + (if qos > 0 then 2 else 0)..] == payload
    ensures DecodeQueued(pkt) == Some((topic, payload, qos))
  {
  }

  lemma DecodedLength(pkt: Bytes)
    requires DecodeQueued(pkt).Some?
    ensures var d := DecodeQueued(pkt).value;
      |d.0| + |d.1| == |pkt| - 4 - if QosOf(pkt[0]) > 0 then 2 else 0
  {
  }

  /**
   The body lengths for which reading a queued forward back runs out of the packet. With a
   two-byte length field it always does; with a three-byte one, when the two bytes taken for the
   topic's length claim more than there is; with a longer one, never.
   */
  predicate Misread(n: nat, qos: QoS) {
    || 128 <= n < 16384
    || (16384 <= n < 2097152 && 256 * (n / 128 % 128 + 128) + n / 16384 + (if qos > 0 then 2 else 0) > n)
  }

  /** The second and third byte of a length field that has them, and its width. */
  lemma RemDigits(n: nat)
    ensures n < 128 ==> RemBytes(n) == [n]
    ensures 128 <= n < 16384 ==> RemBytes(n) == [n % 128 + 128, n / 128]
    ensures 16384 <= n < 2097152 ==> RemBytes(n) == [n % 128 + 128, n / 128 % 128 + 128, n / 16384]
    ensures 2097152 <= n ==> |RemBytes(n)| >= 4
  {
    var m := n / 128;
    assert m / 128 == n / 16384;
    if n >= 16384 {
      assert RemBytes(m) == [m % 128 + 128] + RemBytes(m / 128);
    }
  }

  /** Reading back looks at four bytes and the length of the packet. */
  lemma DecodeFails(pkt: Bytes)
    requires |pkt| >= 4
    ensures DecodeQueued(pkt).None? <==> 256 * pkt[2] + pkt[3] + (if QosOf(pkt[0]) > 0 then 2 else 0) > |pkt| - 4
  {
  }

  /** Reading a queued forward back panics exactly for these body lengths. */
  lemma DecodePanicsExactly(topic: Bytes, payload: Bytes, qos: QoS, pid: Option<nat>, dup: bool, retain: bool)
    requires pid.Some? <==> qos > 0
    ensures DecodeQueued(BuildForward(topic, payload, qos, pid, dup, retain)).None?
      <==> Misread(|PublishBody(topic, payload, pid)|, qos)
  {
    var body := PublishBody(topic, payload, pid);
    var pkt := BuildForward(topic, payload, qos, pid, dup, retain);
    var n, rem := |body|, RemBytes(|body|);
    assert QosOf(pkt[0]) == qos;
    ForwardLength(topic, payload, qos, pid, dup, retain);
    if n < 128 {
      DecodeQueuedExactly(topic, payload, qos, pid, dup, retain);
    } else {
      BytesAfterLength(pkt, PublishHeader(qos, dup, retain), rem, body);
      DecodeFails(pkt);
      MisreadExactly(n, qos, rem, pkt[3]);
    }
  }

  /** What is taken for the topic's length, and the two bytes of a packet id, reach past the end. */
  lemma MisreadExactly(n: nat, qos: QoS, rem: Bytes, next: byte)
    requires n >= 128 && rem == RemBytes(n) && |rem| >= 2 && (|rem| >= 3 ==> next == rem[2])
    ensures 256 * rem[1] + next + (if qos > 0 then 2 else 0) > |rem| + n - 3 <==> Misread(n, qos)
  {
    RemDigits(n);
    if n < 16384 {
      assert n < 128 * (n / 128) + 128;
    }
  }

  lemma BytesAfterLength(pkt: Bytes, header: byte, rem: Bytes, body: Bytes)
    requires pkt == [header] + rem + body && |rem| >= 2 && |body| >= 2
    ensures pkt[2] == rem[1] && pkt[3] == if |rem| == 2 then body[0] else rem[2]
  {
  }

  /** Reading a queued PUBREL back always panics: its packet id is taken for a topic's length. */
  lemma DecodeQueuedPubrel(pid: nat, dup: bool)
    ensures DecodeQueued(BuildPubrel(pid, dup)).None?
  {
    DecodeFails(BuildPubrel(pid, dup));
  }
}
