/**
 Cutting a byte stream into packets: `handle_packets` up to the point where packets are
 handled, and the bound `drain_client` puts on the read buffer.
 */
module Framing {
  import opened Bytes
  import opened Wire

  const MAX_PACKET := 1048576
  const READ_CAP := 2 * MAX_PACKET
  const READ_CHUNK := 65536

  /** A remaining length of at most `k` bytes at offset `at`: its value and width. */
  function DecodeRem(s: Bytes, at: nat, k: nat): (r: Option<(nat, nat)>)
    ensures r.Some? ==> 1 <= r.value.1 <= k && at + r.value.1 <= |s|
    decreases |s| - at
  {
    if k == 0 || at >= |s| then None
    else if s[at] < 128 then Some((s[at], 1))
    else
      match DecodeRem(s, at + 1, k - 1)
      case None => None
      case Some((v, w)) => Some((s[at] % 128 + 128 * v, w + 1))
  }

  datatype Packet = Packet(ptype: nat, flags: nat, body: Bytes)

  datatype Head = More | TooLarge | Took(packet: Packet, size: nat)

  /** The first packet of a non-empty buffer, if it is all there. */
  function ParseHead(b: Bytes): (h: Head)
    requires b != []
    ensures h.Took? ==> 2 <= h.size <= |b|
  {
    match DecodeRem(b, 1, 4)
    case None => More
    case Some((rem, w)) =>
      if rem > MAX_PACKET then TooLarge
      else if |b| < 1 + w + rem then More
      else Took(Packet(b[0] / 16, b[0] % 16, b[1 + w..1 + w + rem]), 1 + w + rem)
  }

  datatype Framed = Framed(pkts: seq<Packet>, tail: Bytes, bad: bool)

  /** Some packets, and then what another framing gives. */
  function Then(pkts: seq<Packet>, f: Framed): (r: Framed) {
    Framed(pkts + f.pkts, f.tail, f.bad)
  }

  lemma ThenTwice(a: seq<Packet>, b: seq<Packet>, f: Framed)
    ensures Then(a, Then(b, f)) == Then(a + b, f)
  {
    assert a + (b + f.pkts) == a + b + f.pkts;
  }

  lemma ThenNothing(a: seq<Packet>, f: Framed)
    ensures a == [] ==> Then(a, f) == f
    ensures f.pkts == [] ==> Then(a, f) == Framed(a, f.tail, f.bad)
  {
  }

  /** All complete packets of a buffer, what is left over, and whether an oversized one stopped it. */
  function Frame(b: Bytes): (f: Framed)
    decreases |b|, 1
  {
    if b == [] then Framed([], [], false) else FrameFirst(b)
  }

  function FrameFirst(b: Bytes): (f: Framed)
    requires b != []
    decreases |b|, 0
  {
    match ParseHead(b)
    case More => Framed([], b, false)
    case TooLarge => Framed([], b, true)
    case Took(p, n) => Then([p], Frame(b[n..]))
  }

  /** A length field of which `read` bytes, worth `rem`, are decoded and `rest` is to come. */
  predicate Continues(whole: Option<(nat, nat)>, rest: Option<(nat, nat)>, rem: nat, mult: nat, read: nat) {
    match rest
    case None => whole == None
    case Some((v, w)) => whole == Some((rem + mult * v, read + w))
  }

  lemma DigitStep(s: Bytes, at: nat, k: nat, whole: Option<(nat, nat)>, rem: nat, mult: nat, read: nat)
    requires at < |s| && k > 0 && Continues(whole, DecodeRem(s, at, k), rem, mult, read)
    ensures s[at] % 128 * mult >= 0
    ensures s[at] < 128 ==> whole == Some((rem + s[at] % 128 * mult, read + 1))
    ensures s[at] >= 128 ==>
      Continues(whole, DecodeRem(s, at + 1, k - 1), rem + s[at] % 128 * mult, mult * 128, read + 1)
  {
    var digit: nat := s[at] % 128;
    assert digit * mult == mult * digit;
    var rest := DecodeRem(s, at + 1, k - 1);
    if s[at] >= 128 && rest.Some? {
      var v := rest.value.0;
      assert mult * (digit + 128 * v) == mult * digit + mult * 128 * v;
    }
  }

  /** The source's inner loop: `i` ends on the last byte of the remaining length. */
  method DecodeRemaining(b: Bytes) returns (complete: bool, rem: nat, i: nat)
    requires b != []
    ensures complete <==> DecodeRem(b, 1, 4).Some?
    ensures complete ==> DecodeRem(b, 1, 4) == Some((rem, i))
  {
    rem := 0;
    var mult: nat := 1;
    i := 1;
    complete := false;
    ghost var whole := DecodeRem(b, 1, 4);
    while i < |b| && i <= 4
      invariant 1 <= i <= 5 && i <= |b|
      invariant Continues(whole, DecodeRem(b, i, 5 - i), rem, mult, i - 1)
    {
      DigitStep(b, i, 5 - i, whole, rem, mult, i - 1);
      rem := rem + b[i] % 128 * mult;
      if b[i] < 128 {
        complete := true;
        return;
      }
      mult := mult * 128;
      i := i + 1;
    }
  }

  /** A packet as the source holds it: offset and length of the body in the buffer. */
  datatype Slice = Slice(ptype: nat, flags: nat, off: nat, len: nat) {
    predicate Within(b: Bytes) {
      off + len <= |b|
    }

    function Cut(b: Bytes): (p: Packet)
      requires Within(b)
    {
      Packet(ptype, flags, b[off..off + len])
    }
  }

  function Packets(b: Bytes, slices: seq<Slice>): (r: seq<Packet>)
    requires forall i :: 0 <= i < |slices| ==> slices[i].Within(b)
  {
    if slices == [] then [] else Packets(b, slices[..|slices| - 1]) + [slices[|slices| - 1].Cut(b)]
  }

  datatype Verdict = Wait | Refuse | Take(s: Slice)

  /** The verdict describes the front of what is left of the buffer. */
  ghost predicate IsNext(b: Bytes, v: Verdict) {
    match v
    case Wait => Frame(b) == Framed([], b, false)
    case Refuse => Frame(b) == Framed([], b, true)
    case Take(s) => 0 < s.off && s.Within(b) && Frame(b) == Then([s.Cut(b)], Frame(b[s.off + s.len..]))
  }

  /** One turn of the source's outer loop: the packet at the front of what is left, or why there is none. */
  method NextPacket(b: Bytes) returns (v: Verdict)
    requires b != []
    ensures IsNext(b, v)
  {
    var complete, rem, i := DecodeRemaining(b);
    if !complete {
      FrameWaits(b);
      v := Wait;
    } else if rem > MAX_PACKET {
      FrameRefuses(b);
      v := Refuse;
    } else if |b| < i + 1 + rem {
      FrameWaits(b);
      v := Wait;
    } else {
      v := Take(Slice(b[0] / 16, b[0] % 16, i + 1, rem));
      FrameTakes(b, rem, i, v.s);
    }
  }

  lemma CutFurtherOn(buf: Bytes, at: nat, b: Bytes, s: Slice)
    requires at <= |buf| && b == buf[at..] && s.Within(b)
    ensures var moved := s.(off := at + s.off);
      && moved.Within(buf) && moved.Cut(buf) == s.Cut(b)
      && b[s.off + s.len..] == buf[moved.off + moved.len..]
  {
    SliceOfDrop(buf, at, s.off, s.off + s.len);
    DropDrop(buf, at, s.off + s.len);
  }

  lemma FrameWaits(b: Bytes)
    requires b != []
    requires var d := DecodeRem(b, 1, 4);
      d.None? || (d.value.0 <= MAX_PACKET && |b| < 1 + d.value.1 + d.value.0)
    ensures IsNext(b, Wait)
  {
  }

  lemma FrameRefuses(b: Bytes)
    requires b != []
    requires var d := DecodeRem(b, 1, 4); d.Some? && d.value.0 > MAX_PACKET
    ensures IsNext(b, Refuse)
  {
  }

  lemma FrameTakes(b: Bytes, rem: nat, w: nat, s: Slice)
    requires b != [] && DecodeRem(b, 1, 4) == Some((rem, w)) && rem <= MAX_PACKET && 1 + w + rem <= |b|
    requires s == Slice(b[0] / 16, b[0] % 16, 1 + w, rem)
    ensures IsNext(b, Take(s))
  {
    HeadIs(b, rem, w, s);
    FrameTook(b);
  }

  lemma HeadIs(b: Bytes, rem: nat, w: nat, s: Slice)
    requires b != [] && DecodeRem(b, 1, 4) == Some((rem, w)) && rem <= MAX_PACKET && 1 + w + rem <= |b|
    requires s == Slice(b[0] / 16, b[0] % 16, 1 + w, rem)
    ensures s.Within(b) && ParseHead(b) == Took(s.Cut(b), s.off + s.len)
  {
  }

  lemma FrameTook(b: Bytes)
    requires b != [] && ParseHead(b).Took?
    ensures Frame(b) == Then([ParseHead(b).packet], Frame(b[ParseHead(b).size..]))
  {
  }

  lemma FrameStops(b: Bytes)
    requires b != [] && !ParseHead(b).Took?
    ensures Frame(b) == Framed([], b, ParseHead(b).TooLarge?)
  {
  }

  /** After some turns of the loop: what is taken, and `b`, from which more is to be taken. */
  ghost predicate Turned(buf: Bytes, pkts: seq<Slice>, b: Bytes) {
    && (forall i :: 0 <= i < |pkts| ==> pkts[i].Within(buf))
    && Frame(buf) == Then(Packets(buf, pkts), Frame(b))
  }

  /** The packets found, what is left and the error are those of framing the buffer. */
  ghost predicate IsSplit(buf: Bytes, pkts: seq<Slice>, tail: Bytes, bad: bool) {
    && (forall i :: 0 <= i < |pkts| ==> pkts[i].Within(buf))
    && Frame(buf) == Framed(Packets(buf, pkts), tail, bad)
  }

  /** The source's outer loop. */
  method SplitPackets(buf: Bytes) returns (pkts: seq<Slice>, consumed: nat, bad: bool)
    ensures consumed <= |buf| && IsSplit(buf, pkts, buf[consumed..], bad)
  {
    pkts, consumed, bad := [], 0, false;
    var b := buf;
    NothingTurned(buf);
    while b != []
      invariant consumed <= |buf| && b == buf[consumed..]
      invariant Turned(buf, pkts, b)
      decreases |b|
    {
      var v := NextPacket(b);
      if !v.Take? {
        LastTurn(buf, pkts, b, v);
        bad := v.Refuse?;
        return;
      }
      ghost var before := b;
      var s := v.s.(off := consumed + v.s.off);
      CutFurtherOn(buf, consumed, b, v.s);
      b := b[v.s.off + v.s.len..];
      NextOfBuffer(buf, before, v.s, s, b);
      OneMoreTurn(buf, pkts, before, s, b);
      pkts, consumed := pkts + [s], s.off + s.len;
    }
    NoMoreTurns(buf, pkts);
  }

  lemma NothingTurned(buf: Bytes)
    ensures Turned(buf, [], buf)
  {
    ThenNothing([], Frame(buf));
  }

  lemma LastTurn(buf: Bytes, pkts: seq<Slice>, b: Bytes, v: Verdict)
    requires Turned(buf, pkts, b) && IsNext(b, v) && !v.Take?
    ensures IsSplit(buf, pkts, b, v.Refuse?)
  {
    ThenNothing(Packets(buf, pkts), Frame(b));
  }

  lemma NoMoreTurns(buf: Bytes, pkts: seq<Slice>)
    requires Turned(buf, pkts, [])
    ensures IsSplit(buf, pkts, [], false)
  {
    ThenNothing(Packets(buf, pkts), Frame([]));
  }

  /** The next packet, as a slice of the whole buffer. */
  ghost predicate Follows(buf: Bytes, b: Bytes, s: Slice, rest: Bytes) {
    s.Within(buf) && Frame(b) == Then([s.Cut(buf)], Frame(rest))
  }

  lemma NextOfBuffer(buf: Bytes, b: Bytes, s: Slice, moved: Slice, rest: Bytes)
    requires IsNext(b, Take(s)) && rest == b[s.off + s.len..]
    requires moved.Within(buf) && moved.Cut(buf) == s.Cut(b)
    ensures Follows(buf, b, moved, rest)
  {
  }

  lemma OneMoreTurn(buf: Bytes, pkts: seq<Slice>, b: Bytes, s: Slice, rest: Bytes)
    requires Turned(buf, pkts, b) && Follows(buf, b, s, rest)
    ensures Turned(buf, pkts + [s], rest)
  {
    PacketsSnoc(buf, pkts, s);
    ThenTwice(Packets(buf, pkts), [s.Cut(buf)], Frame(rest));
  }

  lemma PacketsSnoc(b: Bytes, slices: seq<Slice>, s: Slice)
    requires s.Within(b) && forall i :: 0 <= i < |slices| ==> slices[i].Within(b)
    ensures Packets(b, slices + [s]) == Packets(b, slices) + [s.Cut(b)]
  {
    assert (slices + [s])[..|slices|] == slices;
  }

  // ---- Where the stream is cut does not matter

  lemma {:induction false} DecodeRemExtends(s: Bytes, x: Bytes, at: nat, k: nat)
    ensures DecodeRem(s, at, k).Some? || |s| >= at + k ==> DecodeRem(s + x, at, k) == DecodeRem(s, at, k)
    decreases k
  {
    if k > 0 && at < |s| {
      assert (s + x)[at] == s[at];
      DecodeRemExtends(s, x, at + 1, k - 1);
    }
  }

  lemma ParseHeadExtends(a: Bytes, x: Bytes)
    requires a != [] && !ParseHead(a).More?
    ensures ParseHead(a + x) == ParseHead(a)
  {
    DecodeRemExtends(a, x, 1, 4);
    var (rem, w) := DecodeRem(a, 1, 4).value;
    if ParseHead(a).Took? {
      assert (a + x)[1 + w..1 + w + rem] == a[1 + w..1 + w + rem];
    }
  }

  /** Framing `a + x` is framing `a`, and then what is left of it together with `x`. */
  lemma {:induction false} FrameCut(a: Bytes, x: Bytes)
    requires !Frame(a).bad
    ensures Frame(a + x) == Then(Frame(a).pkts, Frame(Frame(a).tail + x))
    decreases |a|
  {
    if a == [] {
      assert a + x == x;
    } else if ParseHead(a).Took? {
      ParseHeadExtends(a, x);
      var n := ParseHead(a).size;
      DropOfConcat(a, x, n);
      var first, later := [ParseHead(a).packet], Frame(a[n..]);
      FrameCut(a[n..], x);
      ThenTwice(first, later.pkts, Frame(later.tail + x));
    }
  }

  /** The packets `handle_packets` goes on to handle: none of the batch, if it ends in an oversized one. */
  function Handled(b: Bytes): (r: seq<Packet>) {
    if Frame(b).bad then [] else Frame(b).pkts
  }

  /**
   Handling, unlike framing, can depend on the cut: a batch that ends in an oversized packet
   is dropped together with the good packets in front of it. It does so exactly when there
   are such packets in the part that would have been handled on its own.
   */
  lemma HandledCut(a: Bytes, x: Bytes)
    requires !Frame(a).bad
    ensures Handled(a + x) == Handled(a) + Handled(Frame(a).tail + x)
      <==> !Frame(a + x).bad || Frame(a).pkts == []
  {
    FrameCut(a, x);
  }

  // ---- Encoding and framing are inverse

  predicate Encodable(p: Packet) {
    p.ptype < 16 && p.flags < 16 && |p.body| <= MAX_PACKET
  }

  function EncodePacket(p: Packet): (r: Bytes)
    requires Encodable(p)
  {
    [p.ptype * 16 + p.flags] + RemBytes(|p.body|) + p.body
  }

  function EncodeAll(ps: seq<Packet>): (r: Bytes)
    requires forall p :: p in ps ==> Encodable(p)
  {
    if ps == [] then [] else EncodePacket(ps[0]) + EncodeAll(ps[1..])
  }

  lemma {:induction false} DecodeEncodeRem(n: nat, k: nat, s: Bytes, at: nat)
    requires 1 <= k <= 4 && n < [0, 128, 16384, 2097152, 268435456][k]
    requires at + |RemBytes(n)| <= |s| && s[at..at + |RemBytes(n)|] == RemBytes(n)
    ensures DecodeRem(s, at, k) == Some((n, |RemBytes(n)|))
    decreases k
  {
    var r := RemBytes(n);
    assert s[at] == s[at..at + |r|][0] == r[0];
    if n >= 128 {
      assert s[at + 1..at + |r|] == s[at..at + |r|][1..] == RemBytes(n / 128);
      DecodeEncodeRem(n / 128, k - 1, s, at + 1);
    }
  }

  lemma ParseEncoded(p: Packet, rest: Bytes)
    requires Encodable(p)
    ensures ParseHead(EncodePacket(p) + rest) == Took(p, |EncodePacket(p)|)
  {
    var e := EncodePacket(p);
    PacketSlices(p.ptype * 16 + p.flags, RemBytes(|p.body|), p.body, rest, e + rest);
    DecodeEncodeRem(|p.body|, 4, e + rest, 1);
  }

  lemma PacketSlices(header: byte, rem: Bytes, body: Bytes, rest: Bytes, b: Bytes)
    requires b == [header] + rem + body + rest
    ensures |b| >= 1 + |rem| + |body| && b[0] == header
    ensures b[1..1 + |rem|] == rem && b[1 + |rem|..1 + |rem| + |body|] == body
  {
  }

  /** A stream of well-formed packets is framed into exactly those packets, with nothing left. */
  lemma {:induction false} FrameEncoded(ps: seq<Packet>)
    requires forall p :: p in ps ==> Encodable(p)
    ensures Frame(EncodeAll(ps)) == Framed(ps, [], false)
  {
    if ps != [] {
      var e := EncodePacket(ps[0]);
      ParseEncoded(ps[0], EncodeAll(ps[1..]));
      assert EncodeAll(ps)[|e|..] == EncodeAll(ps[1..]);
      FrameEncoded(ps[1..]);
    }
  }

  // ---- What a client reads of the broker's packets

  lemma FrameOne(p: Packet)
    requires Encodable(p)
    ensures Frame(EncodePacket(p)) == Framed([p], [], false)
  {
    var ps := [p];
    assert EncodeAll(ps[1..]) == [];
    assert EncodeAll(ps) == EncodePacket(p) + [] == EncodePacket(p);
    FrameEncoded(ps);
  }

  /** A forward is read as one PUBLISH with the message that went into it. */
  lemma ForwardIsRead(topic: Bytes, payload: Bytes, qos: QoS, pid: Option<nat>, dup: bool, retain: bool)
    requires |topic| <= U16_MAX && (pid.Some? <==> qos > 0) && (pid.Some? ==> pid.value <= U16_MAX)
    requires 3 <= |PublishBody(topic, payload, pid)| <= MAX_PACKET
    ensures var f := Frame(BuildForward(topic, payload, qos, pid, dup, retain));
      && f.tail == [] && !f.bad && |f.pkts| == 1 && f.pkts[0].ptype == PUBLISH
      && (f.pkts[0].flags / 8 == 1 <==> dup)
      && ParsePublish(f.pkts[0].flags, f.pkts[0].body) == Some(Publish(topic, qos, pid, payload, retain))
  {
    var h := PublishHeader(qos, dup, retain);
    var p := Packet(h / 16, h % 16, PublishBody(topic, payload, pid));
    assert EncodePacket(p) == BuildForward(topic, payload, qos, pid, dup, retain);
    FrameOne(p);
    ForwardRoundTrip(topic, payload, qos, pid, dup, retain);
  }

  /** The acknowledgements are read with the id they answer; PUBREL carries its fixed flags. */
  lemma AcksAreRead(ptype: nat, pid: nat, dup: bool)
    requires ptype < 16 && pid <= U16_MAX
    ensures Frame(BuildAck(ptype, pid)) == Framed([Packet(ptype, 0, Be16(pid))], [], false)
    ensures Frame(BuildPubrel(pid, dup)) == Framed([Packet(PUBREL, if dup then 10 else 2, Be16(pid))], [], false)
    ensures FromBe16(Be16(pid)[0], Be16(pid)[1]) == pid
  {
    Be16RoundTrip(pid);
    assert RemBytes(2) == [2];
    assert EncodePacket(Packet(ptype, 0, Be16(pid))) == BuildAck(ptype, pid);
    FrameOne(Packet(ptype, 0, Be16(pid)));
    var p := Packet(PUBREL, if dup then 10 else 2, Be16(pid));
    assert EncodePacket(p) == BuildPubrel(pid, dup);
    FrameOne(p);
  }

  /** CONNACK accepts the connection without a session present; PINGRESP has no body. */
  lemma PlainRepliesAreRead()
    ensures Frame(BuildConnack()) == Framed([Packet(CONNACK, 0, [0, 0])], [], false)
    ensures Frame(BuildPingresp()) == Framed([Packet(PINGRESP, 0, [])], [], false)
  {
    assert RemBytes(2) == [2] && RemBytes(0) == [0];
    assert EncodePacket(Packet(CONNACK, 0, [0, 0])) == BuildConnack();
    FrameOne(Packet(CONNACK, 0, [0, 0]));
    assert EncodePacket(Packet(PINGRESP, 0, [])) == BuildPingresp();
    FrameOne(Packet(PINGRESP, 0, []));
  }

  /** Behind a length written as one byte, a body is read whole only if that byte is its length. */
  lemma OneByteLength(b: Bytes)
    requires |b| >= 2 && ParseHead(b).Took? && ParseHead(b).packet.body == b[2..]
    ensures b[1] == |b| - 2 && b[1] < 128
  {
    var (rem, w) := DecodeRem(b, 1, 4).value;
    assert |b[1 + w..1 + w + rem]| == rem;
  }

  lemma SubackPacket(b: Bytes, p: Packet, pid: nat, grants: seq<QoS>)
    requires |b| >= 2 && b[0] == SUBACK * 16 && b[2..] == Be16(pid) + GrantBytes(grants)
    requires p == Packet(SUBACK, 0, Be16(pid) + GrantBytes(grants))
    ensures p == Packet(b[0] / 16, b[0] % 16, b[2..])
  {
  }

  lemma SubackBytes(pid: nat, grants: seq<QoS>, b: Bytes)
    requires b == BuildSuback(pid, grants)
    ensures |b| == 4 + |grants| && b[0] == SUBACK * 16 && b[1] == (2 + |grants|) % 256
    ensures b[2..] == Be16(pid) + GrantBytes(grants)
  {
    var head := [SUBACK * 16, (2 + |grants|) % 256, pid / 256 % 256, pid % 256];
    DropOfConcat(head, GrantBytes(grants), 2);
    assert head[2..] == Be16(pid);
  }

  /** Behind one length byte, a body of up to 127 bytes is the whole packet. */
  lemma OneByteHead(b: Bytes)
    requires 2 <= |b| < 130 && b[1] == |b| - 2
    ensures ParseHead(b) == Took(Packet(b[0] / 16, b[0] % 16, b[2..]), |b|)
  {
    assert b[1..][0] == b[1];
    assert b[2..2 + b[1]] == b[2..];
  }

  lemma FrameWhole(b: Bytes, p: Packet)
    requires b != [] && ParseHead(b) == Took(p, |b|)
    ensures Frame(b) == Framed([p], [], false)
  {
    ThenNothing([p], Frame(b[|b|..]));
  }

  lemma FirstPacket(b: Bytes)
    requires Frame(b).pkts != []
    ensures b != [] && ParseHead(b).Took? && ParseHead(b).packet == Frame(b).pkts[0]
  {
  }

  /** A body behind its length cast to one byte is read as it was meant exactly when it is below 128 bytes. */
  lemma CastLengthIsReadExactly(b: Bytes, p: Packet)
    requires |b| >= 2 && b[1] == (|b| - 2) % 256 && p == Packet(b[0] / 16, b[0] % 16, b[2..])
    ensures Frame(b) == Framed([p], [], false) <==> |b| < 130
  {
    if |b| < 130 {
      OneByteHead(b);
      FrameWhole(b, p);
    } else if Frame(b) == Framed([p], [], false) {
      FirstPacket(b);
      OneByteLength(b);
    }
  }

  /** A SUBACK is read as it was meant exactly when it grants at most 125 filters. */
  lemma SubackIsReadExactly(pid: nat, grants: seq<QoS>, b: Bytes, p: Packet)
    requires b == BuildSuback(pid, grants)
    requires p == Packet(SUBACK, 0, Be16(pid) + GrantBytes(grants))
    ensures Frame(b) == Framed([p], [], false) <==> |grants| <= 125
  {
    SubackBytes(pid, grants, b);
    SubackPacket(b, p, pid, grants);
    CastLengthIsReadExactly(b, p);
  }

  // ---- The flood guard

  /** Every remaining length in the stream ends within four bytes and is at most MAX_PACKET. */
  predicate Legal(b: Bytes)
    decreases |b|
  {
    b == [] ||
    match DecodeRem(b, 1, 4)
    case None => |b| <= 4
    case Some((rem, w)) => rem <= MAX_PACKET && (|b| < 1 + w + rem || Legal(b[1 + w + rem..]))
  }

  /** The next packet of a legal stream is never too large, and what waits for more is short. */
  lemma LegalHead(b: Bytes)
    requires b != [] && Legal(b)
    ensures !ParseHead(b).TooLarge?
    ensures ParseHead(b).More? ==> |b| <= MAX_PACKET + 4
    ensures ParseHead(b).Took? ==> Legal(b[ParseHead(b).size..])
  {
    var d := DecodeRem(b, 1, 4);
    if d.Some? && d.value.0 <= MAX_PACKET && 1 + d.value.1 + d.value.0 <= |b| {
      assert Legal(b[1 + d.value.1 + d.value.0..]);
    }
  }

  lemma {:induction false} LegalTail(b: Bytes)
    requires Legal(b)
    ensures !Frame(b).bad && |Frame(b).tail| <= MAX_PACKET + 4
    decreases |b|
  {
    if b != [] {
      LegalHead(b);
      if ParseHead(b).Took? {
        FrameTook(b);
        LegalTail(b[ParseHead(b).size..]);
      }
    }
  }

  /** Cutting a legal stream behind its first packet. */
  lemma LegalPacket(a: Bytes, x: Bytes, n: nat)
    requires a != [] && Legal(a + x) && ParseHead(a).Took? && n == ParseHead(a).size
    ensures Legal(a[n..] + x)
    ensures Legal(a[n..]) ==> Legal(a)
  {
    ParseHeadExtends(a, x);
    LegalHead(a + x);
    DropOfConcat(a, x, n);
  }

  /** Where a packet is cut. */
  lemma LegalPart(a: Bytes, x: Bytes)
    requires a != [] && Legal(a + x) && !ParseHead(a).Took?
    ensures Legal(a) && ParseHead(a).More?
  {
    DecodeRemExtends(a, x, 1, 4);
  }

  lemma {:induction false} LegalCut(a: Bytes, x: Bytes)
    requires Legal(a + x)
    ensures Legal(a) && Legal(Frame(a).tail + x)
    decreases |a|
  {
    if a == [] {
      assert a + x == x;
    } else if ParseHead(a).Took? {
      var n := ParseHead(a).size;
      LegalPacket(a, x, n);
      FrameTook(a);
      LegalCut(a[n..], x);
    } else {
      LegalPart(a, x);
      FrameStops(a);
    }
  }

  datatype Fed = Closed | Open(pkts: seq<Packet>, tail: Bytes)

  /** A run of `drain_client` calls, one per chunk read from the socket. */
  function Feed(tail: Bytes, chunks: seq<Bytes>): (r: Fed)
    decreases |chunks|
  {
    if chunks == [] then Open([], tail)
    else
      var buf := tail + chunks[0];
      if |buf| > READ_CAP || Frame(buf).bad then Closed
      else
        match Feed(Frame(buf).tail, chunks[1..])
        case Closed => Closed
        case Open(pkts, last) => Open(Frame(buf).pkts + pkts, last)
  }

  /**
   However a legal stream is cut into reads, the connection stays open and the packets
   handled are those of the whole stream.
   */
  lemma {:induction false} LegalStreamIsNeverClosed(tail: Bytes, chunks: seq<Bytes>)
    requires |tail| <= MAX_PACKET + 4 && Frame(tail) == Framed([], tail, false)
    requires forall i :: 0 <= i < |chunks| ==> |chunks[i]| <= READ_CHUNK
    requires Legal(tail + Flatten(chunks))
    ensures var whole := Frame(tail + Flatten(chunks));
      Feed(tail, chunks) == Open(whole.pkts, whole.tail)
    decreases |chunks|
  {
    if chunks == [] {
      assert tail + Flatten(chunks) == tail;
    } else {
      var buf, rest := tail + chunks[0], Flatten(chunks[1..]);
      assert tail + Flatten(chunks) == buf + rest;
      LegalCut(buf, rest);
      LegalTail(buf);
      FrameCut(buf, rest);
      TailHasNoPacket(buf);
      LegalStreamIsNeverClosed(Frame(buf).tail, chunks[1..]);
    }
  }

  lemma {:induction false} TailHasNoPacket(b: Bytes)
    requires !Frame(b).bad
    ensures Frame(Frame(b).tail) == Framed([], Frame(b).tail, false)
    decreases |b|
  {
    if b != [] && ParseHead(b).Took? {
      TailHasNoPacket(b[ParseHead(b).size..]);
    }
  }
}
