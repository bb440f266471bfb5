/** What each packet of a client does to the broker, and what the client reads in answer to it. */
module Answering {
  import opened Bytes
  import opened FanOut
  import opened BrokerModel
  import opened Forwarding
  import opened Subscribing
  import Sessions
  import Framing
  import Outbox
  import Wire
  import Connection

  /**
   The connection, with one more packet at the end of its queue, if there was room for it. A client
   that reads the packet frames it as just this type, flags and body.
   */
  ghost predicate Replies(c: Connection.State, c': Connection.State, ptype: nat, flags: nat, body: Bytes) {
    exists pkt :: IsRead(pkt, ptype, flags, body) && c' == Queues(c, pkt)
  }

  predicate IsRead(pkt: Bytes, ptype: nat, flags: nat, body: Bytes) {
    Framing.Frame(pkt) == Framing.Framed([Framing.Packet(ptype, flags, body)], [], false)
  }

  function Queues(c: Connection.State, pkt: Bytes): (c': Connection.State) {
    if |c.out.queue| < Outbox.WRITE_QUEUE_CAP then
      c.(out := c.out.(queue := c.out.queue + [Outbox.Queued(false, pkt)]))
    else c
  }

  lemma ReplyIsRead(c: Connection.State, pkt: Bytes, ptype: nat, flags: nat, body: Bytes)
    requires IsRead(pkt, ptype, flags, body)
    ensures Replies(c, c.(out := Outbox.OfferOrDrop(c.out, pkt)), ptype, flags, body)
  {
    assert c.(out := Outbox.OfferOrDrop(c.out, pkt)) == Queues(c, pkt);
  }

  // ---- PUBLISH

  /**
   A PUBLISH that parses is published, and counted, unless it is a QoS 2 repetition; at QoS 0 as
   well, on either path, and also when its sender is gone by then. Before that, QoS 1 is answered
   with a PUBACK and QoS 2 with a PUBREC for the id of the message. `c` is the sender once it has
   its answer.
   */
  lemma PublishIsTaken(s: State, token: nat, flags: nat, body: Bytes, p: Wire.Publish) returns (c: Connection.State)
    requires Wire.ParsePublish(flags, body) == Some(p) && (p.qos == 1 || p.qos == 2 ==> token in s.clients)
    ensures p.pid.Some? <==> p.qos > 0
    ensures p.qos == 1 ==> Replies(s.clients[token], c, Wire.PUBACK, 0, Be16(p.pid.value))
    ensures p.qos == 2 ==>
      var was := s.clients[token];
      Replies(was.(received := was.received + {p.pid.value}), c, Wire.PUBREC, 0, Be16(p.pid.value))
    ensures var answered := if p.qos == 1 || p.qos == 2 then s.(clients := s.clients[token := c]) else s;
      PublishArm(s, token, flags, body) == Fine(
        if p.qos == 2 && p.pid.value in s.clients[token].received then answered
        else Publish(answered, Message(p.topic, p.payload, p.qos), p.retain).(received := s.received + 1))
  {
    c := SenderAnswered(s, token, flags, body, p);
    ParsedIsTaken(s, token, flags, body, p);
    TakenOnAnswer(s, token, p, c);
  }

  /** The sender once its PUBLISH is answered. */
  lemma SenderAnswered(s: State, token: nat, flags: nat, body: Bytes, p: Wire.Publish) returns (c: Connection.State)
    requires Wire.ParsePublish(flags, body) == Some(p) && (p.qos == 1 || p.qos == 2 ==> token in s.clients)
    ensures p.pid.Some? <==> p.qos > 0
    ensures p.qos == 1 || p.qos == 2 ==> c == Connection.Answer(s.clients[token], p.qos, p.pid.value).0
    ensures p.qos == 1 ==> Replies(s.clients[token], c, Wire.PUBACK, 0, Be16(p.pid.value))
    ensures p.qos == 2 ==>
      var was := s.clients[token];
      Replies(was.(received := was.received + {p.pid.value}), c, Wire.PUBREC, 0, Be16(p.pid.value))
  {
    c := Connection.FRESH;
    if p.qos > 0 {
      Wire.PidOnlyAgrees(flags, body);
      PidIsShort(body);
    }
    if p.qos == 1 || p.qos == 2 {
      var pid, was := p.pid.value, s.clients[token];
      c := Connection.Answer(was, p.qos, pid).0;
      Framing.AcksAreRead(Wire.PUBACK, pid, false);
      Framing.AcksAreRead(Wire.PUBREC, pid, false);
      ReplyIsRead(was, Wire.BuildAck(Wire.PUBACK, pid), Wire.PUBACK, 0, Be16(pid));
      ReplyIsRead(was.(received := was.received + {pid}), Wire.BuildAck(Wire.PUBREC, pid), Wire.PUBREC, 0, Be16(pid));
    }
  }

  /** Both paths do the same. */
  lemma ParsedIsTaken(s: State, token: nat, flags: nat, body: Bytes, p: Wire.Publish)
    requires Wire.ParsePublish(flags, body) == Some(p) && CanAnswer(s.clients, token, p.qos)
    ensures PublishArm(s, token, flags, body) == Fine(TakePublish(s, token, p))
  {
    if NoRouting(s, flags) {
      FastPathRefines(s, token, flags, body);
    }
  }

  lemma TakenOnAnswer(s: State, token: nat, p: Wire.Publish, c: Connection.State)
    requires p.pid.Some? <==> p.qos > 0
    requires p.qos == 1 || p.qos == 2 ==>
      token in s.clients && c == Connection.Answer(s.clients[token], p.qos, p.pid.value).0
    ensures CanAnswer(s.clients, token, p.qos)
    ensures var answered := if p.qos == 1 || p.qos == 2 then s.(clients := s.clients[token := c]) else s;
      TakePublish(s, token, p) ==
        if p.qos == 2 && p.pid.value in s.clients[token].received then answered
        else Publish(answered, Message(p.topic, p.payload, p.qos), p.retain).(received := s.received + 1)
  {
    assert s == s.(clients := s.clients);
  }

  lemma PidIsShort(body: Bytes)
    requires Wire.ParsePidOnly(body).Some?
    ensures Wire.ParsePidOnly(body).value <= U16_MAX
  {
  }

  /** A PUBLISH that does not parse is an error, unless it is at QoS 0 or 3 and nobody could receive it. */
  lemma BadPublishIsRefused(s: State, token: nat, flags: nat, body: Bytes)
    requires Wire.ParsePublish(flags, body).None?
    ensures PublishArm(s, token, flags, body) ==
      if Wire.QosOf(flags) !in {1, 2} && flags % 2 == 0 && s.subs == [] && s.sessions == map[]
      then Fine(s.(received := s.received + 1)) else Error(s)
  {
    if Wire.QosOf(flags) > 0 {
      Wire.PidOnlyAgrees(flags, body);
    }
  }

  // ---- Acknowledgements

  /** Nothing but the window changes, and there nothing but this entry. */
  ghost predicate SameButEntry(c: Connection.State, c': Connection.State, pid: nat) {
    && c' == c.(inFlight := c'.inFlight)
    && forall p :: p != pid ==>
         (p in c'.inFlight <==> p in c.inFlight) && (p in c'.inFlight ==> c'.inFlight[p] == c.inFlight[p])
  }

  /** PUBACK and PUBCOMP end the entry with their id, and touch nothing else. */
  lemma AckEndsItsEntry(s: State, token: nat, ptype: nat, body: Bytes)
    requires token in s.clients && (ptype == Wire.PUBACK || ptype == Wire.PUBCOMP) && |body| >= 2
    ensures var r, pid := AckArm(s, token, ptype, body), FromBe16(body[0], body[1]);
      && r.Fine? && token in r.s.clients && r.s == s.(clients := s.clients[token := r.s.clients[token]])
      && SameButEntry(s.clients[token], r.s.clients[token], pid)
      && pid !in r.s.clients[token].inFlight
  {
  }

  /**
   PUBREC moves a QoS 2 entry that is waiting for it on to waiting for its PUBCOMP, with no retry
   counted, and is answered with a PUBREL for the same id; anything else it ignores.
   */
  lemma PubrecAdvances(s: State, token: nat, body: Bytes) returns (c: Connection.State)
    requires token in s.clients && |body| >= 2
    ensures var pid, was := FromBe16(body[0], body[1]), s.clients[token];
      if pid in was.inFlight && was.inFlight[pid].qos2 && !was.inFlight[pid].awaitPubcomp then
        var r := AckArm(s, token, Wire.PUBREC, body);
        && SameButEntry(was, c, pid) && pid in c.inFlight
        && c.inFlight[pid] == Connection.InFlight(was.inFlight[pid].pkt, 0, true, true)
        && r.Fine? && token in r.s.clients && r.s == s.(clients := s.clients[token := r.s.clients[token]])
        && Replies(c, r.s.clients[token], Wire.PUBREL, 2, Be16(pid))
      else AckArm(s, token, Wire.PUBREC, body) == Fine(s)
  {
    var pid, was := FromBe16(body[0], body[1]), s.clients[token];
    c := was;
    if Connection.AwaitsPubrec(was, pid) {
      c := was.(inFlight := was.inFlight[pid := was.inFlight[pid].(awaitPubcomp := true, retries := 0)]);
      Framing.AcksAreRead(Wire.PUBREL, pid, false);
      ReplyIsRead(c, Wire.BuildPubrel(pid, false), Wire.PUBREL, 2, Be16(pid));
    } else {
      assert s.clients[token := was] == s.clients;
    }
  }

  /** PUBREL forgets the id, so that it is new again, and is answered with a PUBCOMP. */
  lemma PubrelReleases(s: State, token: nat, body: Bytes)
    requires token in s.clients && |body| >= 2
    ensures var r, pid, was := AckArm(s, token, Wire.PUBREL, body), FromBe16(body[0], body[1]), s.clients[token];
      && r.Fine? && token in r.s.clients && r.s == s.(clients := s.clients[token := r.s.clients[token]])
      && Replies(was.(received := was.received - {pid}), r.s.clients[token], Wire.PUBCOMP, 0, Be16(pid))
  {
    var pid, was := FromBe16(body[0], body[1]), s.clients[token];
    Framing.AcksAreRead(Wire.PUBCOMP, pid, false);
    ReplyIsRead(was.(received := was.received - {pid}), Wire.BuildAck(Wire.PUBCOMP, pid), Wire.PUBCOMP, 0, Be16(pid));
  }

  // ---- SUBSCRIBE, UNSUBSCRIBE, PINGREQ, DISCONNECT

  /** A SUBACK tells the QoS of each filter, in order; it can be read up to 125 of them. */
  lemma SubackTellsGrants(pid: nat, wishes: seq<Wish>)
    requires |wishes| <= 125
    ensures var f := Framing.Frame(Wire.BuildSuback(pid, Grants(wishes)));
      && |f.pkts| == 1 && f.tail == [] && !f.bad && f.pkts[0].ptype == Wire.SUBACK && f.pkts[0].flags == 0
      && var b := f.pkts[0].body;
      && |b| == 2 + |wishes| && b[..2] == Be16(pid)
      && forall i :: 0 <= i < |wishes| ==> b[2 + i] == wishes[i].qos
  {
    var b := Be16(pid) + Wire.GrantBytes(Grants(wishes));
    Framing.SubackIsReadExactly(
      pid, Grants(wishes), Wire.BuildSuback(pid, Grants(wishes)), Framing.Packet(Wire.SUBACK, 0, b));
    assert b[..2] == Be16(pid);
  }

  /** UNSUBSCRIBE takes away exactly the client's own subscriptions with these filters, and is answered. */
  lemma UnsubscribeTakesExactly(s: State, token: nat, pid: nat, filters: seq<Bytes>)
    requires token in s.clients && pid <= U16_MAX
    ensures var r := UnsubscribeArm(s, token, pid, filters);
      && r.Fine? && token in r.s.clients
      && r.s == s.(clients := s.clients[token := r.s.clients[token]], subs := r.s.subs)
      && Replies(s.clients[token], r.s.clients[token], Wire.UNSUBACK, 0, Be16(pid))
      && (forall x :: Count(r.s.subs, x) == if x.token == token && x.filter in filters then 0 else Count(s.subs, x))
      && IsSubsequence(r.s.subs, s.subs)
  {
    Framing.AcksAreRead(Wire.UNSUBACK, pid, false);
    ReplyIsRead(s.clients[token], Wire.BuildAck(Wire.UNSUBACK, pid), Wire.UNSUBACK, 0, Be16(pid));
    UnsubscribedMeaning(s.subs, token, filters);
  }

  lemma PingIsAnswered(s: State, token: nat)
    requires token in s.clients
    ensures var r := PingArm(s, token);
      && r.Fine? && token in r.s.clients && r.s == s.(clients := s.clients[token := r.s.clients[token]])
      && Replies(s.clients[token], r.s.clients[token], Wire.PINGRESP, 0, [])
  {
    Framing.PlainRepliesAreRead();
    ReplyIsRead(s.clients[token], Wire.BuildPingresp(), Wire.PINGRESP, 0, []);
  }

  /** DISCONNECT is no error of the client, but the broker ends the connection as for one. */
  lemma DisconnectEnds(s: State, token: nat)
    requires token in s.clients
    ensures LeaveArm(s, token) == Error(s.(clients := s.clients[token := s.clients[token].(cleanDisconnect := true)]))
  {
  }

  // ---- CONNECT

  /** The stored messages are sent until one fails. */
  lemma {:induction false} ResendGives(
    cs: map<nat, Connection.State>, token: nat, subs: seq<Wish>, queue: seq<Message>)
    requires token in cs && Connection.Valid(cs[token])
    ensures var (cs', ok) := Resend(cs, token, subs, queue);
      GivesInTurn(cs, cs', token, Sessions.Resent(subs, queue), ok, false)
    decreases |queue|
  {
    if queue == [] {
      GivesNothing(cs, token, false);
    } else {
      var m, rest := queue[0].(qos := ResendQoS(subs, queue[0])), Sessions.Resent(subs, queue[1..]);
      Sessions.ResentHead(subs, queue);
      var (cs1, ok) := Send(cs, token, m.topic, m.payload, m.qos, false);
      SendGivesOne(cs, token, m, false);
      var (cs2, ok2) := if ok then Resend(cs1, token, subs, queue[1..]) else (cs1, false);
      if ok {
        ResendGives(cs1, token, subs, queue[1..]);
      }
      GivesOneMore(cs, cs1, cs2, token, m, rest, ok, ok2, false);
    }
  }

  /**
   CONNECT records the client id, the session flag and the will, and answers with a CONNACK. A clean
   session, or one that is not stored, then leaves nothing stored for the client id. A stored one
   is taken up if the connection has room for its messages: it then has its subscriptions, at
   their QoS and in their order, and its messages, each at the lower of its QoS and that of the first
   stored filter that matches; and the store has forgotten it. Otherwise the store keeps it.
   `c` is the connection once it has its CONNACK.
   */
  lemma ConnectTakesUp(s: State, token: nat, h: Hello) returns (c: Connection.State)
    requires token in s.clients && Connection.Valid(s.clients[token])
    ensures var was := s.clients[token].(clientId := h.clientId, cleanSession := h.cleanSession, will := h.will);
      Replies(was, c, Wire.CONNACK, 0, [0, 0]) && c == Greeted(s.clients[token], h)
    ensures var r := ConnectArm(s, token, h);
      if h.cleanSession || h.clientId !in s.sessions then
        r == Fine(s.(clients := s.clients[token := c], sessions := s.sessions - {h.clientId}))
      else
        var stored := s.sessions[h.clientId];
        var ms := Sessions.Resent(stored.subs, stored.offline);
        && !r.Panic? && (r.Fine? <==> HasRoomFor(c, ms))
        && r.s == s.(clients := r.s.clients, subs := r.s.subs, sessions := r.s.sessions)
        && SameElsewhere(s.clients, r.s.clients, token)
        && IsRestored(s.subs, r.s.subs, stored.subs, token)
        && (r.Fine? ==> token in r.s.clients && Took(c, r.s.clients[token], ms, false))
        && r.s.sessions == if r.Fine? then s.sessions - {h.clientId} else s.sessions
  {
    c := Greeted(s.clients[token], h);
    GreetedReplies(s.clients[token], h);
    if !h.cleanSession && h.clientId in s.sessions {
      StoredIsTakenUp(s, token, h, c);
    }
  }

  lemma GreetedReplies(c: Connection.State, h: Hello)
    ensures Replies(c.(clientId := h.clientId, cleanSession := h.cleanSession, will := h.will), Greeted(c, h),
                    Wire.CONNACK, 0, [0, 0])
    ensures Connection.Valid(c) ==> Connection.Valid(Greeted(c, h))
  {
    var told := c.(clientId := h.clientId, cleanSession := h.cleanSession, will := h.will);
    Framing.PlainRepliesAreRead();
    ReplyIsRead(told, Wire.BuildConnack(), Wire.CONNACK, 0, [0, 0]);
    Connection.OfferKeepsBoundsIfValid(told, Wire.BuildConnack());
  }

  lemma StoredIsTakenUp(s: State, token: nat, h: Hello, c: Connection.State)
    requires token in s.clients && Connection.Valid(c) && c == Greeted(s.clients[token], h)
    requires !h.cleanSession && h.clientId in s.sessions
    ensures var (s', ok) := Connect(s, token, h);
      var stored := s.sessions[h.clientId];
      var ms := Sessions.Resent(stored.subs, stored.offline);
      && (ok <==> HasRoomFor(c, ms))
      && s' == s.(clients := s'.clients, subs := s'.subs, sessions := s'.sessions)
      && SameElsewhere(s.clients, s'.clients, token)
      && IsRestored(s.subs, s'.subs, stored.subs, token)
      && (ok ==> token in s'.clients && Took(c, s'.clients[token], ms, false))
      && s'.sessions == if ok then s.sessions - {h.clientId} else s.sessions
  {
    var stored, cs := s.sessions[h.clientId], s.clients[token := c];
    ResendGives(cs, token, stored.subs, stored.offline);
    RestoredMeaning(s.subs, stored.subs, token);
    var (cs', ok) := Resend(cs, token, stored.subs, stored.offline);
    OneElseSame(s.clients, token, c, cs');
  }

  lemma OneElseSame(cs: map<nat, Connection.State>, token: nat, c: Connection.State, cs': map<nat, Connection.State>)
    requires SameElsewhere(cs[token := c], cs', token)
    ensures SameElsewhere(cs, cs', token)
  {
  }

  // ---- Which packets end a connection

  /** The packet is one for which the caller drops the connection. */
  ghost predicate EndsIt(s: State, token: nat, p: Parsed, orders: seq<seq<Bytes>>)
    requires token in s.clients
    requires p.SubscribePacket? ==> AreRetainedOrders(s.retained, p.wishes, orders)
  {
    || p.DisconnectPacket? || p.BadPacket?
    || (p.ConnectPacket? && !p.h.cleanSession && p.h.clientId in s.sessions
        && !HasRoomFor(Greeted(s.clients[token], p.h), StoredFor(s, p.h)))
    || (p.SubscribePacket? && !HasRoomFor(s.clients[token], DueAll(s.retained, p.wishes, orders)))
    || (p.PublishPacket? && Wire.ParsePublish(p.flags, p.body).None?
        && !(Wire.QosOf(p.flags) !in {1, 2} && p.flags % 2 == 0 && s.subs == [] && s.sessions == map[]))
    || (p.AckPacket? && (!(4 <= p.ptype <= 7) || |p.body| < 2))
  }

  ghost function StoredFor(s: State, h: Hello): (ms: seq<Message>)
    requires h.clientId in s.sessions
  {
    Sessions.Resent(s.sessions[h.clientId].subs, s.sessions[h.clientId].offline)
  }

  /**
   A packet of a connection that is there never makes the broker panic. It ends the connection
   exactly if it is DISCONNECT; malformed, or of an unknown type; or a CONNECT or a SUBSCRIBE whose
   messages do not fit. A malformed PUBLISH at QoS 0 or 3 that nobody could receive does not.
   */
  lemma PacketsThatEnd(s: State, token: nat, p: Parsed, orders: seq<seq<Bytes>>)
    requires token in s.clients && Connection.Valid(s.clients[token])
    requires p.SubscribePacket? ==> AreRetainedOrders(s.retained, p.wishes, orders)
    ensures !Handle(s, token, p, orders).Panic?
    ensures Handle(s, token, p, orders).Error? <==> EndsIt(s, token, p, orders)
  {
    match p
    case ConnectPacket(h) => ConnectEndsIt(s, token, h);
    case SubscribePacket(pid, wishes) => SubscribeEndsIt(s, token, pid, wishes, orders);
    case PublishPacket(flags, body) => PublishEndsIt(s, token, flags, body);
    case _ =>
  }

  lemma ConnectEndsIt(s: State, token: nat, h: Hello)
    requires token in s.clients && Connection.Valid(s.clients[token])
    ensures var r := ConnectArm(s, token, h);
      && !r.Panic?
      && (r.Error? <==>
            && !h.cleanSession && h.clientId in s.sessions
            && !HasRoomFor(Greeted(s.clients[token], h), StoredFor(s, h)))
  {
    var _ := ConnectTakesUp(s, token, h);
  }

  lemma SubscribeEndsIt(s: State, token: nat, pid: nat, wishes: seq<Wish>, orders: seq<seq<Bytes>>)
    requires token in s.clients && Connection.Valid(s.clients[token]) && AreRetainedOrders(s.retained, wishes, orders)
    ensures var r := SubscribeArm(s, token, pid, wishes, orders);
      !r.Panic? && (r.Error? <==> !HasRoomFor(s.clients[token], DueAll(s.retained, wishes, orders)))
  {
    SubscribeAnswers(s, token, pid, wishes, orders);
  }

  lemma PublishEndsIt(s: State, token: nat, flags: nat, body: Bytes)
    requires token in s.clients
    ensures var r := PublishArm(s, token, flags, body);
      && !r.Panic?
      && (r.Error? <==>
            && Wire.ParsePublish(flags, body).None?
            && !(Wire.QosOf(flags) !in {1, 2} && flags % 2 == 0 && s.subs == [] && s.sessions == map[]))
  {
    var p := Wire.ParsePublish(flags, body);
    if p.None? {
      BadPublishIsRefused(s, token, flags, body);
    } else {
      ParsedIsTaken(s, token, flags, body, p.value);
    }
  }
}
