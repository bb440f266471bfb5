/**
 What a connection keeps from event to event: each entry in flight until its own acknowledgement,
 and what its CONNECT said until the next one.
 */
module Keeping {
  import opened Bytes
  import opened FanOut
  import opened BrokerModel
  import opened Serving
  import opened Runs
  import opened Leftovers
  import opened Forwarding
  import opened Answering
  import Inbound
  import Framing
  import Outbox
  import Wire
  import Connection

  /** The event is a PUBACK or a PUBCOMP for this entry, on its own connection. */
  predicate IsAckFor(ev: Event, e: Slot) {
    ev.Acking? && ev.token == e.token && (ev.ptype == Wire.PUBACK || ev.ptype == Wire.PUBCOMP)
    && |ev.body| >= 2 && FromBe16(ev.body[0], ev.body[1]) == e.pid
  }

  predicate SameGreeting(c: Connection.State, c': Connection.State) {
    c'.will == c.will && c'.clientId == c.clientId && c'.cleanSession == c.cleanSession
  }

  /** Nothing in flight is given up, and what CONNECT said is as before. */
  ghost predicate Undisturbed(c: Connection.State, c': Connection.State) {
    && SameGreeting(c, c') && c'.cleanDisconnect == c.cleanDisconnect
    && forall pid :: pid in c.inFlight ==> pid in c'.inFlight
  }

  ghost predicate UndisturbedIn(cs: map<nat, Connection.State>, cs': map<nat, Connection.State>, token: nat) {
    token in cs && token in cs' ==> Undisturbed(cs[token], cs'[token])
  }

  lemma ServedIsUndisturbed(cs: map<nat, Connection.State>, cs': map<nat, Connection.State>, token: nat)
    requires Served(cs, cs')
    ensures UndisturbedIn(cs, cs', token)
  {
    if token in cs' {
      assert Kept(cs[token], cs'[token]);
    }
  }

  lemma PublishingUndisturbed(s: State, t: nat, flags: nat, body: Bytes, token: nat)
    requires CanAnswer(s.clients, t, Wire.QosOf(flags)) && HandlePublish(s, t, flags, body).Some?
    ensures UndisturbedIn(s.clients, HandlePublish(s, t, flags, body).value.clients, token)
  {
    var answered, after := Inbound.Answered(s, t, flags, body), HandlePublish(s, t, flags, body).value.clients;
    Inbound.PublishThenServed(s, t, flags, body);
    ServedIsUndisturbed(answered, after, token);
  }

  lemma PublishArmUndisturbed(s: State, t: nat, flags: nat, body: Bytes, token: nat)
    ensures var r := PublishArm(s, t, flags, body); !r.Panic? ==> UndisturbedIn(s.clients, r.s.clients, token)
  {
    if CanAnswer(s.clients, t, Wire.QosOf(flags)) && HandlePublish(s, t, flags, body).Some? {
      PublishingUndisturbed(s, t, flags, body, token);
    }
  }

  lemma SubscribeArmUndisturbed(s: State, t: nat, pid: nat, wishes: seq<Wish>, orders: seq<seq<Bytes>>, token: nat)
    requires AreRetainedOrders(s.retained, wishes, orders)
    ensures var r := SubscribeArm(s, t, pid, wishes, orders); !r.Panic? ==> UndisturbedIn(s.clients, r.s.clients, token)
  {
    SubscribeServes(s, t, pid, wishes, orders);
    SubscribeAllServes(s, t, wishes, orders);
    ServedIsUndisturbed(s.clients, Subscribe(s, t, pid, wishes, orders).0.clients, token);
    ServedIsUndisturbed(s.clients, SubscribeAll(s, t, wishes, orders).0.clients, token);
  }

  lemma ConnectUndisturbed(s: State, t: nat, h: Hello, token: nat)
    requires t in s.clients
    ensures var cs := Connect(s, t, h).0.clients;
      && (token in cs ==> token in s.clients)
      && (token in cs ==>
            if t == token then
              && cs[token].will == h.will
              && cs[token].clientId == h.clientId && cs[token].cleanSession == h.cleanSession
              && cs[token].cleanDisconnect == s.clients[token].cleanDisconnect
              && forall pid :: pid in s.clients[token].inFlight ==> pid in cs[token].inFlight
            else Undisturbed(s.clients[token], cs[token]))
  {
    var greeted := s.clients[t := Greeted(s.clients[t], h)];
    if !h.cleanSession && h.clientId in s.sessions {
      var stored := s.sessions[h.clientId];
      ResendServes(greeted, t, stored.subs, stored.offline);
      ServedIsUndisturbed(greeted, Connect(s, t, h).0.clients, token);
    }
  }

  /** Acknowledgements touch their own connection; only PUBACK and PUBCOMP end an entry, and only their own. */
  lemma AckArmKeeps(s: State, t: nat, ptype: nat, body: Bytes, e: Slot)
    requires Wire.PUBACK <= ptype <= Wire.PUBCOMP && e.token in s.clients && !AckArm(s, t, ptype, body).Panic?
    ensures var c, cs := s.clients[e.token], AckArm(s, t, ptype, body).s.clients;
      && e.token in cs && SameGreeting(c, cs[e.token]) && cs[e.token].cleanDisconnect == c.cleanDisconnect
      && (e.pid in c.inFlight ==> (e.pid in cs[e.token].inFlight <==> !IsAckFor(Acking(t, ptype, body), e)))
  {
  }

  lemma QuietKeeps(y: Sys, ev: Event, e: Slot, y': Sys)
    requires Quiet(ev) && QuietStep(y, ev) == Some(y') && InFlightAt(y.s.clients, e) && e.token in y'.s.clients
    ensures InFlightAt(y'.s.clients, e) <==> !IsAckFor(ev, e)
  {
    match ev
    case Greeting(t, h) => ConnectUndisturbed(y.s, t, h, e.token);
    case Subscribing(t, pid, wishes, orders) => SubscribeArmUndisturbed(y.s, t, pid, wishes, orders, e.token);
    case Unsubscribing(_, _, _) =>
    case Publishing(t, flags, body) => PublishArmUndisturbed(y.s, t, flags, body, e.token);
    case Acking(t, ptype, body) => AckArmKeeps(y.s, t, ptype, body, e);
    case Pinging(_) =>
    case Announcing(m) =>
      PublishServes(y.s, m, true);
      ServedIsUndisturbed(y.s.clients, y'.s.clients, e.token);
  }

  lemma QuietKeepsGreeting(y: Sys, ev: Event, token: nat, y': Sys)
    requires Quiet(ev) && QuietStep(y, ev) == Some(y') && token in y.s.clients && token in y'.s.clients
    requires !(ev.Greeting? && ev.token == token)
    ensures SameGreeting(y.s.clients[token], y'.s.clients[token])
    ensures y'.s.clients[token].cleanDisconnect == y.s.clients[token].cleanDisconnect
  {
    match ev
    case Greeting(t, h) => ConnectUndisturbed(y.s, t, h, token);
    case Subscribing(t, pid, wishes, orders) => SubscribeArmUndisturbed(y.s, t, pid, wishes, orders, token);
    case Unsubscribing(_, _, _) =>
    case Publishing(t, flags, body) => PublishArmUndisturbed(y.s, t, flags, body, token);
    case Acking(t, ptype, body) => AckArmKeeps(y.s, t, ptype, body, Slot(token, 0));
    case Pinging(_) =>
    case Announcing(m) =>
      PublishServes(y.s, m, true);
      ServedIsUndisturbed(y.s.clients, y'.s.clients, token);
  }

  lemma RemovingUndisturbed(y: Sys, ev: Event, token: nat, y': Sys)
    requires Removing(ev) && LoudStep(y, ev) == Some(y')
    ensures UndisturbedIn(y.s.clients, y'.s.clients, token)
  {
    var _ := RemovingServes(y, ev, y');
    ServedIsUndisturbed(y.s.clients, y'.s.clients, token);
  }

  lemma RetryUndisturbed(s: State, d: DueAt, token: nat)
    ensures var r := ApplyRetry(s, d); r.Some? ==> UndisturbedIn(s.clients, r.value.clients, token)
  {
    if d.token !in s.clients || Connection.Retry(s.clients[d.token], d.pid, d.pkt).None? {
      RefusedRetryServes(s, d);
      if ApplyRetry(s, d).Some? {
        ServedIsUndisturbed(s.clients, ApplyRetry(s, d).value.clients, token);
      }
    }
  }

  /** No other event than a packet of its own disturbs a connection; DISCONNECT only marks it. */
  lemma LoudKeeps(y: Sys, ev: Event, token: nat, y': Sys)
    requires Healthy(y.s) && !Quiet(ev) && LoudStep(y, ev) == Some(y') && token in y.s.clients && token in y'.s.clients
    ensures var c, c' := y.s.clients[token], y'.s.clients[token];
      && SameGreeting(c, c') && (forall pid :: pid in c.inFlight ==> pid in c'.inFlight)
      && (!(ev.Leaving? && ev.token == token) ==> c'.cleanDisconnect == c.cleanDisconnect)
  {
    match ev
    case Dropping(_) => RemovingUndisturbed(y, ev, token, y');
    case Writing(_, _) => RemovingUndisturbed(y, ev, token, y');
    case NextGiveUp => RemovingUndisturbed(y, ev, token, y');
    case NextRetry => RetryUndisturbed(y.s, y.retry[0], token);
    case Accept => AcceptUndisturbed(y, token);
    case Leaving(t) => LeavingKeeps(y, t, token);
    case Tick(_, _, _) =>
  }

  lemma AcceptUndisturbed(y: Sys, token: nat)
    requires token in y.s.clients && token < y.s.nextToken
    ensures token in Accepted(y).s.clients && Accepted(y).s.clients[token] == y.s.clients[token]
  {
  }

  lemma LeavingKeeps(y: Sys, t: nat, token: nat)
    requires t in y.s.clients && token in y.s.clients
    ensures var c, c' := y.s.clients[token], Departed(y, t).s.clients[token];
      c' == if t == token then c.(cleanDisconnect := true) else c
  {
  }

  /**
   As long as the connection is there, an event takes an entry out of its window exactly if it is
   a PUBACK or a PUBCOMP with the entry's id on its own connection.
   */
  lemma OnlyItsAckEndsAnEntry(y: Sys, ev: Event, e: Slot, y': Sys)
    requires Inv(y) && Step(y, ev) == Some(y') && Alive(y, e) && e.token in y'.s.clients
    ensures Alive(y', e) <==> !IsAckFor(ev, e)
  {
    if Quiet(ev) {
      QuietKeeps(y, ev, e, y');
    } else {
      LoudKeeps(y, ev, e.token, y');
    }
  }

  /**
   Over every run in which its connection stays, an entry without such an acknowledgement is still
   in flight at the end, with the same message at the same QoS.
   */
  lemma {:induction false} EntryStaysUntilItsAck(y: Sys, events: seq<Event>, e: Slot)
    requires Inv(y) && Inbound.Stays(y, events, e.token) && Alive(y, e)
    requires forall i :: 0 <= i < |events| ==> !IsAckFor(events[i], e)
    ensures Inv(Run(y, events).value) && Alive(Run(y, events).value, e)
    ensures var f, f' := At(y, e), At(Run(y, events).value, e); f'.pkt == f.pkt && f'.qos2 == f.qos2
  {
    if events != [] {
      var front, last := events[..|events| - 1], events[|events| - 1];
      EntryStaysUntilItsAck(y, front, e);
      Inbound.RunSnoc(y, events);
      var y1 := Run(y, front).value;
      StepKeepsInv(y1, last);
      OnlyItsAckEndsAnEntry(y1, last, e, Run(y, events).value);
      EntryStep(y1, last, e);
    }
  }

  // ---- The will

  /** From one CONNECT to the next, and to its DISCONNECT, a connection keeps what CONNECT said. */
  lemma {:induction false} GreetingStays(y: Sys, events: seq<Event>, token: nat)
    requires Inv(y) && token in y.s.clients && Inbound.Stays(y, events, token)
    requires forall i :: 0 <= i < |events| ==>
      !((events[i].Greeting? || events[i].Leaving?) && events[i].token == token)
    ensures var c, y' := y.s.clients[token], Run(y, events).value;
      && Inv(y') && SameGreeting(c, y'.s.clients[token])
      && y'.s.clients[token].cleanDisconnect == c.cleanDisconnect
  {
    if events != [] {
      var front, last := events[..|events| - 1], events[|events| - 1];
      GreetingStays(y, front, token);
      Inbound.RunSnoc(y, events);
      var y1, y2 := Run(y, front).value, Run(y, events).value;
      StepKeepsInv(y1, last);
      if Quiet(last) {
        QuietKeepsGreeting(y1, last, token, y2);
      } else {
        LoudKeeps(y1, last, token, y2);
      }
    }
  }

  /**
   The will that a CONNECT brings is the one that is published when the connection is removed,
   whatever happens in between, unless the client sends another CONNECT or a DISCONNECT; and none
   is published if the CONNECT brought none.
   */
  lemma WillOfConnectIsPublished(y: Sys, token: nat, h: Hello, y1: Sys, events: seq<Event>, y2: Sys)
    requires Inv(y) && token in y.s.clients && !y.s.clients[token].cleanDisconnect
    requires Step(y, Greeting(token, h)) == Some(y1) && token in y1.s.clients
    requires Inbound.Stays(y1, events, token) && Run(y1, events) == Some(y2)
    requires forall i :: 0 <= i < |events| ==>
      !((events[i].Greeting? || events[i].Leaving?) && events[i].token == token)
    ensures AfterWill(y2.s, token) ==
      if h.will.None? then y2.s
      else Publish(y2.s, Message(h.will.value.topic, h.will.value.message, h.will.value.qos), h.will.value.retain)
  {
    StepKeepsInv(y, Greeting(token, h));
    GreetingSets(y, token, h, y1);
    GreetingStays(y1, events, token);
    WillDueMeaning(y2.s, token);
  }

  lemma GreetingSets(y: Sys, token: nat, h: Hello, y1: Sys)
    requires token in y.s.clients && Step(y, Greeting(token, h)) == Some(y1) && token in y1.s.clients
    ensures y1.s.clients[token].will == h.will
    ensures y1.s.clients[token].cleanDisconnect == y.s.clients[token].cleanDisconnect
  {
    ConnectUndisturbed(y.s, token, h, token);
  }

  // ---- Retransmissions

  /**
   The packet repeats the entry: the PUBREL of its id once it waits for its PUBCOMP, and before
   that its PUBLISH, the same but for the DUP flag.
   */
  ghost predicate Repeats(pkt: Bytes, pid: nat, f: Connection.InFlight) {
    if f.awaitPubcomp then IsRead(pkt, Wire.PUBREL, 10, Be16(pid))
    else exists m, retain :: RepeatsPublish(pkt, pid, f, m, retain)
  }

  ghost predicate RepeatsPublish(pkt: Bytes, pid: nat, f: Connection.InFlight, m: Message, retain: bool) {
    && m.qos > 0
    && f.pkt == Wire.BuildForward(m.topic, m.payload, m.qos, Some(pid), false, retain)
    && pkt == Wire.BuildForward(m.topic, m.payload, m.qos, Some(pid), true, retain)
  }

  lemma RetransmissionRepeats(pid: nat, f: Connection.InFlight)
    requires Connection.EntryValid(pid, f)
    ensures Repeats(Connection.Retransmission(pid, f), pid, f)
  {
    if f.awaitPubcomp {
      Framing.AcksAreRead(Wire.PUBREL, pid, true);
    } else {
      var topic, payload, qos: Wire.QoS, retain :|
        qos > 0 && f.qos2 == (qos == 2)
        && f.pkt == Wire.BuildForward(topic, payload, qos, Some(pid), false, retain);
      Connection.ForwardAgain(topic, payload, qos, pid, retain);
      assert RepeatsPublish(Connection.Retransmission(pid, f), pid, f, Message(topic, payload, qos), retain);
    }
  }

  /**
   What a tick decides to send again is sent: whatever comes between the tick and any entry of its
   list, a connection that is still there then gets the packet that repeats the entry as it was at
   the tick, as the last one of its queue, and the entry, if it is still in flight, is counted one
   retry; only a queue full of reliable packets refuses it, and then the client is removed.
   */
  lemma DecidedRetryIsSent(
    y: Sys, expired: set<Slot>, retry: seq<DueAt>, giveUp: seq<Slot>, y1: Sys, events: seq<Event>, y2: Sys, d: DueAt)
    requires Inv(y) && Step(y, Tick(expired, retry, giveUp)) == Some(y1)
    requires Run(y1, events) == Some(y2) && forall i :: 0 <= i < |events| ==> !events[i].Tick?
    requires y2.retry != [] && d == y2.retry[0] && d.token in y2.s.clients
    ensures Alive(y, SlotOf(d)) && Repeats(d.pkt, d.pid, At(y, SlotOf(d)))
    ensures LoudStep(y2, NextRetry) == Lift(y2.(retry := y2.retry[1..]), d.token, Again(y2.s, d))
  {
    TickMeaning(y, expired, retry, giveUp, y1);
    var k := RetryListRun(y1, events, y2);
    DueIsRepeat(y.s, expired, retry, giveUp, k, d);
    StepKeepsInv(y, Tick(expired, retry, giveUp));
    RunKeepsInv(y1, events);
    RetryApplied(y2.s, d);
    NextRetryMeaning(y2, d);
  }

  lemma DueIsRepeat(s: State, expired: set<Slot>, retry: seq<DueAt>, giveUp: seq<Slot>, k: nat, d: DueAt)
    requires Healthy(s) && IsRound(s.clients, expired, retry, giveUp)
    requires k <= |retry| && retry[k..] != [] && d == retry[k..][0]
    ensures InFlightAt(s.clients, SlotOf(d)) && Repeats(d.pkt, d.pid, s.clients[d.token].inFlight[d.pid])
  {
    assert d == retry[k] && d in retry;
    assert Connection.Valid(s.clients[d.token]);
    RetransmissionRepeats(d.pid, s.clients[d.token].inFlight[d.pid]);
  }
}
