/**
 The receiving side over whole runs: each QoS 2 message of a connection is published once, and
 each message at another QoS as often as it is sent.
 */
module Inbound {
  import opened Bytes
  import opened FanOut
  import opened BrokerModel
  import opened Serving
  import opened Runs
  import Answering
  import Wire
  import Connection

  /** The event is a well-formed QoS 2 PUBLISH with id `p` on this connection. */
  predicate IsPub(ev: Event, token: nat, p: nat) {
    ev.Publishing? && ev.token == token && Wire.QosOf(ev.flags) == 2 && Wire.ParsePidOnly(ev.body) == Some(p)
  }

  /** The event is a PUBREL with id `p` on this connection. */
  predicate IsRel(ev: Event, token: nat, p: nat) {
    ev.Acking? && ev.token == token && ev.ptype == Wire.PUBREL
    && |ev.body| >= 2 && FromBe16(ev.body[0], ev.body[1]) == p
  }

  /**
   Both paths agree on a QoS 2 PUBLISH: its message is published, and counted, exactly when its
   id is not waiting for a PUBREL; a repetition changes nothing but the answer queued.
   */
  lemma PublishQos2(s: State, token: nat, flags: nat, body: Bytes)
    requires token in s.clients && Wire.QosOf(flags) == 2 && Wire.ParsePidOnly(body).Some?
    ensures Wire.ParsePublish(flags, body).Some?
    ensures var p := Wire.ParsePidOnly(body).value;
      var c := Connection.Answer(s.clients[token], 2, p).0;
      HandlePublish(s, token, flags, body) ==
        Some(if p in s.clients[token].received then s.(clients := s.clients[token := c])
             else Arrived(s, s.clients[token := c], Wire.ParsePublish(flags, body).value))
  {
    Wire.PidOnlyAgrees(flags, body);
    if NoRouting(s, flags) {
      FastPathRefines(s, token, flags, body);
    }
  }

  lemma SameIsServed(cs: map<nat, Connection.State>)
    ensures Served(cs, cs)
  {
  }

  /** The connections once the answer of a PUBLISH is queued, on either path. */
  ghost function Answered(s: State, token: nat, flags: nat, body: Bytes): (cs: map<nat, Connection.State>)
    requires CanAnswer(s.clients, token, Wire.QosOf(flags))
  {
    var pid := Wire.ParsePidOnly(body);
    AnswerIn(s.clients, token, if pid.None? then 0 else Wire.QosOf(flags), if pid.None? then 0 else pid.value).0
  }

  /** Any PUBLISH is the answer on its own connection, and then deliveries. */
  lemma PublishThenServed(s: State, token: nat, flags: nat, body: Bytes)
    requires CanAnswer(s.clients, token, Wire.QosOf(flags)) && HandlePublish(s, token, flags, body).Some?
    ensures Served(Answered(s, token, flags, body), HandlePublish(s, token, flags, body).value.clients)
  {
    var cs, qos := Answered(s, token, flags, body), Wire.QosOf(flags);
    SameIsServed(cs);
    if !NoRouting(s, flags) {
      var m := Wire.ParsePublish(flags, body).value;
      if qos > 0 {
        Wire.PidOnlyAgrees(flags, body);
      }
      PublishServes(s.(clients := cs), Message(m.topic, m.payload, m.qos), m.retain);
    }
  }

  /** Whether the id waits for its PUBREL, before and after an event the connection survives. */
  predicate Waits(y: Sys, token: nat, p: nat)
    requires token in y.s.clients
  {
    p in y.s.clients[token].received
  }

  lemma KeptWaits(cs: map<nat, Connection.State>, cs': map<nat, Connection.State>, token: nat)
    requires Served(cs, cs') && token in cs'
    ensures cs'[token].received == cs[token].received
  {
    assert Kept(cs[token], cs'[token]);
  }

  lemma PublishingWaits(s: State, t: nat, flags: nat, body: Bytes, token: nat)
    requires CanAnswer(s.clients, t, Wire.QosOf(flags)) && token in s.clients
    requires HandlePublish(s, t, flags, body).Some? && token in HandlePublish(s, t, flags, body).value.clients
    ensures HandlePublish(s, t, flags, body).value.clients[token].received
      == Answered(s, t, flags, body)[token].received
  {
    PublishThenServed(s, t, flags, body);
    KeptWaits(Answered(s, t, flags, body), HandlePublish(s, t, flags, body).value.clients, token);
  }

  lemma ConnectWaits(s: State, t: nat, h: Hello, token: nat)
    requires t in s.clients && token in s.clients && token in Connect(s, t, h).0.clients
    ensures Connect(s, t, h).0.clients[token].received == s.clients[token].received
  {
    var greeted := s.clients[t := Greeted(s.clients[t], h)];
    if !h.cleanSession && h.clientId in s.sessions {
      var stored := s.sessions[h.clientId];
      ResendServes(greeted, t, stored.subs, stored.offline);
      KeptWaits(greeted, Connect(s, t, h).0.clients, token);
    }
  }

  lemma PacketWaits(y: Sys, ev: Event, token: nat, p: nat)
    requires Quiet(ev) && Step(y, ev).Some? && token in y.s.clients && token in Step(y, ev).value.s.clients
    ensures Waits(Step(y, ev).value, token, p) <==> IsPub(ev, token, p) || (Waits(y, token, p) && !IsRel(ev, token, p))
  {
    var s, s' := y.s, Step(y, ev).value.s;
    match ev
    case Publishing(t, flags, body) =>
      if CanAnswer(s.clients, t, Wire.QosOf(flags)) && HandlePublish(s, t, flags, body).Some? {
        PublishingWaits(s, t, flags, body, token);
      } else if t in s.clients && Wire.QosOf(flags) == 2 && Wire.ParsePidOnly(body).Some? {
        PublishQos2(s, t, flags, body);
      }
    case Acking(_, _, _) =>
    case Greeting(t, h) => ConnectWaits(s, t, h, token);
    case Subscribing(t, pid, wishes, orders) =>
      SubscribeServes(s, t, pid, wishes, orders);
      SubscribeAllServes(s, t, wishes, orders);
      KeptWaits(s.clients, s'.clients, token);
    case Unsubscribing(t, pid, filters) =>
    case Pinging(t) =>
    case Announcing(m) =>
      PublishServes(s, m, true);
      KeptWaits(s.clients, s'.clients, token);
  }

  /** An id starts to wait with a PUBLISH, stops with a PUBREL, and nothing else touches it. */
  lemma WaitsStep(y: Sys, ev: Event, token: nat, p: nat)
    requires Inv(y) && Step(y, ev).Some? && token in y.s.clients && token in Step(y, ev).value.s.clients
    ensures Waits(Step(y, ev).value, token, p) <==> IsPub(ev, token, p) || (Waits(y, token, p) && !IsRel(ev, token, p))
  {
    if Quiet(ev) {
      PacketWaits(y, ev, token, p);
    } else {
      OtherWaits(y, ev, token, Step(y, ev).value);
    }
  }

  lemma RemovingWaits(y: Sys, ev: Event, token: nat, y': Sys)
    requires Removing(ev) && LoudStep(y, ev) == Some(y') && token in y.s.clients && token in y'.s.clients
    ensures y'.s.clients[token].received == y.s.clients[token].received
  {
    var _ := RemovingServes(y, ev, y');
    KeptWaits(y.s.clients, y'.s.clients, token);
  }

  lemma RetryWaits(s: State, d: DueAt, token: nat)
    requires token in s.clients
    ensures var r := ApplyRetry(s, d);
      r.Some? && token in r.value.clients ==> r.value.clients[token].received == s.clients[token].received
  {
    if d.token !in s.clients || Connection.Retry(s.clients[d.token], d.pid, d.pkt).None? {
      RefusedRetryServes(s, d);
      if ApplyRetry(s, d).Some? && token in ApplyRetry(s, d).value.clients {
        KeptWaits(s.clients, ApplyRetry(s, d).value.clients, token);
      }
    }
  }

  lemma OtherWaits(y: Sys, ev: Event, token: nat, y': Sys)
    requires Healthy(y.s) && !Quiet(ev) && LoudStep(y, ev) == Some(y') && token in y.s.clients && token in y'.s.clients
    ensures y'.s.clients[token].received == y.s.clients[token].received
  {
    match ev
    case Dropping(_) => RemovingWaits(y, ev, token, y');
    case NextGiveUp => RemovingWaits(y, ev, token, y');
    case Writing(_, _) => RemovingWaits(y, ev, token, y');
    case NextRetry => RetryWaits(y.s, y.retry[0], token);
    case Accept => assert token < y.s.nextToken;
    case Leaving(t) => LeavingWaits(y, t, token);
    case Tick(_, _, _) =>
  }

  lemma LeavingWaits(y: Sys, t: nat, token: nat)
    requires t in y.s.clients && token in y.s.clients
    ensures Departed(y, t).s.clients[token].received == y.s.clients[token].received
  {
  }

  /** Some PUBLISH with the id has not been followed by its PUBREL. */
  ghost predicate Pending(events: seq<Event>, token: nat, p: nat) {
    exists j :: 0 <= j < |events| && IsPub(events[j], token, p)
      && forall k :: j < k < |events| ==> !IsRel(events[k], token, p)
  }

  lemma PendingSnoc(events: seq<Event>, ev: Event, token: nat, p: nat)
    ensures Pending(events + [ev], token, p) <==>
      IsPub(ev, token, p) || (Pending(events, token, p) && !IsRel(ev, token, p))
  {
    var all := events + [ev];
    if IsPub(ev, token, p) {
      assert all[|events|] == ev;
    }
    if Pending(events, token, p) && !IsRel(ev, token, p) {
      var j :| 0 <= j < |events| && IsPub(events[j], token, p)
        && forall k :: j < k < |events| ==> !IsRel(events[k], token, p);
      assert all[j] == events[j];
      assert forall k :: j < k < |all| ==> !IsRel(all[k], token, p);
    }
    if Pending(all, token, p) && !IsPub(ev, token, p) {
      var j :| 0 <= j < |all| && IsPub(all[j], token, p) && forall k :: j < k < |all| ==> !IsRel(all[k], token, p);
      assert all[|events|] == ev;
      assert events[j] == all[j];
      forall k | j < k < |events|
        ensures !IsRel(events[k], token, p)
      {
        assert all[k] == events[k];
      }
    }
  }

  /** How many PUBLISH(p) come first since the start or since the last PUBREL(p). */
  ghost function Firsts(events: seq<Event>, token: nat, p: nat): (n: nat) {
    if events == [] then 0
    else
      var front, last := events[..|events| - 1], events[|events| - 1];
      Firsts(front, token, p) + if IsPub(last, token, p) && !Pending(front, token, p) then 1 else 0
  }

  /** The event's message was published, on top of the answer, and counted. */
  ghost predicate Routes(s: State, ev: Event, s': State) {
    ev.Publishing? && CanAnswer(s.clients, ev.token, Wire.QosOf(ev.flags))
    && Wire.ParsePublish(ev.flags, ev.body).Some?
    && var p := Wire.ParsePublish(ev.flags, ev.body).value;
      var pid := if p.pid.Some? then p.pid.value else 0;
      var answered := s.(clients := AnswerIn(s.clients, ev.token, p.qos, pid).0);
      s' == Publish(answered, Message(p.topic, p.payload, p.qos), p.retain).(received := s.received + 1)
  }

  /** How many of them the broker published. */
  ghost function Routed(y: Sys, events: seq<Event>, token: nat, p: nat): (n: nat)
    requires Run(y, events).Some?
  {
    if events == [] then 0
    else
      var front, last := events[..|events| - 1], events[|events| - 1];
      Routed(y, front, token, p)
      + if IsPub(last, token, p) && Routes(Run(y, front).value.s, last, Run(y, events).value.s) then 1 else 0
  }

  /** The connection is there after every event of the run. */
  ghost predicate Stays(y: Sys, events: seq<Event>, token: nat) {
    Run(y, events).Some? && token in Run(y, events).value.s.clients
    && (events == [] || Stays(y, events[..|events| - 1], token))
  }

  /** An id waits for its PUBREL exactly when the packets so far say so. */
  lemma {:induction false} WaitsIsPending(y: Sys, events: seq<Event>, token: nat, p: nat)
    requires Inv(y) && token in y.s.clients && Stays(y, events, token) && p !in y.s.clients[token].received
    ensures Inv(Run(y, events).value)
    ensures Waits(Run(y, events).value, token, p) <==> Pending(events, token, p)
  {
    if events != [] {
      var front, last := events[..|events| - 1], events[|events| - 1];
      WaitsIsPending(y, front, token, p);
      RunSnoc(y, events);
      StepKeepsInv(Run(y, front).value, last);
      WaitsStep(Run(y, front).value, last, token, p);
      SplitLast(events);
      PendingSnoc(front, last, token, p);
    }
  }

  lemma RunSnoc(y: Sys, events: seq<Event>)
    requires events != [] && Run(y, events).Some?
    ensures var front := Run(y, events[..|events| - 1]);
      front.Some? && Step(front.value, events[|events| - 1]) == Run(y, events)
  {
  }

  /**
   Exactly once: over every run, with any mixture of the fast and the general path and any
   other traffic in between, the messages with id `p` that are routed are as many as the
   PUBLISH packets that come first since the start or since the last PUBREL.
   */
  lemma {:induction false} RoutedExactlyOnce(y: Sys, events: seq<Event>, token: nat, p: nat)
    requires Inv(y) && token in y.s.clients && Stays(y, events, token) && p !in y.s.clients[token].received
    ensures Routed(y, events, token, p) == Firsts(events, token, p)
  {
    if events != [] {
      var front := events[..|events| - 1];
      RoutedExactlyOnce(y, front, token, p);
      WaitsIsPending(y, front, token, p);
      RunSnoc(y, events);
      OneMoreRouted(y, events, token, p, Run(y, front).value, Run(y, events).value);
    }
  }

  lemma OneMoreRouted(y: Sys, events: seq<Event>, token: nat, p: nat, y1: Sys, y2: Sys)
    requires events != [] && Run(y, events[..|events| - 1]) == Some(y1) && Run(y, events) == Some(y2)
    requires Step(y1, events[|events| - 1]) == Some(y2) && token in y1.s.clients
    requires Waits(y1, token, p) <==> Pending(events[..|events| - 1], token, p)
    requires Routed(y, events[..|events| - 1], token, p) == Firsts(events[..|events| - 1], token, p)
    ensures Routed(y, events, token, p) == Firsts(events, token, p)
  {
    RoutesStep(y1, events[|events| - 1], token, p, y2);
  }

  /** So it is for every connection of a broker that has just started, from the moment it is accepted. */
  lemma EveryConnectionIsExactlyOnce(
    retained: map<Bytes, Retained>, sessions: map<Bytes, Stored>, before: seq<Event>, y: Sys,
    events: seq<Event>, p: nat)
    requires Run(Start(retained, sessions), before) == Some(y)
    requires Stays(Accepted(y), events, y.s.nextToken)
    ensures Routed(Accepted(y), events, y.s.nextToken, p) == Firsts(events, y.s.nextToken, p)
  {
    EveryRunIsSafe(retained, sessions, before);
    AcceptKeepsInv(y);
    RoutedExactlyOnce(Accepted(y), events, y.s.nextToken, p);
  }

  lemma RoutesStep(y: Sys, ev: Event, token: nat, p: nat, y': Sys)
    requires Step(y, ev) == Some(y') && token in y.s.clients
    ensures IsPub(ev, token, p) ==> (Routes(y.s, ev, y'.s) <==> !Waits(y, token, p))
  {
    if IsPub(ev, token, p) {
      PublishQos2(y.s, token, ev.flags, ev.body);
    }
  }

  // ---- Messages at other QoS

  /** The event is a well-formed PUBLISH that is not at QoS 2. */
  predicate IsPlain(ev: Event) {
    ev.Publishing? && Wire.QosOf(ev.flags) != 2 && Wire.ParsePublish(ev.flags, ev.body).Some?
  }

  /** How many of the events are such a PUBLISH, of any connection, also of one that is gone by then. */
  function Plains(events: seq<Event>): (n: nat) {
    if events == [] then 0
    else Plains(events[..|events| - 1]) + if IsPlain(events[|events| - 1]) then 1 else 0
  }

  /** How many of them the broker published. */
  ghost function PlainsRouted(y: Sys, events: seq<Event>): (n: nat)
    requires Run(y, events).Some?
  {
    if events == [] then 0
    else
      var front, last := events[..|events| - 1], events[|events| - 1];
      PlainsRouted(y, front)
      + if IsPlain(last) && Routes(Run(y, front).value.s, last, Run(y, events).value.s) then 1 else 0
  }

  lemma PlainStep(y: Sys, ev: Event, y': Sys)
    requires Step(y, ev) == Some(y') && IsPlain(ev)
    ensures Routes(y.s, ev, y'.s)
  {
    var p := Wire.ParsePublish(ev.flags, ev.body).value;
    if p.qos > 0 {
      Wire.PidOnlyAgrees(ev.flags, ev.body);
    }
    Answering.ParsedIsTaken(y.s, ev.token, ev.flags, ev.body, p);
  }

  /** Over every run the messages published at QoS 0, 1 and 3 are as many as the broker received. */
  lemma {:induction false} PlainMessagesAreRouted(y: Sys, events: seq<Event>)
    requires Run(y, events).Some?
    ensures PlainsRouted(y, events) == Plains(events)
  {
    if events != [] {
      PlainMessagesAreRouted(y, events[..|events| - 1]);
      RunSnoc(y, events);
      if IsPlain(events[|events| - 1]) {
        PlainStep(Run(y, events[..|events| - 1]).value, events[|events| - 1], Run(y, events).value);
      }
    }
  }
}
