/**
 What is in flight has been sent or will be: over every run, the packet of every entry in flight
 is whole among the bytes the socket took and those the connection still owes.
 */
module Delivery {
  import opened Bytes
  import opened FanOut
  import opened BrokerModel
  import opened Serving
  import opened Runs
  import opened Inbound
  import Outbox
  import Wire
  import Connection

  predicate IsAt(part: Bytes, whole: Bytes, i: nat) {
    i + |part| <= |whole| && whole[i..i + |part|] == part
  }

  ghost predicate Infix(part: Bytes, whole: Bytes) {
    exists i :: IsAt(part, whole, i)
  }

  lemma InfixWidened(part: Bytes, before: Bytes, whole: Bytes, after: Bytes)
    requires Infix(part, whole)
    ensures Infix(part, before + whole + after)
  {
    var i :| IsAt(part, whole, i);
    assert IsAt(part, before + whole + after, |before| + i);
  }

  /** The bytes of the batch that is being written. */
  function Left(c: Connection.State): (r: Bytes)
    requires c.out.off <= |c.out.pending|
  {
    c.out.pending[c.out.off..]
  }

  /** Every packet in flight is in the queue, or whole in what the socket took and the batch. */
  ghost predicate Accounted(c: Connection.State, taken: Bytes) {
    && c.out.off <= |c.out.pending|
    && forall pid :: pid in c.inFlight ==> IsSomewhere(c, taken, c.inFlight[pid].pkt)
  }

  ghost predicate IsSomewhere(c: Connection.State, taken: Bytes, pkt: Bytes)
    requires c.out.off <= |c.out.pending|
  {
    Outbox.Queued(true, pkt) in c.out.queue || Infix(pkt, taken + Left(c))
  }

  lemma FedKeepsAccounted(c: Connection.State, c': Connection.State, taken: Bytes)
    requires Accounted(c, taken) && Fed(c, c')
    ensures Accounted(c', taken)
  {
    forall pid | pid in c'.inFlight
      ensures IsSomewhere(c', taken, c'.inFlight[pid].pkt)
    {
      if !(Outbox.Queued(true, c'.inFlight[pid].pkt) in c'.out.queue) {
        assert IsSomewhere(c, taken, c.inFlight[pid].pkt);
      }
    }
  }

  // ---- Writing

  lemma {:induction false} InPayloads(items: seq<Outbox.Queued>, i: nat)
    requires i < |items|
    ensures Infix(items[i].pkt, Outbox.Payloads(items))
  {
    var first, rest := items[0].pkt, Outbox.Payloads(items[1..]);
    if i == 0 {
      assert IsAt(first, first + rest, 0);
    } else {
      InPayloads(items[1..], i - 1);
      InfixWidened(items[i].pkt, first, rest, []);
      AppendNothing(first + rest);
    }
  }

  lemma SameFront(a: Bytes, b: Bytes, tail: Bytes)
    requires a + tail == b + tail
    ensures a == b
  {
    assert (a + tail)[..|a|] == a && (b + tail)[..|b|] == b;
  }

  /** Writing moves whole packets from the queue to the bytes taken and the batch. */
  lemma FlushMoves(o: Outbox.Outbox, writes: seq<Outbox.WriteResult>) returns (popped: seq<Outbox.Queued>)
    requires o.Valid()
    ensures var f := Outbox.Flush(o, writes);
      && f.o.Valid() && o.queue == popped + f.o.queue
      && f.sent + f.o.pending[f.o.off..] == o.pending[o.off..] + Outbox.Payloads(popped)
  {
    var f := Outbox.Flush(o, writes);
    Outbox.FlushKeepsBytes(o, writes);
    var n := |o.queue| - |f.o.queue|;
    popped := o.queue[..n];
    SplitAt(o.queue, n);
    Outbox.PayloadsConcat(popped, f.o.queue);
    var tail := Outbox.Payloads(f.o.queue);
    Assoc(f.sent, f.o.pending[f.o.off..], tail);
    Assoc(o.pending[o.off..], Outbox.Payloads(popped), tail);
    SameFront(f.sent + f.o.pending[f.o.off..], o.pending[o.off..] + Outbox.Payloads(popped), tail);
  }

  lemma FlushKeepsAccounted(c: Connection.State, writes: seq<Outbox.WriteResult>, taken: Bytes)
    requires Accounted(c, taken) && c.out.Valid()
    ensures var f := Outbox.Flush(c.out, writes);
      Accounted(c.(out := f.o), taken + f.sent)
  {
    var f := Outbox.Flush(c.out, writes);
    var c' := c.(out := f.o);
    var popped := FlushMoves(c.out, writes);
    Assoc(taken, f.sent, Left(c'));
    Assoc(taken, Left(c), Outbox.Payloads(popped));
    forall pid | pid in c'.inFlight
      ensures IsSomewhere(c', taken + f.sent, c'.inFlight[pid].pkt)
    {
      assert IsSomewhere(c, taken, c.inFlight[pid].pkt);
      StillSomewhere(c.out.queue, popped, f.o.queue, taken + Left(c), c.inFlight[pid].pkt);
    }
  }

  lemma StillSomewhere(
    queue: seq<Outbox.Queued>, popped: seq<Outbox.Queued>, rest: seq<Outbox.Queued>, was: Bytes, pkt: Bytes)
    requires queue == popped + rest && (Outbox.Queued(true, pkt) in queue || Infix(pkt, was))
    ensures Outbox.Queued(true, pkt) in rest || Infix(pkt, was + Outbox.Payloads(popped))
  {
    if i :| 0 <= i < |popped| && popped[i] == Outbox.Queued(true, pkt) {
      InPayloads(popped, i);
      InfixWidened(pkt, was, Outbox.Payloads(popped), []);
      AppendNothing(was + Outbox.Payloads(popped));
    } else if Infix(pkt, was) {
      InfixWidened(pkt, [], was, Outbox.Payloads(popped));
      PrependNothing(was);
    }
  }

  // ---- Packets

  /** Some connections change, as `Fed` says, and then deliveries follow. */
  lemma FedThenSupplied(
    cs: map<nat, Connection.State>, cs1: map<nat, Connection.State>, cs': map<nat, Connection.State>, t: nat)
    requires t in cs && t in cs1 && t in cs' && Fed(cs[t], cs1[t]) && Supplied(cs1, cs')
    ensures Fed(cs[t], cs'[t])
  {
    assert Fed(cs1[t], cs'[t]);
  }

  lemma ConnectFeeds(s: State, token: nat, h: Hello, t: nat)
    requires token in s.clients && t in s.clients && t in Connect(s, token, h).0.clients
    ensures Fed(s.clients[t], Connect(s, token, h).0.clients[t])
  {
    var greeted := s.clients[token := Greeted(s.clients[token], h)];
    OfferFeeds(s.clients[token], Wire.BuildConnack());
    if !h.cleanSession && h.clientId in s.sessions {
      var stored := s.sessions[h.clientId];
      ResendServes(greeted, token, stored.subs, stored.offline);
      FedThenSupplied(s.clients, greeted, Connect(s, token, h).0.clients, t);
    }
  }

  lemma AnswerFeeds(cs: map<nat, Connection.State>, token: nat, qos: Wire.QoS, pid: nat, t: nat)
    requires CanAnswer(cs, token, qos) && t in cs
    ensures Fed(cs[t], AnswerIn(cs, token, qos, pid).0[t])
  {
    if token in cs {
      OfferFeeds(cs[token], Wire.BuildAck(Wire.PUBACK, pid));
      OfferFeeds(cs[token], Wire.BuildAck(Wire.PUBREC, pid));
    }
  }

  lemma TakePublishFeeds(s: State, token: nat, p: Wire.Publish, t: nat)
    requires CanAnswer(s.clients, token, p.qos) && t in s.clients && t in TakePublish(s, token, p).clients
    ensures Fed(s.clients[t], TakePublish(s, token, p).clients[t])
  {
    var pid := if p.pid.Some? then p.pid.value else 0;
    var (cs, dup) := AnswerIn(s.clients, token, p.qos, pid);
    AnswerFeeds(s.clients, token, p.qos, pid, t);
    if !dup {
      PublishServes(s.(clients := cs), Message(p.topic, p.payload, p.qos), p.retain);
      FedThenSupplied(s.clients, cs, Arrived(s, cs, p).clients, t);
    }
  }

  lemma HandlePublishFeeds(s: State, token: nat, flags: nat, body: Bytes, t: nat)
    requires CanAnswer(s.clients, token, Wire.QosOf(flags)) && t in s.clients
    ensures var r := HandlePublish(s, token, flags, body);
      r.Some? && t in r.value.clients ==> Fed(s.clients[t], r.value.clients[t])
  {
    var r := HandlePublish(s, token, flags, body);
    if NoRouting(s, flags) {
      if Wire.ParsePidOnly(body).Some? {
        AnswerFeeds(s.clients, token, Wire.QosOf(flags), Wire.ParsePidOnly(body).value, t);
      }
    } else if r.Some? && t in r.value.clients {
      TakePublishFeeds(s, token, Wire.ParsePublish(flags, body).value, t);
    }
  }

  lemma AckFeeds(s: State, token: nat, ptype: nat, body: Bytes, t: nat)
    requires token in s.clients && Wire.PUBACK <= ptype <= Wire.PUBCOMP && t in s.clients && |body| >= 2
    ensures Fed(s.clients[t], HandleAck(s, token, ptype, body).value.clients[t])
  {
    var pid := FromBe16(body[0], body[1]);
    var c := s.clients[token];
    OfferFeeds(c, Wire.BuildPubrel(pid, false));
    OfferFeeds(c, Wire.BuildAck(Wire.PUBCOMP, pid));
  }

  /** Packets and announcements only ever feed a connection, whoever they come from. */
  lemma QuietFeeds(y: Sys, e: Event, y': Sys, t: nat)
    requires Quiet(e) && QuietStep(y, e) == Some(y') && t in y.s.clients && t in y'.s.clients
    ensures Fed(y.s.clients[t], y'.s.clients[t])
  {
    var s := y.s;
    match e
    case Greeting(token, h) => ConnectFeeds(s, token, h, t);
    case Subscribing(token, pid, wishes, orders) =>
      SubscribeServes(s, token, pid, wishes, orders);
      SubscribeAllServes(s, token, wishes, orders);
    case Unsubscribing(token, pid, filters) =>
      ReplyServes(s.(subs := Unsubscribed(s.subs, token, filters)), token, Wire.BuildAck(Wire.UNSUBACK, pid));
    case Publishing(token, flags, body) =>
      if CanAnswer(s.clients, token, Wire.QosOf(flags)) {
        HandlePublishFeeds(s, token, flags, body, t);
      }
    case Acking(token, ptype, body) =>
      if |body| >= 2 {
        AckFeeds(s, token, ptype, body, t);
      }
    case Pinging(token) => ReplyServes(s, token, Wire.BuildPingresp());
    case Announcing(m) => PublishServes(s, m, true);
  }

  // ---- Other events

  /** What the socket of this connection takes in an event. */
  ghost function SentIn(y: Sys, e: Event, token: nat): (sent: Bytes) {
    if e.Writing? && e.token == token && token in y.s.clients && y.s.clients[token].out.Valid()
    then Outbox.Flush(y.s.clients[token].out, e.writes).sent
    else []
  }

  lemma RemoveFeeds(s: State, gone: nat, t: nat)
    requires t in s.clients && Remove(s, gone).Some? && t in Remove(s, gone).value.clients
    ensures Fed(s.clients[t], Remove(s, gone).value.clients[t])
  {
    RemoveServes(s, gone);
  }

  lemma RetryFeeds(s: State, d: DueAt, t: nat)
    requires t in s.clients && ApplyRetry(s, d).Some? && t in ApplyRetry(s, d).value.clients
    ensures Fed(s.clients[t], ApplyRetry(s, d).value.clients[t])
  {
    if d.token !in s.clients {
    } else if Connection.Retry(s.clients[d.token], d.pid, d.pkt).None? {
      RemoveFeeds(s, d.token, t);
    } else {
      var queue := s.clients[d.token].out.queue;
      forall pkt | Outbox.Queued(true, pkt) in queue
        ensures Outbox.Queued(true, pkt) in Outbox.Trimmed(queue)
      {
        Outbox.TrimmedKeepsReliable(queue, pkt);
      }
    }
  }

  lemma WriteAccounts(s: State, token: nat, writes: seq<Outbox.WriteResult>, t: nat, taken: Bytes)
    requires token in s.clients && s.clients[token].out.Valid() && FlushOut(s, token, writes).Some?
    requires t in s.clients && t in FlushOut(s, token, writes).value.clients && Accounted(s.clients[t], taken)
    ensures Accounted(FlushOut(s, token, writes).value.clients[t],
      taken + if t == token then Outbox.Flush(s.clients[token].out, writes).sent else [])
  {
    var c := s.clients[token];
    var f := Outbox.Flush(c.out, writes);
    var s1 := s.(clients := s.clients[token := c.(out := f.o)]);
    if t == token {
      FlushKeepsAccounted(c, writes, taken);
    } else {
      AppendNothing(taken);
    }
    if f.end == Outbox.Dead {
      RemoveFeeds(s1, token, t);
      FedKeepsAccounted(s1.clients[t], FlushOut(s, token, writes).value.clients[t],
        taken + if t == token then f.sent else []);
    }
  }

  lemma LoudAccounts(y: Sys, e: Event, y': Sys, t: nat, taken: Bytes)
    requires Healthy(y.s) && !Quiet(e) && LoudStep(y, e) == Some(y') && t in y.s.clients && t in y'.s.clients
    requires Accounted(y.s.clients[t], taken)
    ensures Accounted(y'.s.clients[t], taken + SentIn(y, e, t))
  {
    if e.Writing? {
      WriteAccounts(y.s, e.token, e.writes, t, taken);
    } else {
      AppendNothing(taken);
      LoudFeeds(y, e, y', t);
      FedKeepsAccounted(y.s.clients[t], y'.s.clients[t], taken);
    }
  }

  lemma LoudFeeds(y: Sys, e: Event, y': Sys, t: nat)
    requires Healthy(y.s) && !Quiet(e) && !e.Writing? && LoudStep(y, e) == Some(y')
    requires t in y.s.clients && t in y'.s.clients
    ensures Fed(y.s.clients[t], y'.s.clients[t])
  {
    match e
    case Dropping(_) => LiftedFeeds(y, e, y', t);
    case NextRetry => LiftedFeeds(y, e, y', t);
    case NextGiveUp => LiftedFeeds(y, e, y', t);
    case Accept => AcceptFeeds(y, t);
    case Leaving(token) => LeaveFeeds(y, token, t);
    case Tick(_, _, _) =>
  }

  lemma LiftedIs(y: Sys, token: nat, r: Option<State>, y': Sys)
    requires Lift(y, token, r) == Some(y')
    ensures r == Some(y'.s)
  {
  }

  lemma LiftedFeeds(y: Sys, e: Event, y': Sys, t: nat)
    requires (e.Dropping? || e.NextRetry? || e.NextGiveUp?) && LoudStep(y, e) == Some(y')
    requires t in y.s.clients && t in y'.s.clients
    ensures Fed(y.s.clients[t], y'.s.clients[t])
  {
    if e.Dropping? {
      LiftedIs(y, e.token, Remove(y.s, e.token), y');
      RemoveFeeds(y.s, e.token, t);
    } else if e.NextRetry? {
      LiftedIs(y.(retry := y.retry[1..]), y.retry[0].token, ApplyRetry(y.s, y.retry[0]), y');
      RetryFeeds(y.s, y.retry[0], t);
    } else {
      LiftedIs(y.(giveUp := y.giveUp[1..]), y.giveUp[0].token, ApplyGiveUp(y.s, y.giveUp[0]), y');
      GiveUpFeeds(y.s, y.giveUp[0], t);
    }
  }

  lemma GiveUpFeeds(s: State, e: Slot, t: nat)
    requires t in s.clients && ApplyGiveUp(s, e).Some? && t in ApplyGiveUp(s, e).value.clients
    ensures Fed(s.clients[t], ApplyGiveUp(s, e).value.clients[t])
  {
    if e.token in s.clients {
      RemoveFeeds(s, e.token, t);
    }
  }

  lemma AcceptFeeds(y: Sys, t: nat)
    requires Healthy(y.s) && t in y.s.clients
    ensures Fed(y.s.clients[t], Accepted(y).s.clients[t])
  {
    assert t < y.s.nextToken;
  }

  lemma LeaveFeeds(y: Sys, token: nat, t: nat)
    requires token in y.s.clients && t in y.s.clients
    ensures Fed(y.s.clients[t], Departed(y, token).s.clients[t])
  {
  }

  // ---- Over a run

  ghost function Sent(y: Sys, events: seq<Event>, token: nat): (sent: Bytes)
    requires Run(y, events).Some?
  {
    if events == [] then []
    else
      var front, last := events[..|events| - 1], events[|events| - 1];
      Sent(y, front, token) + SentIn(Run(y, front).value, last, token)
  }

  lemma StepAccounts(y: Sys, e: Event, y': Sys, t: nat, taken: Bytes)
    requires Healthy(y.s) && Step(y, e) == Some(y') && t in y.s.clients && t in y'.s.clients
    requires Accounted(y.s.clients[t], taken)
    ensures Accounted(y'.s.clients[t], taken + SentIn(y, e, t))
  {
    if Quiet(e) {
      QuietFeeds(y, e, y', t);
      FedKeepsAccounted(y.s.clients[t], y'.s.clients[t], taken);
      AppendNothing(taken);
    } else {
      LoudAccounts(y, e, y', t, taken);
    }
  }

  lemma {:induction false} RunAccounts(y: Sys, events: seq<Event>, token: nat, taken: Bytes)
    requires Inv(y) && token in y.s.clients && Stays(y, events, token) && Accounted(y.s.clients[token], taken)
    ensures Accounted(Run(y, events).value.s.clients[token], taken + Sent(y, events, token))
  {
    if events == [] {
      AppendNothing(taken);
    } else {
      var front, last := events[..|events| - 1], events[|events| - 1];
      RunAccounts(y, front, token, taken);
      RunSnoc(y, events);
      var y1 := Run(y, front).value;
      RunKeepsInv(y, front);
      StepAccounts(y1, last, Run(y, events).value, token, taken + Sent(y, front, token));
      Assoc(taken, Sent(y, front, token), SentIn(y1, last, token));
    }
  }

  /**
   In every run of a broker that has just started, from the moment a connection is accepted for as
   long as it is there: whatever is queued, evicted, retried and written in between, the packet of
   every entry in flight is whole in the queue, or in the bytes the socket took and the batch.
   */
  lemma NothingInFlightIsLost(
    retained: map<Bytes, Retained>, sessions: map<Bytes, Stored>, before: seq<Event>, y: Sys, events: seq<Event>)
    requires Run(Start(retained, sessions), before) == Some(y)
    requires Stays(Accepted(y), events, y.s.nextToken)
    ensures Accounted(Run(Accepted(y), events).value.s.clients[y.s.nextToken], Sent(Accepted(y), events, y.s.nextToken))
  {
    EveryRunIsSafe(retained, sessions, before);
    AcceptKeepsInv(y);
    var token := y.s.nextToken;
    RunAccounts(Accepted(y), events, token, []);
    PrependNothing(Sent(Accepted(y), events, token));
  }
}
