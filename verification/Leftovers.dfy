/**
 Connections that a delivery drops: exactly which, what they leave behind, and what never
 happens to it. `deliver_to` takes such a connection out of the table itself, so that
 `remove_client`, which would publish its will and save its session, does not find it any more.
 */
module Leftovers {
  import opened Bytes
  import opened Topics
  import opened FanOut
  import opened BrokerModel
  import opened Serving
  import opened Runs
  import FlatScan
  import Outbox
  import Wire
  import Connection

  // ---- Which connections a fan-out drops

  function ReliableIn(queue: seq<Outbox.Queued>): (n: nat)
    ensures n <= |queue|
  {
    if queue == [] then 0
    else ReliableIn(queue[..|queue| - 1]) + if queue[|queue| - 1].reliable then 1 else 0
  }

  lemma ReliableSnoc(queue: seq<Outbox.Queued>, x: Outbox.Queued)
    ensures ReliableIn(queue + [x]) == ReliableIn(queue) + if x.reliable then 1 else 0
  {
    assert (queue + [x])[..|queue|] == queue;
  }

  /** Evicting does not touch the reliable packets. */
  lemma {:induction false} ReliableWithout(queue: seq<Outbox.Queued>, k: nat)
    requires k < |queue| && !queue[k].reliable
    ensures ReliableIn(Outbox.Without(queue, k)) == ReliableIn(queue)
  {
    var n := |queue| - 1;
    var front := queue[..n];
    if k == n {
      assert Outbox.Without(queue, k) == front;
    } else {
      ReliableWithout(front, k);
      assert Outbox.Without(queue, k) == Outbox.Without(front, k) + [queue[n]];
      ReliableSnoc(Outbox.Without(front, k), queue[n]);
    }
  }

  lemma {:induction false} AllReliable(queue: seq<Outbox.Queued>)
    ensures ReliableIn(queue) == |queue| <==> forall i :: 0 <= i < |queue| ==> queue[i].reliable
  {
    if queue != [] {
      var n := |queue| - 1;
      AllReliable(queue[..n]);
      assert forall i :: 0 <= i < n ==> queue[..n][i] == queue[i];
    }
  }

  lemma CloggedExactly(queue: seq<Outbox.Queued>)
    requires |queue| <= Outbox.WRITE_QUEUE_CAP
    ensures Outbox.Clogged(queue) <==> ReliableIn(queue) == Outbox.WRITE_QUEUE_CAP
  {
    AllReliable(queue);
  }

  lemma InsistCounts(o: Outbox.Outbox, pkt: Bytes)
    requires o.Valid()
    ensures Outbox.Insist(o, pkt).None? <==> ReliableIn(o.queue) == Outbox.WRITE_QUEUE_CAP
    ensures Outbox.Insist(o, pkt).Some? ==> ReliableIn(Outbox.Insist(o, pkt).value.queue) == ReliableIn(o.queue) + 1
  {
    Outbox.InsistRefusesOnlyReliable(o, pkt);
    CloggedExactly(o.queue);
    Outbox.MakeRoomOnce(o.queue);
    var room := Outbox.MakeRoom(o.queue);
    if room.Some? {
      var k := Outbox.FirstUnreliable(o.queue);
      if |o.queue| == Outbox.WRITE_QUEUE_CAP {
        ReliableWithout(o.queue, k);
      }
      ReliableSnoc(room.value, Outbox.Queued(true, pkt));
    }
  }

  /** A delivery above QoS 0 takes one place in the window and one of the places for reliable packets. */
  lemma DeliverCounts(c: Connection.State, topic: Bytes, payload: Bytes, qos: Wire.QoS, retain: bool)
    requires Connection.Valid(c)
    ensures var d := Connection.Deliver(c, topic, payload, qos, retain);
      && (d.Lost? <==> Overfills(c, if qos > 0 then 1 else 0))
      && (d.Delivered? ==>
            && |d.c.inFlight| == |c.inFlight| + (if qos > 0 then 1 else 0)
            && ReliableIn(d.c.out.queue) == ReliableIn(c.out.queue) + if qos > 0 then 1 else 0)
  {
    if qos == 0 {
      ReliableSnoc(c.out.queue, Outbox.Queued(false, Wire.BuildForward(topic, payload, 0, None, false, retain)));
    } else {
      Connection.AllocPidExactly(c.inFlight, c.nextPid);
      var a := Connection.AllocPid(c.inFlight, c.nextPid);
      if a.Some? {
        InsistCounts(c.out, Wire.BuildForward(topic, payload, qos, Some(a.value.0), false, retain));
      }
    }
  }

  /** The connection cannot take `n` more messages above QoS 0. */
  predicate Overfills(c: Connection.State, n: nat) {
    n > 0
    && (|c.inFlight| + n > Connection.IN_FLIGHT_CAP || ReliableIn(c.out.queue) + n > Outbox.WRITE_QUEUE_CAP)
  }

  /** How many of the targets are this connection's and get the message above QoS 0. */
  function CopiesAbove(targets: seq<Subscription>, m: Message, token: nat): (n: nat) {
    if targets == [] then 0
    else
      (if targets[0].token == token && Wire.MinQoS(m.qos, targets[0].qos) > 0 then 1 else 0)
      + CopiesAbove(targets[1..], m, token)
  }

  /**
   A fan-out drops a connection exactly when the copies it gets above QoS 0 do not fit its window
   or the part of its queue that is not reliable.
   */
  lemma {:induction false} FanOutDropsExactly(
    cs: map<nat, Connection.State>, targets: seq<Subscription>, m: Message, token: nat)
    requires token in cs && Connection.Valid(cs[token])
    ensures token !in SendAll(cs, targets, m).0 <==> Overfills(cs[token], CopiesAbove(targets, m, token))
    decreases |targets|
  {
    if targets != [] {
      var t, c := targets[0], cs[token];
      var qos := Wire.MinQoS(m.qos, t.qos);
      var cs1 := SendOne(cs, t, m).0;
      if t.token == token {
        DeliverCounts(c, m.topic, m.payload, qos, false);
        Connection.DeliverKeepsValid(c, m.topic, m.payload, qos, false);
      }
      if token in cs1 {
        FanOutDropsExactly(cs1, targets[1..], m, token);
      } else {
        SendAllServes(cs1, targets[1..], m);
      }
    }
  }

  /** A connection that survives a fan-out has the copies it gets above QoS 0 in its queue. */
  lemma {:induction false} FanOutAdds(
    cs: map<nat, Connection.State>, targets: seq<Subscription>, m: Message, token: nat)
    requires token in cs && Connection.Valid(cs[token]) && token in SendAll(cs, targets, m).0
    ensures ReliableIn(SendAll(cs, targets, m).0[token].out.queue)
      == ReliableIn(cs[token].out.queue) + CopiesAbove(targets, m, token)
    decreases |targets|
  {
    if targets != [] {
      var cs1 := SendOne(cs, targets[0], m).0;
      SendAllServes(cs1, targets[1..], m);
      SendAdds(cs, targets[0], m, token);
      FanOutAdds(cs1, targets[1..], m, token);
    }
  }

  lemma SendAdds(cs: map<nat, Connection.State>, t: Subscription, m: Message, token: nat)
    requires token in cs && Connection.Valid(cs[token]) && token in SendOne(cs, t, m).0
    ensures var c := SendOne(cs, t, m).0[token];
      && Connection.Valid(c)
      && ReliableIn(c.out.queue) == ReliableIn(cs[token].out.queue)
           + if t.token == token && Wire.MinQoS(m.qos, t.qos) > 0 then 1 else 0
  {
    if t.token == token {
      DeliverCounts(cs[token], m.topic, m.payload, Wire.MinQoS(m.qos, t.qos), false);
      Connection.DeliverKeepsValid(cs[token], m.topic, m.payload, Wire.MinQoS(m.qos, t.qos), false);
    }
  }

  lemma FanIsTried(cs: map<nat, Connection.State>, subs: seq<Subscription>, m: Message)
    ensures Fan(cs, subs, m).0 == SendAll(cs, FlatScan.Tried(subs, m.topic), m).0
  {
    OrderIsFanout(subs, m.topic);
    FlatScan.PickedIsTried(subs, m.topic);
  }

  /** So it is for a publish. */
  lemma PublishDropsExactly(s: State, m: Message, retain: bool, token: nat)
    requires token in s.clients && Connection.Valid(s.clients[token])
    ensures token !in Publish(s, m, retain).clients
      <==> Overfills(s.clients[token], CopiesAbove(FlatScan.Tried(s.subs, m.topic), m, token))
  {
    FanIsTried(s.clients, s.subs, m);
    FanOutDropsExactly(s.clients, FlatScan.Tried(s.subs, m.topic), m, token);
  }

  /**
   A PUBLISH drops its own sender exactly when it is routed and the sender's own copies above
   QoS 0 do not fit. Whatever the sender has sent after it then meets a missing connection.
   */
  lemma SenderIsDroppedExactly(s: State, token: nat, flags: nat, body: Bytes)
    requires token in s.clients && Connection.Valid(s.clients[token])
    requires HandlePublish(s, token, flags, body).Some? && Wire.ParsePublish(flags, body).Some?
    ensures var p := Wire.ParsePublish(flags, body).value;
      var pid := if p.pid.Some? then p.pid.value else 0;
      var (c, repeated) := Connection.Answer(s.clients[token], p.qos, pid);
      var m := Message(p.topic, p.payload, p.qos);
      token !in HandlePublish(s, token, flags, body).value.clients
      <==> !repeated && Overfills(c, CopiesAbove(FlatScan.Tried(s.subs, p.topic), m, token))
  {
    var p := Wire.ParsePublish(flags, body).value;
    var pid := if p.pid.Some? then p.pid.value else 0;
    var c := Connection.Answer(s.clients[token], p.qos, pid).0;
    var m := Message(p.topic, p.payload, p.qos);
    AnswerIsCalm(s.clients[token], p.qos, pid);
    if NoRouting(s, flags) {
      assert FlatScan.Tried(s.subs, p.topic) == [];
    } else {
      PublishDropsExactly(s.(clients := AnswerIn(s.clients, token, p.qos, pid).0), m, p.retain, token);
      assert AnswerIn(s.clients, token, p.qos, pid).0[token] == c;
    }
  }

  /**
   Whatever else was read with such a PUBLISH is handled without its connection. That panics
   exactly where the arm looks the connection up: not for a PUBLISH that asks for no answer or
   does not parse, not for an acknowledgement without an id, and not for a SUBSCRIBE that some
   retained message answers, because sending that message fails first.
   */
  lemma OrphansPanic(s: State, token: nat, p: Parsed, orders: seq<seq<Bytes>>)
    requires token !in s.clients
    requires p.SubscribePacket? ==> AreRetainedOrders(s.retained, p.wishes, orders)
    ensures Handle(s, token, p, orders).Panic? <==>
      match p
      case PublishPacket(flags, body) => Wire.QosOf(flags) in {1, 2} && Wire.ParsePidOnly(body).Some?
      case AckPacket(ptype, body) => Wire.PUBACK <= ptype <= Wire.PUBCOMP && |body| >= 2
      case SubscribePacket(_, wishes) =>
        forall i, t :: 0 <= i < |wishes| && t in s.retained ==> !Matches(wishes[i].filter, t)
      case BadPacket => false
      case _ => true
  {
    if p.SubscribePacket? {
      OrphanSubscribeFails(s, token, p.wishes, orders);
      EmptyOrders(s.retained, p.wishes, orders);
    }
  }

  lemma EmptyOrders(retained: map<Bytes, Retained>, wishes: seq<Wish>, orders: seq<seq<Bytes>>)
    requires AreRetainedOrders(retained, wishes, orders)
    ensures (forall i :: 0 <= i < |orders| ==> orders[i] == [])
      <==> forall i, t :: 0 <= i < |wishes| && t in retained ==> !Matches(wishes[i].filter, t)
  {
    forall i | 0 <= i < |wishes|
      ensures orders[i] == [] <==> forall t :: t in retained ==> !Matches(wishes[i].filter, t)
    {
      EmptyOrder(retained, wishes[i].filter, orders[i]);
    }
  }

  lemma EmptyOrder(retained: map<Bytes, Retained>, filter: Bytes, order: seq<Bytes>)
    requires IsRetainedOrder(retained, filter, order)
    ensures order == [] <==> forall t :: t in retained ==> !Matches(filter, t)
  {
    if order != [] {
      assert order[0] in order;
    }
  }

  /** A SUBSCRIBE whose connection is gone gets as far as the first retained message. */
  lemma {:induction false} OrphanSubscribeFails(s: State, token: nat, wishes: seq<Wish>, orders: seq<seq<Bytes>>)
    requires token !in s.clients && AreRetainedOrders(s.retained, wishes, orders)
    ensures SubscribeAll(s, token, wishes, orders).1 <==> forall i :: 0 <= i < |orders| ==> orders[i] == []
    ensures SubscribeAll(s, token, wishes, orders).0.clients == s.clients
    decreases |wishes|
  {
    if wishes != [] {
      var (s1, ok) := SubscribeOne(s, token, wishes[0], orders[0]);
      assert ok <==> orders[0] == [];
      if ok {
        OrphanSubscribeFails(s1, token, wishes[1..], orders[1..]);
        assert forall i :: 0 < i < |orders| ==> orders[i] == orders[1..][i - 1];
      }
    }
  }

  // ---- What they leave behind

  lemma {:induction false} FailedWereTried(picked: seq<Subscription>, oks: seq<bool>, x: Subscription)
    requires |picked| == |oks| && forall i :: 0 <= i < |picked| ==> picked[i] != x
    ensures Count(Failed(picked, oks), x) == 0
  {
    if picked != [] {
      FailedWereTried(picked[1..], oks[1..], x);
      if oks[0] {
        assert [] + Failed(picked[1..], oks[1..]) == Failed(picked[1..], oks[1..]);
      } else {
        CountConcat([picked[0]], Failed(picked[1..], oks[1..]), x);
        FlatScan.CountOne(picked[0], x);
      }
    }
  }

  /** A publish leaves every subscription that does not match its topic. */
  lemma OthersStay(cs: map<nat, Connection.State>, subs: seq<Subscription>, m: Message, x: Subscription)
    requires !Matches(x.filter, m.topic)
    ensures Count(Fan(cs, subs, m).1, x) == Count(subs, x)
  {
    var idxs := Order(subs, m.topic);
    OrderIsFanout(subs, m.topic);
    HitsAreWithin(subs, m.topic, idxs);
    var picked := Pick(subs, idxs);
    var oks := SendAll(cs, picked, m).1;
    SweepRemovesFailed(subs, idxs, oks, x);
    PickedAt(subs, idxs);
    FailedWereTried(picked, oks, x);
  }

  lemma {:induction false} PickedAt(subs: seq<Subscription>, idxs: seq<nat>)
    requires Within(idxs, |subs|)
    ensures forall k :: 0 <= k < |idxs| ==> Pick(subs, idxs)[k] == subs[idxs[k]]
  {
    if idxs != [] {
      PickedAt(subs, idxs[1..]);
      assert forall k :: 0 < k < |idxs| ==> Pick(subs, idxs)[k] == Pick(subs, idxs[1..])[k - 1];
    }
  }

  /**
   A connection that a publish drops leaves no stored session that was not there before, and all
   its subscriptions that do not match the topic. Nor does a later `remove_client` make up for
   it: it publishes no will and saves nothing, and only then takes the subscriptions away.
   */
  lemma DroppedWithoutTrace(s: State, m: Message, retain: bool, token: nat, x: Subscription)
    requires token !in Publish(s, m, retain).clients
    ensures var s' := Publish(s, m, retain);
      && s'.sessions.Keys == s.sessions.Keys
      && (!Matches(x.filter, m.topic) ==> Count(s'.subs, x) == Count(s.subs, x))
      && AfterWill(s', token) == s'
      && Remove(s', token).Some?
      && var gone := Remove(s', token).value;
      && gone == s'.(subs := gone.subs)
      && Count(gone.subs, x) == if x.token == token then 0 else Count(s'.subs, x)
  {
    var s' := Publish(s, m, retain);
    if !Matches(x.filter, m.topic) {
      OthersStay(s.clients, s.subs, m, x);
    }
    assert s'.clients - {token} == s'.clients;
    OthersMeaning(s'.subs, token);
  }

  /** What an event can do to a connection that is gone: nothing, and its will stays where it was. */
  lemma GoneStep(y: Sys, e: Event, token: nat, y': Sys)
    requires Inv(y) && Step(y, e) == Some(y') && token < y.s.nextToken && token !in y.s.clients
    ensures token < y'.s.nextToken && token !in y'.s.clients
    ensures token in y'.wills <==> token in y.wills
  {
    if Quiet(e) {
      QuietIsCalm(y, e);
    } else if Removing(e) {
      var gone := RemovingServes(y, e, y');
      RecordedOnly(y, y', gone, token);
    } else if e.NextRetry? {
      GoneRetry(y, token, y');
    }
  }

  lemma RecordedOnly(y: Sys, y': Sys, gone: nat, token: nat)
    requires token !in y.s.clients
    requires y'.wills == y.wills + if WillDue(y.s, gone) && gone !in y'.s.clients then [gone] else []
    ensures token in y'.wills <==> token in y.wills
  {
  }

  lemma GoneRetry(y: Sys, token: nat, y': Sys)
    requires token < y.s.nextToken && token !in y.s.clients && LoudStep(y, NextRetry) == Some(y')
    ensures token < y'.s.nextToken && token !in y'.s.clients
    ensures token in y'.wills <==> token in y.wills
  {
    var d := y.retry[0];
    if d.token !in y.s.clients || Connection.Retry(y.s.clients[d.token], d.pid, d.pkt).None? {
      RefusedRetryServes(y.s, d);
    }
    RecordedOnly(y, y', d.token, token);
  }

  /** A connection that is gone never comes back, and a will that was not published by then never is. */
  lemma {:induction false} GoneForGood(y: Sys, events: seq<Event>, token: nat, y': Sys)
    requires Inv(y) && Run(y, events) == Some(y') && token < y.s.nextToken && token !in y.s.clients
    ensures Inv(y') && token < y'.s.nextToken && token !in y'.s.clients
    ensures token in y'.wills <==> token in y.wills
  {
    if events != [] {
      var front, last := events[..|events| - 1], events[|events| - 1];
      var y1 := Run(y, front).value;
      GoneForGood(y, front, token, y1);
      StepKeepsInv(y1, last);
      GoneStep(y1, last, token, y');
    }
  }

  /** Nor does any subscription it left behind ever deliver again, to it or to a later connection. */
  lemma LeftoversNeverDeliver(y: Sys, events: seq<Event>, x: Subscription, m: Message, y': Sys)
    requires Inv(y) && Run(y, events) == Some(y') && x.token < y.s.nextToken && x.token !in y.s.clients
    ensures SendOne(y'.s.clients, x, m) == (y'.s.clients, false)
  {
    GoneForGood(y, events, x.token, y');
  }

  // ---- Subscriptions belong to tokens that were handed out

  ghost predicate Below(subs: seq<Subscription>, n: nat) {
    forall i :: 0 <= i < |subs| ==> subs[i].token < n
  }

  lemma {:induction false} SweepBelow(subs: seq<Subscription>, idxs: seq<nat>, oks: seq<bool>, n: nat)
    requires |idxs| == |oks| && Descending(idxs) && Within(idxs, |subs|) && Below(subs, n)
    ensures Below(Sweep(subs, idxs, oks), n)
    decreases |idxs|
  {
    if idxs != [] {
      DescendingTail(idxs);
      SweepBelow(if oks[0] then subs else SwapRemove(subs, idxs[0]), idxs[1..], oks[1..], n);
    }
  }

  lemma PublishBelow(s: State, m: Message, retain: bool, n: nat)
    requires Below(s.subs, n)
    ensures Below(Publish(s, m, retain).subs, n)
  {
    var idxs := Order(s.subs, m.topic);
    OrderIsFanout(s.subs, m.topic);
    HitsAreWithin(s.subs, m.topic, idxs);
    SweepBelow(s.subs, idxs, SendAll(s.clients, Pick(s.subs, idxs), m).1, n);
  }

  lemma {:induction false} OthersBelow(subs: seq<Subscription>, token: nat, n: nat)
    requires Below(subs, n)
    ensures Below(Others(subs, token), n)
  {
    if subs != [] {
      OthersBelow(subs[..|subs| - 1], token, n);
    }
  }

  lemma {:induction false} UnsubscribedBelow(subs: seq<Subscription>, token: nat, filters: seq<Bytes>, n: nat)
    requires Below(subs, n)
    ensures Below(Unsubscribed(subs, token, filters), n)
  {
    if subs != [] {
      UnsubscribedBelow(subs[..|subs| - 1], token, filters, n);
    }
  }

  lemma {:induction false} RestoredBelow(wishes: seq<Wish>, token: nat, n: nat)
    requires token < n
    ensures Below(Restored(wishes, token), n)
  {
    if wishes != [] {
      RestoredBelow(wishes[..|wishes| - 1], token, n);
    }
  }

  lemma {:induction false} SubscribeAllBelow(s: State, token: nat, wishes: seq<Wish>, orders: seq<seq<Bytes>>, n: nat)
    requires AreRetainedOrders(s.retained, wishes, orders) && Below(s.subs, n) && token < n
    ensures Below(SubscribeAll(s, token, wishes, orders).0.subs, n)
    decreases |wishes|
  {
    if wishes != [] {
      var (s1, ok) := SubscribeOne(s, token, wishes[0], orders[0]);
      if ok {
        SubscribeAllBelow(s1, token, wishes[1..], orders[1..], n);
      }
    }
  }

  lemma RemoveBelow(s: State, token: nat, n: nat)
    requires Below(s.subs, n)
    ensures Remove(s, token).Some? ==> Below(Remove(s, token).value.subs, n)
  {
    var s1 := AfterWill(s, token);
    if token in s.clients && s.clients[token].will.Some? {
      var w := s.clients[token].will.value;
      PublishBelow(s, Message(w.topic, w.message, w.qos), w.retain, n);
    }
    OthersBelow(s1.subs, token, n);
  }

  lemma HandlePublishBelow(s: State, token: nat, flags: nat, body: Bytes, n: nat)
    requires CanAnswer(s.clients, token, Wire.QosOf(flags)) && Below(s.subs, n)
    ensures var r := HandlePublish(s, token, flags, body); r.Some? ==> Below(r.value.subs, n)
  {
    if !NoRouting(s, flags) && Wire.ParsePublish(flags, body).Some? {
      var p := Wire.ParsePublish(flags, body).value;
      var clients := AnswerIn(s.clients, token, p.qos, if p.pid.Some? then p.pid.value else 0).0;
      PublishBelow(s.(clients := clients), Message(p.topic, p.payload, p.qos), p.retain, n);
    }
  }

  lemma ConnectBelow(s: State, token: nat, h: Hello, n: nat)
    requires token in s.clients && token < n && Below(s.subs, n)
    ensures Below(Connect(s, token, h).0.subs, n)
  {
    if h.clientId in s.sessions {
      RestoredBelow(s.sessions[h.clientId].subs, token, n);
    }
  }

  lemma SubscribeBelow(s: State, token: nat, pid: nat, wishes: seq<Wish>, orders: seq<seq<Bytes>>, n: nat)
    requires AreRetainedOrders(s.retained, wishes, orders) && token < n && Below(s.subs, n)
    ensures Below(Subscribe(s, token, pid, wishes, orders).0.subs, n)
    ensures Below(SubscribeAll(s, token, wishes, orders).0.subs, n)
  {
    SubscribeAllBelow(s, token, wishes, orders, n);
  }

  lemma HandedOutBelow(s: State, token: nat)
    requires Healthy(s) && HandedOut(s, token)
    ensures token < s.nextToken
  {
  }

  lemma QuietBelow(y: Sys, e: Event, n: nat, y': Sys)
    requires Quiet(e) && QuietStep(y, e) == Some(y') && Below(y.s.subs, n)
    requires !e.Announcing? && HandedOut(y.s, e.token) ==> e.token < n
    ensures Below(y'.s.subs, n)
  {
    match e
    case Greeting(token, h) => ConnectBelow(y.s, token, h, n);
    case Subscribing(token, pid, wishes, orders) => SubscribeBelow(y.s, token, pid, wishes, orders, n);
    case Unsubscribing(token, pid, filters) => UnsubscribedBelow(y.s.subs, token, filters, n);
    case Publishing(token, flags, body) =>
      if CanAnswer(y.s.clients, token, Wire.QosOf(flags)) {
        HandlePublishBelow(y.s, token, flags, body, n);
      }
    case Announcing(m) => PublishBelow(y.s, m, true, n);
    case Acking(_, _, _) =>
    case Pinging(_) =>
  }

  lemma LoudBelow(y: Sys, e: Event, n: nat, y': Sys)
    requires !Quiet(e) && LoudStep(y, e) == Some(y') && Below(y.s.subs, n)
    ensures Below(y'.s.subs, n)
  {
    match e
    case Dropping(token) => RemoveBelow(y.s, token, n);
    case Writing(token, writes) =>
      var c := y.s.clients[token].(out := Outbox.Flush(y.s.clients[token].out, writes).o);
      RemoveBelow(y.s.(clients := y.s.clients[token := c]), token, n);
    case NextRetry => RemoveBelow(y.s, y.retry[0].token, n);
    case NextGiveUp => RemoveBelow(y.s, y.giveUp[0].token, n);
    case Accept =>
    case Leaving(_) =>
    case Tick(_, _, _) =>
  }

  /** Tokens are handed out in order and never again. */
  lemma TokensGrow(y: Sys, e: Event, y': Sys)
    requires Inv(y) && Step(y, e) == Some(y')
    ensures y.s.nextToken <= y'.s.nextToken
  {
    if Quiet(e) {
      QuietIsCalm(y, e);
    } else if Removing(e) {
      var _ := RemovingServes(y, e, y');
    } else if e.NextRetry? {
      RefusedOrCounted(y.s, y.retry[0]);
    }
  }

  lemma RefusedOrCounted(s: State, d: DueAt)
    ensures var r := ApplyRetry(s, d); r.Some? ==> r.value.nextToken == s.nextToken
  {
    RemoveServes(s, d.token);
  }

  lemma {:induction false} RunBelow(y: Sys, events: seq<Event>, y': Sys)
    requires Inv(y) && Below(y.s.subs, y.s.nextToken) && Run(y, events) == Some(y')
    ensures Inv(y') && Below(y'.s.subs, y'.s.nextToken)
  {
    if events != [] {
      var front, last := events[..|events| - 1], events[|events| - 1];
      var y1 := Run(y, front).value;
      RunBelow(y, front, y1);
      StepKeepsInv(y1, last);
      TokensGrow(y1, last, y');
      if Quiet(last) {
        if !last.Announcing? && HandedOut(y1.s, last.token) {
          HandedOutBelow(y1.s, last.token);
        }
        QuietBelow(y1, last, y1.s.nextToken, y');
      } else {
        LoudBelow(y1, last, y1.s.nextToken, y');
      }
    }
  }

  /**
   In every run, every subscription belongs to a token that was handed out. So a new connection
   starts without any, whatever dropped connections have left behind.
   */
  lemma NewConnectionsInheritNothing(
    retained: map<Bytes, Retained>, sessions: map<Bytes, Stored>, events: seq<Event>, y: Sys)
    requires Run(Start(retained, sessions), events) == Some(y)
    ensures Below(y.s.subs, y.s.nextToken)
    ensures y.s.nextToken !in y.s.clients && Mine(Accepted(y).s.subs, y.s.nextToken) == []
  {
    RunBelow(Start(retained, sessions), events, y);
    MineBelow(y.s.subs, y.s.nextToken);
  }

  lemma {:induction false} MineBelow(subs: seq<Subscription>, n: nat)
    requires Below(subs, n)
    ensures Mine(subs, n) == []
  {
    if subs != [] {
      MineBelow(subs[..|subs| - 1], n);
    }
  }

  // ---- Retransmissions that outlive their acknowledgement

  /** A step either leaves the retry list alone, or takes its first entry, or is the next tick. */
  lemma RetryListStep(y: Sys, e: Event, y': Sys)
    requires Step(y, e) == Some(y') && !e.Tick?
    ensures y'.retry == y.retry || (y.retry != [] && y'.retry == y.retry[1..])
  {
    if Quiet(e) {
      QuietIsCalm(y, e);
    }
  }

  /** Until the next tick, what is left of the retry list is its end. */
  lemma {:induction false} RetryListRun(y: Sys, events: seq<Event>, y': Sys) returns (k: nat)
    requires Run(y, events) == Some(y') && forall i :: 0 <= i < |events| ==> !events[i].Tick?
    ensures k <= |y.retry| && y'.retry == y.retry[k..]
  {
    k := 0;
    if events != [] {
      var front, last := events[..|events| - 1], events[|events| - 1];
      var y1 := Run(y, front).value;
      k := RetryListRun(y, front, y1);
      RetryListStep(y1, last, y');
      if y'.retry != y1.retry {
        DropDrop(y.retry, k, 1);
        k := k + 1;
      }
    }
  }

  /**
   A tick finds an entry in flight and puts it on its retry list; by the time the list gets to it,
   whatever happened in between, the client has acknowledged it. The message is sent again all
   the same; or, exactly if the queue is full of reliable packets, the client is removed for it.
   */
  lemma StaleRetryInARun(
    y: Sys, expired: set<Slot>, retry: seq<DueAt>, giveUp: seq<Slot>, y1: Sys, events: seq<Event>, y2: Sys, d: DueAt)
    requires Inv(y) && Step(y, Tick(expired, retry, giveUp)) == Some(y1)
    requires Run(y1, events) == Some(y2) && forall i :: 0 <= i < |events| ==> !events[i].Tick?
    requires y2.retry != [] && d == y2.retry[0] && d.token in y2.s.clients && !Alive(y2, SlotOf(d))
    ensures Alive(y, SlotOf(d))
    ensures LoudStep(y2, NextRetry) == Lift(y2.(retry := y2.retry[1..]), d.token, ApplyRetry(y2.s, d))
    ensures ApplyRetry(y2.s, d) == Again(y2.s, d)
  {
    WasInFlight(y, expired, retry, giveUp, y1, events, y2);
    StepKeepsInv(y, Tick(expired, retry, giveUp));
    RunKeepsInv(y1, events);
    RetryApplied(y2.s, d);
    NextRetryMeaning(y2, d);
  }

  lemma NextRetryMeaning(y: Sys, d: DueAt)
    requires y.retry != [] && d == y.retry[0]
    ensures LoudStep(y, NextRetry) == Lift(y.(retry := y.retry[1..]), d.token, ApplyRetry(y.s, d))
  {
  }

  /** What the list gets to was in flight when the tick took it. */
  lemma WasInFlight(
    y: Sys, expired: set<Slot>, retry: seq<DueAt>, giveUp: seq<Slot>, y1: Sys, events: seq<Event>, y2: Sys)
    requires Step(y, Tick(expired, retry, giveUp)) == Some(y1)
    requires Run(y1, events) == Some(y2) && forall i :: 0 <= i < |events| ==> !events[i].Tick?
    requires y2.retry != []
    ensures Alive(y, SlotOf(y2.retry[0]))
  {
    TickMeaning(y, expired, retry, giveUp, y1);
    var k := RetryListRun(y1, events, y2);
    DueIsThere(y.s, expired, retry, giveUp, k, y2.retry[0]);
  }

  /** One more copy of a message, counted if it is still in flight; or the client removed for it. */
  ghost function Again(s: State, d: DueAt): (r: Option<State>)
    requires d.token in s.clients
  {
    var c := s.clients[d.token];
    if Outbox.Clogged(c.out.queue) then Remove(s, d.token)
    else
      var queue := Outbox.Trimmed(c.out.queue) + [Outbox.Queued(true, d.pkt)];
      var sent := c.(out := c.out.(queue := queue));
      if d.pid !in c.inFlight then Some(s.(clients := s.clients[d.token := sent]))
      else
        var e := c.inFlight[d.pid];
        Some(s.(clients := s.clients[d.token := sent.(inFlight := c.inFlight[d.pid := e.(retries := e.retries + 1)])]))
  }

  lemma DueIsThere(s: State, expired: set<Slot>, retry: seq<DueAt>, giveUp: seq<Slot>, k: nat, d: DueAt)
    requires IsRound(s.clients, expired, retry, giveUp) && k <= |retry| && retry[k..] != [] && d == retry[k..][0]
    ensures InFlightAt(s.clients, SlotOf(d))
  {
    assert d == retry[k] && d in retry;
  }

  lemma RetryApplied(s: State, d: DueAt)
    requires Healthy(s) && d.token in s.clients
    ensures ApplyRetry(s, d) == Again(s, d)
  {
    var c := s.clients[d.token];
    assert Connection.Valid(c);
    Outbox.InsistRefusesOnlyReliable(c.out, d.pkt);
  }
}
