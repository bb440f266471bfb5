/** What a SUBSCRIBE answers: the retained messages its filters match, and then the SUBACK. */
module Subscribing {
  import opened Bytes
  import opened FanOut
  import opened BrokerModel
  import opened Leftovers
  import opened Forwarding
  import opened Topics
  import Outbox
  import Wire
  import Connection

  /** The retained messages for one filter, at the lower of their QoS and the filter's. */
  function Due(retained: map<Bytes, Retained>, order: seq<Bytes>, qos: Wire.QoS): (ms: seq<Message>)
    requires forall t :: t in order ==> t in retained
    ensures |ms| == |order|
  {
    if order == [] then []
    else
      var m := retained[order[0]];
      [Message(order[0], m.payload, Wire.MinQoS(m.qos, qos))] + Due(retained, order[1..], qos)
  }

  ghost function DueAll(retained: map<Bytes, Retained>, wishes: seq<Wish>, orders: seq<seq<Bytes>>): (ms: seq<Message>)
    requires AreRetainedOrders(retained, wishes, orders)
  {
    if wishes == [] then []
    else
      assert IsRetainedOrder(retained, wishes[0].filter, orders[0]);
      Due(retained, orders[0], wishes[0].qos) + DueAll(retained, wishes[1..], orders[1..])
  }

  // ---- Retained messages

  /** What a publish does to the retained table: it sets, or with an empty payload clears, its own topic. */
  lemma PublishRetains(s: State, m: Message, retain: bool, t: Bytes)
    ensures var r := Publish(s, m, retain).retained;
      if retain && t == m.topic then
        if m.payload == [] then t !in r else t in r && r[t].payload == m.payload && r[t].qos == m.qos
      else (t in r <==> t in s.retained) && (t in r ==> r[t] == s.retained[t])
  {
  }

  lemma {:induction false} DueAt(retained: map<Bytes, Retained>, order: seq<Bytes>, qos: Wire.QoS, i: nat)
    requires (forall t :: t in order ==> t in retained) && i < |order|
    ensures var r := retained[order[i]];
      Due(retained, order, qos)[i] == Message(order[i], r.payload, if qos < r.qos then qos else r.qos)
  {
    if i > 0 {
      DueAt(retained, order[1..], qos, i - 1);
    }
  }

  /**
   A retained publish reaches whoever subscribes after it: the answer to a SUBSCRIBE has a message
   with its topic exactly if the filter matches and the payload is not empty, and then just one,
   with that payload, at the lower QoS.
   */
  lemma RetainedReachesSubscribers(s: State, m: Message, w: Wish, order: seq<Bytes>)
    requires IsRetainedOrder(Publish(s, m, true).retained, w.filter, order)
    ensures var ms := Due(Publish(s, m, true).retained, order, w.qos);
      && (forall i :: 0 <= i < |ms| && ms[i].topic == m.topic ==>
            ms[i] == Message(m.topic, m.payload, if w.qos < m.qos then w.qos else m.qos))
      && ((exists i :: 0 <= i < |ms| && ms[i].topic == m.topic) <==> m.payload != [] && Matches(w.filter, m.topic))
      && (forall i, j :: 0 <= i < j < |ms| ==> ms[i].topic != ms[j].topic)
  {
    var retained := Publish(s, m, true).retained;
    var ms := Due(retained, order, w.qos);
    forall i | 0 <= i < |order|
      ensures ms[i].topic == order[i]
      ensures order[i] == m.topic ==> ms[i] == Message(m.topic, m.payload, if w.qos < m.qos then w.qos else m.qos)
    {
      DueAt(retained, order, w.qos, i);
      PublishRetains(s, m, true, order[i]);
    }
    PublishRetains(s, m, true, m.topic);
    if m.topic in order {
      var i :| 0 <= i < |order| && order[i] == m.topic;
      assert ms[i].topic == m.topic;
    }
  }

  // ---- A whole SUBSCRIBE

  lemma {:induction false} RetainedAnswers(
    cs: map<nat, Connection.State>, token: nat, retained: map<Bytes, Retained>, order: seq<Bytes>, qos: Wire.QoS)
    requires forall t :: t in order ==> t in retained
    requires token in cs && Connection.Valid(cs[token])
    ensures var (cs', ok) := SendRetained(cs, token, retained, order, qos);
      GivesInTurn(cs, cs', token, Due(retained, order, qos), ok, true)
    decreases |order|
  {
    if order == [] {
      GivesNothing(cs, token, true);
    } else {
      var m := Due(retained, order, qos)[0];
      var (cs1, ok) := Send(cs, token, m.topic, m.payload, m.qos, true);
      SendGivesOne(cs, token, m, true);
      var (cs2, ok2) := if ok then SendRetained(cs1, token, retained, order[1..], qos) else (cs1, false);
      if ok {
        RetainedAnswers(cs1, token, retained, order[1..], qos);
      }
      GivesOneMore(cs, cs1, cs2, token, m, Due(retained, order[1..], qos), ok, ok2, true);
    }
  }

  lemma {:induction false} WishesAnswer(s: State, token: nat, wishes: seq<Wish>, orders: seq<seq<Bytes>>)
    requires AreRetainedOrders(s.retained, wishes, orders)
    requires token in s.clients && Connection.Valid(s.clients[token])
    ensures var (s', ok) := SubscribeAll(s, token, wishes, orders);
      && GivesInTurn(s.clients, s'.clients, token, DueAll(s.retained, wishes, orders), ok, true)
      && (ok ==> s'.subs == s.subs + Subscriptions(wishes, token))
      && s' == s.(clients := s'.clients, subs := s'.subs)
    decreases |wishes|
  {
    if wishes == [] {
      GivesNothing(s.clients, token, true);
      AppendNothing(s.subs);
    } else {
      assert IsRetainedOrder(s.retained, wishes[0].filter, orders[0]);
      var first := Due(s.retained, orders[0], wishes[0].qos);
      var (s1, ok) := SubscribeOne(s, token, wishes[0], orders[0]);
      RetainedAnswers(s.clients, token, s.retained, orders[0], wishes[0].qos);
      var later := DueAll(s.retained, wishes[1..], orders[1..]);
      if ok {
        var (s2, ok2) := SubscribeAll(s1, token, wishes[1..], orders[1..]);
        WishesAnswer(s1, token, wishes[1..], orders[1..]);
        GivesTwice(s.clients, s1.clients, s2.clients, token, first, later, ok2, true);
        Assoc(s.subs, [Subscription(wishes[0].filter, token, wishes[0].qos)], Subscriptions(wishes[1..], token));
      } else {
        GivesNoMore(s.clients, s1.clients, token, first, later, true);
      }
    }
  }

  function Subscriptions(wishes: seq<Wish>, token: nat): (r: seq<Subscription>) {
    if wishes == [] then []
    else [Subscription(wishes[0].filter, token, wishes[0].qos)] + Subscriptions(wishes[1..], token)
  }

  /**
   The connection after the answer. With room its queue is the old one, a copy of each message, and
   the SUBACK. A queue that is full by then keeps its reliable packets and gets those of the
   copies, and the SUBACK is dropped. The window has a new entry for each copy above QoS 0.
   */
  ghost predicate HasAnswer(c: Connection.State, c': Connection.State, ms: seq<Message>, suback: Bytes) {
    exists xs, pids :: IsAnswer(c, c', ms, suback, xs, pids)
  }

  ghost predicate IsAnswer(c: Connection.State, c': Connection.State, ms: seq<Message>, suback: Bytes,
    xs: seq<Outbox.Queued>, pids: seq<nat>)
  {
    var was, queue := c.out.queue, c'.out.queue;
    && AreCopies(xs, ms, pids, true)
    && Entered(c.inFlight, c'.inFlight, ms, pids, true)
    && ReliablePart(queue) == ReliablePart(was) + ReliablePart(xs)
    && if |was| + |ms| < Outbox.WRITE_QUEUE_CAP then queue == was + xs + [Outbox.Queued(false, suback)]
       else |queue| == Outbox.WRITE_QUEUE_CAP && queue == PushAll(was, xs)
  }

  lemma AnswerEnds(c: Connection.State, c1: Connection.State, ms: seq<Message>, suback: Bytes)
    requires Took(c, c1, ms, true)
    ensures HasAnswer(c, c1.(out := Outbox.OfferOrDrop(c1.out, suback)), ms, suback)
  {
    var xs, pids :| Holds(c, c1, ms, xs, pids, true);
    var c2 := c1.(out := Outbox.OfferOrDrop(c1.out, suback));
    if |c.out.queue| + |ms| < Outbox.WRITE_QUEUE_CAP {
      PushAllWithRoom(c.out.queue, xs);
      PartSnoc(c1.out.queue, Outbox.Queued(false, suback));
      AppendNothing(ReliablePart(c1.out.queue));
    }
    assert IsAnswer(c, c2, ms, suback, xs, pids);
  }

  lemma ReplyIsElsewhereSame(s: State, token: nat, pkt: Bytes)
    ensures SameElsewhere(s.clients, Reply(s, token, pkt).clients, token)
  {
  }

  /**
   A SUBSCRIBE succeeds exactly when the connection has room for the retained messages it gets.
   Then all its filters are subscribed, and the queue has a copy of each, filter by filter, with
   the retain flag, and then the SUBACK with the QoS asked for.
   */
  lemma SubscribeAnswers(s: State, token: nat, pid: nat, wishes: seq<Wish>, orders: seq<seq<Bytes>>)
    requires AreRetainedOrders(s.retained, wishes, orders)
    requires token in s.clients && Connection.Valid(s.clients[token])
    ensures var r, c := SubscribeArm(s, token, pid, wishes, orders), s.clients[token];
      var ms := DueAll(s.retained, wishes, orders);
      var suback := Wire.BuildSuback(pid, Grants(wishes));
      if HasRoomFor(c, ms) then
        && r.Fine? && SameElsewhere(s.clients, r.s.clients, token)
        && r.s == s.(clients := r.s.clients, subs := r.s.subs)
        && r.s.subs == s.subs + Subscriptions(wishes, token) && token in r.s.clients
        && |r.s.clients[token].inFlight| == |c.inFlight| + AboveZero(ms)
        && HasAnswer(c, r.s.clients[token], ms, suback)
      else
        r.Error? && (|c.out.queue| + |ms| <= Outbox.WRITE_QUEUE_CAP ==> token !in r.s.clients)
  {
    WishesAnswer(s, token, wishes, orders);
    var (s1, ok) := SubscribeAll(s, token, wishes, orders);
    ReplyIsElsewhereSame(s1, token, Wire.BuildSuback(pid, Grants(wishes)));
    if ok {
      AnswerEnds(s.clients[token], s1.clients[token], DueAll(s.retained, wishes, orders),
        Wire.BuildSuback(pid, Grants(wishes)));
    }
  }
}
