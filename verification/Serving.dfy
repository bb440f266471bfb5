/** What deliveries do to the connections they do not remove. */
module Serving {
  import opened Bytes
  import opened FanOut
  import opened BrokerModel
  import Outbox
  import Wire
  import Connection

  /**
   A connection after some deliveries: everything CONNECT set is as before, every entry in
   flight is still there unchanged, and new entries have not been retried.
   */
  ghost predicate Kept(c: Connection.State, c': Connection.State) {
    && c'.clientId == c.clientId && c'.cleanSession == c.cleanSession
    && c'.cleanDisconnect == c.cleanDisconnect && c'.will == c.will && c'.received == c.received
    && (Connection.Valid(c) ==> Connection.Valid(c'))
    && (forall pid :: pid in c.inFlight ==> pid in c'.inFlight && c'.inFlight[pid] == c.inFlight[pid])
    && (forall pid :: pid in c'.inFlight && pid !in c.inFlight ==>
          c'.inFlight[pid].retries == 0 && !c'.inFlight[pid].awaitPubcomp)
  }

  /** The connections after some deliveries: some may be gone, the others are kept. */
  ghost predicate Served(cs: map<nat, Connection.State>, cs': map<nat, Connection.State>) {
    cs'.Keys <= cs.Keys && forall t :: t in cs' ==> Kept(cs[t], cs'[t])
  }

  lemma ServedTwice(a: map<nat, Connection.State>, b: map<nat, Connection.State>, c: map<nat, Connection.State>)
    requires Served(a, b) && Served(b, c)
    ensures Served(a, c)
  {
    forall t | t in c
      ensures Kept(a[t], c[t])
    {
      assert Kept(a[t], b[t]) && Kept(b[t], c[t]);
    }
  }

  /**
   What deliveries and answers do to the outgoing side: the batch is not touched, no reliable
   packet leaves the queue, and the packet of every new entry is in it.
   */
  ghost predicate Fed(c: Connection.State, c': Connection.State) {
    && c'.out.pending == c.out.pending && c'.out.off == c.out.off
    && (forall pkt :: Outbox.Queued(true, pkt) in c.out.queue ==> Outbox.Queued(true, pkt) in c'.out.queue)
    && (forall pid :: pid in c'.inFlight ==>
          || (pid in c.inFlight && c'.inFlight[pid].pkt == c.inFlight[pid].pkt)
          || Outbox.Queued(true, c'.inFlight[pid].pkt) in c'.out.queue)
  }

  /** The connections after some deliveries: some may be gone, the others are kept and fed. */
  ghost predicate Supplied(cs: map<nat, Connection.State>, cs': map<nat, Connection.State>) {
    Served(cs, cs') && forall t :: t in cs' ==> Fed(cs[t], cs'[t])
  }

  lemma SuppliedTwice(a: map<nat, Connection.State>, b: map<nat, Connection.State>, c: map<nat, Connection.State>)
    requires Supplied(a, b) && Supplied(b, c)
    ensures Supplied(a, c)
  {
    ServedTwice(a, b, c);
    forall t | t in c
      ensures Fed(a[t], c[t])
    {
      assert Fed(a[t], b[t]) && Fed(b[t], c[t]);
    }
  }

  /** A packet that may be evicted or dropped is added to the queue, or not. */
  lemma OfferFeeds(c: Connection.State, pkt: Bytes)
    ensures Fed(c, c.(out := Outbox.OfferOrDrop(c.out, pkt)))
  {
  }

  lemma DeliverFeeds(c: Connection.State, topic: Bytes, payload: Bytes, qos: Wire.QoS, retain: bool)
    ensures var d := Connection.Deliver(c, topic, payload, qos, retain);
      d.Delivered? ==> Fed(c, d.c)
  {
    var d := Connection.Deliver(c, topic, payload, qos, retain);
    if d.Delivered? && qos > 0 {
      forall pkt | Outbox.Queued(true, pkt) in c.out.queue
        ensures Outbox.Queued(true, pkt) in Outbox.Trimmed(c.out.queue)
      {
        Outbox.TrimmedKeepsReliable(c.out.queue, pkt);
      }
    }
  }

  lemma DeliverKeeps(c: Connection.State, topic: Bytes, payload: Bytes, qos: Wire.QoS, retain: bool)
    ensures var d := Connection.Deliver(c, topic, payload, qos, retain);
      d.Delivered? ==> Kept(c, d.c)
  {
    if Connection.Valid(c) {
      Connection.DeliverKeepsValid(c, topic, payload, qos, retain);
    }
    if qos > 0 && Connection.AllocPid(c.inFlight, c.nextPid).Some? {
      FoundIsFree(c.inFlight.Keys, c.nextPid, c.nextPid, c.nextPid + 65536);
    }
  }

  lemma {:induction false} FoundIsFree(used: set<nat>, next: nat, turn: nat, end: nat)
    ensures var r := Connection.SearchPid(used, next, turn, end);
      r.Some? ==> r.value.0 !in used
    decreases end - turn
  {
    if turn < end {
      FoundIsFree(used, (Connection.Candidate(next) + 1) % 65536, turn + 1, end);
    }
  }

  lemma SendServes(
    cs: map<nat, Connection.State>, token: nat, topic: Bytes, payload: Bytes, qos: Wire.QoS, retain: bool)
    ensures Supplied(cs, Send(cs, token, topic, payload, qos, retain).0)
  {
    if token in cs {
      DeliverKeeps(cs[token], topic, payload, qos, retain);
      DeliverFeeds(cs[token], topic, payload, qos, retain);
    }
  }

  lemma {:induction false} SendAllServes(cs: map<nat, Connection.State>, targets: seq<Subscription>, m: Message)
    ensures Supplied(cs, SendAll(cs, targets, m).0)
    decreases |targets|
  {
    if targets != [] {
      var t := targets[0];
      var cs1 := SendOne(cs, t, m).0;
      SendServes(cs, t.token, m.topic, m.payload, Wire.MinQoS(m.qos, t.qos), false);
      SendAllServes(cs1, targets[1..], m);
      SuppliedTwice(cs, cs1, SendAll(cs1, targets[1..], m).0);
    }
  }

  lemma PublishServes(s: State, m: Message, retain: bool)
    ensures Supplied(s.clients, Publish(s, m, retain).clients)
    ensures Publish(s, m, retain).nextToken == s.nextToken
  {
    var idxs := Order(s.subs, m.topic);
    OrderIsFanout(s.subs, m.topic);
    HitsAreWithin(s.subs, m.topic, idxs);
    SendAllServes(s.clients, Pick(s.subs, idxs), m);
  }

  lemma PublishWillServes(s: State, token: nat)
    ensures Supplied(s.clients, PublishWill(s, token).clients)
    ensures PublishWill(s, token).nextToken == s.nextToken
  {
    if token in s.clients && s.clients[token].will.Some? {
      var w := s.clients[token].will.value;
      PublishServes(s, Message(w.topic, w.message, w.qos), w.retain);
    }
  }

  lemma RemoveServes(s: State, token: nat)
    ensures var r := Remove(s, token);
      r.Some? ==>
        && Supplied(s.clients, r.value.clients) && token !in r.value.clients
        && r.value.nextToken == s.nextToken
  {
    PublishWillServes(s, token);
  }

  lemma FlushedIsKept(c: Connection.State, writes: seq<Outbox.WriteResult>)
    requires c.out.Valid()
    ensures Kept(c, c.(out := Outbox.Flush(c.out, writes).o))
  {
    Outbox.FlushKeepsBytes(c.out, writes);
    var before, after := c.out.queue, Outbox.Flush(c.out, writes).o.queue;
    var n := |before| - |after|;
    forall i | 0 <= i < |after|
      ensures after[i] == before[n + i]
    {
      assert before[n..][i] == before[n + i];
    }
  }

  lemma FlushServes(s: State, token: nat, writes: seq<Outbox.WriteResult>)
    requires token in s.clients && s.clients[token].out.Valid()
    ensures var r := FlushOut(s, token, writes);
      r.Some? ==> Served(s.clients, r.value.clients) && r.value.nextToken == s.nextToken
  {
    var c := s.clients[token].(out := Outbox.Flush(s.clients[token].out, writes).o);
    var s1 := s.(clients := s.clients[token := c]);
    FlushedIsKept(s.clients[token], writes);
    assert Served(s.clients, s1.clients);
    var r := Remove(s1, token);
    RemoveServes(s1, token);
    if r.Some? {
      ServedTwice(s.clients, s1.clients, r.value.clients);
    }
  }

  lemma GiveUpServes(s: State, e: Slot)
    ensures var r := ApplyGiveUp(s, e);
      r.Some? ==>
        && Supplied(s.clients, r.value.clients) && r.value.nextToken == s.nextToken
        && e.token !in r.value.clients
  {
    RemoveServes(s, e.token);
  }

  /** A retry that is refused is a removal. */
  lemma RefusedRetryServes(s: State, d: DueAt)
    requires d.token in s.clients ==> Connection.Retry(s.clients[d.token], d.pid, d.pkt).None?
    ensures var r := ApplyRetry(s, d);
      r.Some? ==> Supplied(s.clients, r.value.clients) && r.value.nextToken == s.nextToken
  {
    RemoveServes(s, d.token);
  }

  lemma {:induction false} ResendServes(
    cs: map<nat, Connection.State>, token: nat, subs: seq<Wish>, queue: seq<Message>)
    ensures Supplied(cs, Resend(cs, token, subs, queue).0)
    decreases |queue|
  {
    if queue != [] {
      var m := queue[0];
      var (cs1, ok) := Send(cs, token, m.topic, m.payload, ResendQoS(subs, m), false);
      SendServes(cs, token, m.topic, m.payload, ResendQoS(subs, m), false);
      if ok {
        ResendServes(cs1, token, subs, queue[1..]);
        SuppliedTwice(cs, cs1, Resend(cs1, token, subs, queue[1..]).0);
      }
    }
  }

  lemma {:induction false} SendRetainedServes(
    cs: map<nat, Connection.State>, token: nat, retained: map<Bytes, Retained>, order: seq<Bytes>, qos: Wire.QoS)
    requires forall t :: t in order ==> t in retained
    ensures Supplied(cs, SendRetained(cs, token, retained, order, qos).0)
    decreases |order|
  {
    if order != [] {
      var m := retained[order[0]];
      var (cs1, ok) := Send(cs, token, order[0], m.payload, Wire.MinQoS(m.qos, qos), true);
      SendServes(cs, token, order[0], m.payload, Wire.MinQoS(m.qos, qos), true);
      if ok {
        SendRetainedServes(cs1, token, retained, order[1..], qos);
        SuppliedTwice(cs, cs1, SendRetained(cs1, token, retained, order[1..], qos).0);
      }
    }
  }

  lemma {:induction false} SubscribeAllServes(s: State, token: nat, wishes: seq<Wish>, orders: seq<seq<Bytes>>)
    requires AreRetainedOrders(s.retained, wishes, orders)
    ensures Supplied(s.clients, SubscribeAll(s, token, wishes, orders).0.clients)
    ensures SubscribeAll(s, token, wishes, orders).0.nextToken == s.nextToken
    decreases |wishes|
  {
    if wishes != [] {
      var (s1, ok) := SubscribeOne(s, token, wishes[0], orders[0]);
      SendRetainedServes(s.clients, token, s.retained, orders[0], wishes[0].qos);
      if ok {
        SubscribeAllServes(s1, token, wishes[1..], orders[1..]);
        SuppliedTwice(s.clients, s1.clients, SubscribeAll(s1, token, wishes[1..], orders[1..]).0.clients);
      }
    }
  }

  lemma ReplyServes(s: State, token: nat, pkt: Bytes)
    ensures Supplied(s.clients, Reply(s, token, pkt).clients)
    ensures Reply(s, token, pkt).nextToken == s.nextToken
  {
    if token in s.clients {
      Connection.OfferKeepsBoundsIfValid(s.clients[token], pkt);
      OfferFeeds(s.clients[token], pkt);
    }
  }

  lemma SubscribeServes(s: State, token: nat, pid: nat, wishes: seq<Wish>, orders: seq<seq<Bytes>>)
    requires AreRetainedOrders(s.retained, wishes, orders)
    ensures Supplied(s.clients, Subscribe(s, token, pid, wishes, orders).0.clients)
    ensures Subscribe(s, token, pid, wishes, orders).0.nextToken == s.nextToken
  {
    var (s1, ok) := SubscribeAll(s, token, wishes, orders);
    SubscribeAllServes(s, token, wishes, orders);
    if ok {
      ReplyServes(s1, token, Wire.BuildSuback(pid, Grants(wishes)));
      SuppliedTwice(s.clients, s1.clients, Reply(s1, token, Wire.BuildSuback(pid, Grants(wishes))).clients);
    }
  }
}
