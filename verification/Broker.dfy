/**
 The broker object: its tables are updated in place, the subscription index beside them, and
 every method is proved against the function of the same event in `BrokerModel`.
 */
module Brokers {
  import opened Bytes
  import opened Topics
  import opened SubscriptionTrie
  import opened FanOut
  import opened BrokerModel
  import opened Clients
  import Outbox
  import Wire
  import Connection

  /** How an arm ends, as the caller is told. */
  datatype End = Done | Failed | Panicked

  /** After a panic there is no state to speak of. */
  ghost predicate Ends(end: End, s: State, r: Ending) {
    match r
    case Fine(s') => end == Done && s == s'
    case Error(s') => end == Failed && s == s'
    case Panic => end == Panicked
  }

  class Broker {
    var clients: map<nat, Connection.State>
    var subs: seq<Subscription>
    var subsExact: map<Bytes, seq<nat>>
    var subsWild: Trie
    var nextToken: nat
    var retained: map<Bytes, Retained>
    var sessions: map<Bytes, Stored>
    var received: nat

    /** Both tiers of the index describe `subs` as it is now. */
    ghost predicate Indexed()
      reads this`subs, this`subsExact, this`subsWild, subsWild, subsWild.Repr
    {
      && subsWild.Valid()
      && subsWild.entries == WildEntries(subs)
      && ExactTable(subsExact, subs)
    }

    function View(): (s: State)
      reads this
    {
      State(clients, subs, retained, sessions, nextToken, received)
    }

    constructor ()
      ensures Indexed() && fresh(subsWild) && fresh(subsWild.Repr)
      ensures View() == State(map[], [], map[], map[], 1, 0)
    {
      clients, subs, subsExact, nextToken := map[], [], map[], 1;
      retained, sessions, received := map[], map[], 0;
      subsWild := new Trie();
    }

    // ---- The index

    /** `add_sub`: appending renumbers nothing, so only the new subscription is indexed. */
    method AddSub(filter: Bytes, token: nat, qos: Wire.QoS)
      requires Indexed()
      modifies this`subs, this`subsExact, subsWild, subsWild.Repr
      ensures Indexed() && fresh(subsWild.Repr - old(subsWild.Repr))
      ensures subs == old(subs) + [Subscription(filter, token, qos)]
    {
      var idx := |subs|;
      ghost var before := subs;
      subs := subs + [Subscription(filter, token, qos)];
      assert subs[..idx] == before;
      IndexOne(idx, filter);
      assert subs[..idx + 1] == subs;
    }

    /** Enters one subscription into its tier. */
    method IndexOne(idx: nat, filter: Bytes)
      requires idx < |subs| && subs[idx].filter == filter
      requires subsWild.Valid() && subsWild.entries == WildEntries(subs[..idx]) && ExactTable(subsExact, subs[..idx])
      modifies this`subsExact, subsWild, subsWild.Repr
      ensures subsWild.Valid() && subsWild.entries == WildEntries(subs[..idx + 1])
      ensures ExactTable(subsExact, subs[..idx + 1])
      ensures fresh(subsWild.Repr - old(subsWild.Repr))
    {
      ghost var upTo := subs[..idx + 1];
      assert upTo[..idx] == subs[..idx];
      if IsWild(filter) {
        subsWild.Insert(idx, Split(filter));
      } else {
        var list := if filter in subsExact then subsExact[filter] else [];
        subsExact := subsExact[filter := list + [idx]];
      }
      ExactTableGrows(old(subsExact), subsExact, upTo);
    }

    /** Rebuilds both tiers, whatever they held. */
    method RebuildIndex()
      modifies this`subsExact, subsWild, subsWild.Repr
      ensures Indexed() && fresh(subsWild.Repr)
    {
      subsExact := map[];
      subsWild.Clear();
      var idx := 0;
      while idx < |subs|
        invariant idx <= |subs|
        invariant subsWild.Valid() && fresh(subsWild.Repr)
        invariant subsWild.entries == WildEntries(subs[..idx]) && ExactTable(subsExact, subs[..idx])
      {
        IndexOne(idx, subs[idx].filter);
        idx := idx + 1;
      }
      assert subs[..idx] == subs;
    }

    /** The index walk of `publish`, up to the sorted list of subscriptions to try. */
    method Route(topic: Bytes) returns (idxs: seq<nat>)
      requires Indexed()
      ensures idxs == Order(subs, topic)
    {
      idxs := [];
      if topic in subsExact {
        idxs := subsExact[topic];
      }
      var pruned;
      idxs, pruned := subsWild.Collect(topic, idxs, 0);
      assert idxs == Candidates(subs, topic);
      CandidatesMatch(subs, topic);
      idxs := RetainMatching(topic, idxs);
      SortedCandidates(subs, topic);
      idxs := SortDown(idxs);
    }

    /** `idxs.retain(..)`: the final check, which never removes anything. */
    method RetainMatching(topic: Bytes, idxs: seq<nat>) returns (r: seq<nat>)
      requires forall k :: 0 <= k < |idxs| ==> Hit(subs, topic, idxs[k])
      ensures r == idxs
    {
      r := [];
      for k := 0 to |idxs|
        invariant r == idxs[..k]
      {
        assert Hit(subs, topic, idxs[k]);
        var ok := TopicMatches(subs[idxs[k]].filter, topic);
        if ok {
          r := r + [idxs[k]];
        }
      }
    }

    // ---- Delivering

    method DeliverTo(token: nat, topic: Bytes, payload: Bytes, fwdQos: Wire.QoS, retain: bool) returns (ok: bool)
      modifies this`clients
      ensures (clients, ok) == Send(old(clients), token, topic, payload, fwdQos, retain)
    {
      if token !in clients {
        return false;
      }
      var c := new Client.Borrow(clients[token]);
      var fate := c.Deliver(topic, payload, fwdQos, retain);
      match fate
      case Accepted =>
        clients := clients[token := c.State()];
        ok := true;
      case Dropped =>
        ok := false;
      case GivenUp =>
        clients := clients - {token};
        ok := false;
    }

    /**
     `publish`; returns the number of subscriptions that took the message: of those that match,
     all but the ones that were pruned.
     */
    method Publish(topic: Bytes, payload: Bytes, srcQos: Wire.QoS, retain: bool) returns (delivered: nat)
      requires Indexed()
      modifies this, subsWild, subsWild.Repr
      ensures Indexed() && subsWild == old(subsWild) && fresh(subsWild.Repr - old(subsWild.Repr))
      ensures View() == BrokerModel.Publish(old(View()), Message(topic, payload, srcQos), retain)
      ensures delivered + |old(subs)| == |subs| + |Order(old(subs), topic)|
    {
      ghost var s, m := View(), Message(topic, payload, srcQos);
      if retain {
        RetainMessage(topic, payload, srcQos);
      }
      if subs == [] && sessions == map[] {
        PublishToNobody(s, m, retain);
        return 0;
      }
      delivered := RouteMessage(topic, payload, srcQos);
      PublishInStages(s, m, retain, clients, subs, retained, sessions);
    }

    /** What follows the retained table: the fan-out, and the offline stage. */
    method RouteMessage(topic: Bytes, payload: Bytes, srcQos: Wire.QoS) returns (delivered: nat)
      requires Indexed()
      modifies this`clients, this`subs, this`subsExact, this`sessions, subsWild, subsWild.Repr
      ensures Indexed() && fresh(subsWild.Repr - old(subsWild.Repr))
      ensures (clients, subs) == Fan(old(clients), old(subs), Message(topic, payload, srcQos))
      ensures sessions == if srcQos > 0 then StashAll(old(sessions), Message(topic, payload, srcQos)) else old(sessions)
      ensures delivered + |old(subs)| == |subs| + |Order(old(subs), topic)|
    {
      delivered := FanOutTo(topic, payload, srcQos);
      if srcQos > 0 {
        StashOffline(topic, payload, srcQos);
      }
    }

    /** An empty payload clears the topic. */
    method RetainMessage(topic: Bytes, payload: Bytes, srcQos: Wire.QoS)
      modifies this`retained
      ensures retained == Retain(old(retained), Message(topic, payload, srcQos))
    {
      if payload == [] {
        retained := retained - {topic};
      } else {
        retained := retained[topic := Retained(payload, srcQos)];
      }
    }

    /** The fan-out, and the new index it needs when subscriptions were removed. */
    method FanOutTo(topic: Bytes, payload: Bytes, srcQos: Wire.QoS) returns (delivered: nat)
      requires Indexed()
      modifies this`clients, this`subs, this`subsExact, subsWild, subsWild.Repr
      ensures Indexed() && fresh(subsWild.Repr - old(subsWild.Repr))
      ensures (clients, subs) == Fan(old(clients), old(subs), Message(topic, payload, srcQos))
      ensures delivered + |old(subs)| == |subs| + |Order(old(subs), topic)|
    {
      var idxs := Route(topic);
      OrderIsFanout(subs, topic);
      HitsAreWithin(subs, topic, idxs);
      WalkTriesOriginals(clients, subs, idxs, Message(topic, payload, srcQos));
      var dead;
      delivered, dead := TryEach(topic, payload, srcQos, idxs);
      if dead > 0 {
        RebuildIndex();
      }
    }

    /** The loop of the fan-out: descending, removing failed subscriptions as it goes. */
    method TryEach(topic: Bytes, payload: Bytes, srcQos: Wire.QoS, idxs: seq<nat>) returns (delivered: nat, dead: nat)
      requires Descending(idxs) && Within(idxs, |subs|)
      modifies this`clients, this`subs
      ensures (clients, subs) == Walk(old(clients), old(subs), idxs, Message(topic, payload, srcQos))
      ensures dead == 0 ==> subs == old(subs)
      ensures delivered + dead == |idxs| && |subs| + dead == |old(subs)|
    {
      delivered, dead := 0, 0;
      for k := 0 to |idxs|
        invariant Within(idxs[k..], |subs|)
        invariant Walk(clients, subs, idxs[k..], Message(topic, payload, srcQos))
          == Walk(old(clients), old(subs), idxs, Message(topic, payload, srcQos))
        invariant dead == 0 ==> subs == old(subs)
        invariant delivered + dead == k && |subs| + dead == |old(subs)|
      {
        DropDrop(idxs, k, 1);
        assert idxs[k..][0] == idxs[k];
        var i := idxs[k];
        var s := subs[i];
        var ok := DeliverTo(s.token, topic, payload, Wire.MinQoS(srcQos, s.qos), false);
        if ok {
          delivered := delivered + 1;
        } else {
          subs := SwapRemove(subs, i);
          dead := dead + 1;
        }
      }
    }

    /** The offline stage: first the sessions that want the message, then a copy for each with room. */
    method StashOffline(topic: Bytes, payload: Bytes, srcQos: Wire.QoS)
      modifies this`sessions
      ensures sessions == StashAll(old(sessions), Message(topic, payload, srcQos))
    {
      ghost var m := Message(topic, payload, srcQos);
      var target := SessionsWanting(topic);
      var left := target.Keys;
      while left != {}
        invariant left <= target.Keys && sessions.Keys == old(sessions).Keys
        invariant forall cid :: cid in sessions ==>
          sessions[cid] == if cid in left then old(sessions)[cid] else Stash(old(sessions)[cid], m)
        decreases left
      {
        var cid :| cid in left;
        left := left - {cid};
        var sess := sessions[cid];
        if |sess.offline| < OFFLINE_CAP {
          var copy := Message(topic, payload, Wire.MinQoS(srcQos, target[cid]));
          sessions := sessions[cid := sess.(offline := sess.offline + [copy])];
        }
      }
    }

    /** The QoS at which each session that wants the message wants it. */
    method SessionsWanting(topic: Bytes) returns (target: map<Bytes, Wire.QoS>)
      ensures target.Keys <= sessions.Keys
      ensures forall cid :: cid in sessions ==>
        FirstMatch(sessions[cid].subs, topic) == if cid in target then Some(target[cid]) else None
    {
      target := map[];
      var todo := sessions.Keys;
      while todo != {}
        invariant todo <= sessions.Keys && target.Keys <= sessions.Keys - todo
        invariant forall cid :: cid in sessions && cid !in todo ==>
          FirstMatch(sessions[cid].subs, topic) == if cid in target then Some(target[cid]) else None
        decreases todo
      {
        var cid :| cid in todo;
        todo := todo - {cid};
        var first := FirstMatching(sessions[cid].subs, topic);
        if first.Some? {
          target := target[cid := first.value];
        }
      }
    }

    /** The inner loop of the offline stage, which stops at the first match. */
    method FirstMatching(wishes: seq<Wish>, topic: Bytes) returns (r: Option<Wire.QoS>)
      ensures r == FirstMatch(wishes, topic)
    {
      for i := 0 to |wishes|
        invariant FirstMatch(wishes, topic) == FirstMatch(wishes[i..], topic)
      {
        var ok := TopicMatches(wishes[i].filter, topic);
        if ok {
          return Some(wishes[i].qos);
        }
        DropDrop(wishes, i, 1);
      }
      r := None;
    }

    // ---- Leaving

    method PublishLwt(token: nat)
      requires Indexed()
      modifies this, subsWild, subsWild.Repr
      ensures Indexed() && subsWild == old(subsWild) && fresh(subsWild.Repr - old(subsWild.Repr))
      ensures View() == PublishWill(old(View()), token)
    {
      if token in clients && clients[token].will.Some? {
        var w := clients[token].will.value;
        var _ := Publish(w.topic, w.message, w.qos, w.retain);
      }
    }

    /** `remove_client`; `ok` is false when reading back a queued packet panics. */
    method RemoveClient(token: nat) returns (ok: bool)
      requires Indexed()
      modifies this, subsWild, subsWild.Repr
      ensures ok == Remove(old(View()), token).Some?
      ensures ok ==> Indexed() && subsWild == old(subsWild) && fresh(subsWild.Repr - old(subsWild.Repr))
      ensures ok ==> View() == Remove(old(View()), token).value
    {
      var clean := token in clients && clients[token].cleanDisconnect;
      if !clean {
        PublishLwt(token);
      }
      ok := Bury(token);
    }

    /** The second half of `remove_client`. */
    method Bury(token: nat) returns (ok: bool)
      modifies this`sessions, this`clients, this`subs, this`subsExact, subsWild, subsWild.Repr
      ensures ok == BrokerModel.Bury(old(View()), token).Some?
      ensures ok ==> Indexed() && fresh(subsWild.Repr)
      ensures ok ==> View() == BrokerModel.Bury(old(View()), token).value
    {
      ghost var s := View();
      if token in clients && !clients[token].cleanSession && clients[token].clientId != [] {
        ok := SaveSession(token);
        if !ok {
          return;
        }
      }
      BuryInStages(s, token, sessions);
      RetainOthers(token);
      clients := clients - {token};
      ok := true;
    }

    /** `subs.retain(|s| s.token != token)` and the new index. */
    method RetainOthers(token: nat)
      modifies this`subs, this`subsExact, subsWild, subsWild.Repr
      ensures Indexed() && fresh(subsWild.Repr)
      ensures subs == Others(old(subs), token)
    {
      var kept: seq<Subscription> := [];
      for i := 0 to |subs|
        invariant kept == Others(subs[..i], token)
      {
        assert subs[..i + 1][..i] == subs[..i];
        if subs[i].token != token {
          kept := kept + [subs[i]];
        }
      }
      assert subs[..|subs|] == subs;
      subs := kept;
      RebuildIndex();
    }

    /** Moves the subscriptions and the unsent reliable messages of a client to the store. */
    method SaveSession(token: nat) returns (ok: bool)
      requires Persistent(View(), token)
      modifies this`sessions
      ensures ok == Save(old(View()), token).Some?
      ensures ok ==> sessions == Save(old(View()), token).value
    {
      var c := clients[token];
      var mine := CollectMine(token);
      var queued := ReadQueue(c.out.queue);
      if queued.None? {
        return false;
      }
      var entry := if c.clientId in sessions then sessions[c.clientId] else Stored([], []);
      for i := 0 to |mine|
        invariant entry.subs == Merge(if c.clientId in sessions then sessions[c.clientId].subs else [], mine[..i])
        invariant entry.offline == if c.clientId in sessions then sessions[c.clientId].offline else []
      {
        assert mine[..i + 1][..i] == mine[..i];
        if mine[i] !in entry.subs {
          entry := entry.(subs := entry.subs + [mine[i]]);
        }
      }
      assert mine[..|mine|] == mine;
      var offline := AppendQueued(entry.offline, queued.value);
      entry := entry.(offline := offline);
      sessions := sessions[c.clientId := entry];
      ok := true;
    }

    method CollectMine(token: nat) returns (mine: seq<Wish>)
      ensures mine == Mine(subs, token)
    {
      mine := [];
      for i := 0 to |subs|
        invariant mine == Mine(subs[..i], token)
      {
        assert subs[..i + 1][..i] == subs[..i];
        if subs[i].token == token {
          mine := mine + [Wish(subs[i].filter, subs[i].qos)];
        }
      }
      assert subs[..|subs|] == subs;
    }

    /** The reliable packets of a queue, taken apart again. */
    method ReadQueue(queue: seq<Outbox.Queued>) returns (r: Option<seq<Message>>)
      ensures r == ReadBack(queue)
    {
      var ms: seq<Message> := [];
      var i := |queue|;
      for k := 0 to |queue|
        invariant ReadBack(queue[..k]) == Some(ms)
      {
        assert queue[..k + 1][..k] == queue[..k];
        if queue[k].reliable {
          var d := Wire.DecodeQueued(queue[k].pkt);
          if d.None? {
            ReadBackFails(queue, k + 1);
            return None;
          }
          ms := ms + [Message(d.value.0, d.value.1, d.value.2)];
        }
      }
      assert queue[..|queue|] == queue;
      r := Some(ms);
    }

    // ---- CONNECT

    /** The CONNECT arm. */
    method Connect(token: nat, h: Hello) returns (end: End)
      requires Indexed()
      modifies this, subsWild, subsWild.Repr
      ensures Ends(end, View(), ConnectArm(old(View()), token, h))
      ensures Indexed() && subsWild == old(subsWild) && fresh(subsWild.Repr - old(subsWild.Repr))
    {
      if token !in clients {
        return Panicked;
      }
      var ok := TakeUp(token, h);
      end := if ok then Done else Failed;
    }

    method TakeUp(token: nat, h: Hello) returns (ok: bool)
      requires Indexed() && token in clients
      modifies this, subsWild, subsWild.Repr
      ensures Indexed() && subsWild == old(subsWild) && fresh(subsWild.Repr - old(subsWild.Repr))
      ensures (View(), ok) == BrokerModel.Connect(old(View()), token, h)
    {
      ghost var s := View();
      OpenSession(token, h);
      ghost var s1 := View();
      ok := Welcome(token, h);
      ConnectInStages(s, token, h, s1, View(), ok);
    }

    /** Greets the client, sends what its stored session holds, and then forgets the session. */
    method Welcome(token: nat, h: Hello) returns (ok: bool)
      requires token in clients && (h.cleanSession ==> h.clientId !in sessions)
      modifies this`clients, this`sessions
      ensures IsWelcomed(old(View()), token, h, View(), ok)
    {
      Greet(token, h);
      if !h.cleanSession {
        if h.clientId in sessions {
          ok := FlushStored(token, sessions[h.clientId].subs, sessions[h.clientId].offline);
          if !ok {
            return;
          }
        }
        sessions := sessions - {h.clientId};
      }
      ok := true;
    }

    /** A clean session forgets the stored one; otherwise its subscriptions come back. */
    method OpenSession(token: nat, h: Hello)
      requires Indexed()
      modifies this`subs, this`subsExact, this`sessions, subsWild, subsWild.Repr
      ensures Indexed() && fresh(subsWild.Repr - old(subsWild.Repr))
      ensures IsOpened(old(View()), token, h, View())
    {
      if h.cleanSession {
        sessions := sessions - {h.clientId};
      } else if h.clientId in sessions {
        RestoreSubs(token, sessions[h.clientId].subs);
      }
    }

    method RestoreSubs(token: nat, wishes: seq<Wish>)
      requires Indexed()
      modifies this`subs, this`subsExact, subsWild, subsWild.Repr
      ensures Indexed() && fresh(subsWild.Repr - old(subsWild.Repr))
      ensures subs == old(subs) + Restored(wishes, token)
    {
      for i := 0 to |wishes|
        invariant Indexed() && fresh(subsWild.Repr - old(subsWild.Repr))
        invariant subs == old(subs) + Restored(wishes[..i], token)
      {
        assert wishes[..i + 1][..i] == wishes[..i];
        AddSub(wishes[i].filter, token, wishes[i].qos);
      }
      assert wishes[..|wishes|] == wishes;
    }

    /** What CONNECT sets on the connection, and the CONNACK. */
    method Greet(token: nat, h: Hello)
      requires token in clients
      modifies this`clients
      ensures clients == old(clients)[token := Greeted(old(clients)[token], h)]
    {
      var c := new Client.Borrow(clients[token]);
      c.clientId, c.cleanSession, c.will := h.clientId, h.cleanSession, h.will;
      var _ := c.QueueQos0(Wire.BuildConnack());
      clients := clients[token := c.State()];
    }

    /** Sends the stored messages; stops when the client is dropped. */
    method FlushStored(token: nat, wishes: seq<Wish>, queue: seq<Message>) returns (ok: bool)
      modifies this`clients
      ensures (clients, ok) == Resend(old(clients), token, wishes, queue)
    {
      assert queue[0..] == queue;
      for i := 0 to |queue|
        invariant Resend(clients, token, wishes, queue[i..]) == Resend(old(clients), token, wishes, queue)
      {
        DropDrop(queue, i, 1);
        assert queue[i..][0] == queue[i];
        var m := queue[i];
        var cap := FirstMatching(wishes, m.topic);
        var dqos := if cap.Some? then Wire.MinQoS(m.qos, cap.value) else m.qos;
        ok := DeliverTo(token, m.topic, m.payload, dqos, false);
        if !ok {
          return;
        }
      }
      ok := true;
    }

    // ---- SUBSCRIBE and UNSUBSCRIBE

    /** One filter of a SUBSCRIBE; `order` is the order in which the retained table was walked. */
    method SubscribeFilter(token: nat, w: Wish) returns (ok: bool, ghost order: seq<Bytes>)
      requires Indexed()
      modifies this`clients, this`subs, this`subsExact, subsWild, subsWild.Repr
      ensures Indexed() && fresh(subsWild.Repr - old(subsWild.Repr))
      ensures IsRetainedOrder(retained, w.filter, order)
      ensures (View(), ok) == SubscribeOne(old(View()), token, w, order)
    {
      ghost var s := View();
      AddSub(w.filter, token, w.qos);
      ghost var s1 := View();
      var hits := RetainedMatching(w.filter);
      order := hits;
      ok := DeliverRetained(token, hits, w.qos);
      SubscribeInStages(s, token, w, order, s1, View(), ok);
    }

    /** The stored topics a filter matches, in whatever order the table is iterated. */
    method RetainedMatching(filter: Bytes) returns (hits: seq<Bytes>)
      ensures IsRetainedOrder(retained, filter, hits)
    {
      hits := [];
      var todo := retained.Keys;
      while todo != {}
        invariant todo <= retained.Keys
        invariant forall t :: t in hits <==> t in retained && t !in todo && Matches(filter, t)
        invariant forall i, j :: 0 <= i < j < |hits| ==> hits[i] != hits[j]
        decreases todo
      {
        var t :| t in todo;
        todo := todo - {t};
        var ok := TopicMatches(filter, t);
        if ok {
          hits := hits + [t];
        }
      }
    }

    method DeliverRetained(token: nat, hits: seq<Bytes>, qos: Wire.QoS) returns (ok: bool)
      requires forall t :: t in hits ==> t in retained
      modifies this`clients
      ensures (clients, ok) == SendRetained(old(clients), token, retained, hits, qos)
    {
      assert hits[0..] == hits;
      for i := 0 to |hits|
        invariant SendRetained(clients, token, retained, hits[i..], qos)
          == SendRetained(old(clients), token, retained, hits, qos)
      {
        DropDrop(hits, i, 1);
        assert hits[i..][0] == hits[i];
        var m := retained[hits[i]];
        ok := DeliverTo(token, hits[i], m.payload, Wire.MinQoS(m.qos, qos), true);
        if !ok {
          return;
        }
      }
      ok := true;
    }

    /** The SUBSCRIBE arm. */
    method Subscribe(token: nat, pid: nat, wishes: seq<Wish>) returns (end: End, ghost orders: seq<seq<Bytes>>)
      requires Indexed()
      modifies this`clients, this`subs, this`subsExact, subsWild, subsWild.Repr
      ensures Indexed() && fresh(subsWild.Repr - old(subsWild.Repr))
      ensures AreRetainedOrders(retained, wishes, orders)
      ensures Ends(end, View(), SubscribeArm(old(View()), token, pid, wishes, orders))
    {
      var ok;
      ok, orders := SubscribeWishes(token, wishes);
      if !ok {
        return Failed, orders;
      }
      if token !in clients {
        return Panicked, orders;
      }
      AnswerTo(token, Wire.BuildSuback(pid, Grants(wishes)));
      end := Done;
    }

    /** The loop over the filters of a SUBSCRIBE. */
    method SubscribeWishes(token: nat, wishes: seq<Wish>) returns (ok: bool, ghost orders: seq<seq<Bytes>>)
      requires Indexed()
      modifies this`clients, this`subs, this`subsExact, subsWild, subsWild.Repr
      ensures Indexed() && fresh(subsWild.Repr - old(subsWild.Repr))
      ensures AreRetainedOrders(retained, wishes, orders)
      ensures (View(), ok) == SubscribeAll(old(View()), token, wishes, orders)
      decreases |wishes|
    {
      if wishes == [] {
        return true, [];
      }
      ghost var order;
      ok, order := SubscribeFilter(token, wishes[0]);
      if ok {
        ok, orders := SubscribeWishes(token, wishes[1..]);
      } else {
        orders := SomeOrders(retained, wishes[1..]);
      }
      OrdersCons(retained, wishes, order, orders);
      orders := [order] + orders;
    }

    /** Queues an answer for a connection that may just have been dropped. */
    method AnswerTo(token: nat, pkt: Bytes)
      modifies this`clients
      ensures View() == Reply(old(View()), token, pkt)
    {
      if token in clients {
        var c := new Client.Borrow(clients[token]);
        var _ := c.QueueQos0(pkt);
        clients := clients[token := c.State()];
      }
    }

    /** The UNSUBSCRIBE arm. */
    method Unsubscribe(token: nat, pid: nat, filters: seq<Bytes>) returns (end: End)
      modifies this`clients, this`subs, this`subsExact, subsWild, subsWild.Repr
      ensures Indexed() && fresh(subsWild.Repr)
      ensures Ends(end, View(), UnsubscribeArm(old(View()), token, pid, filters))
    {
      DropFilters(token, filters);
      if token !in clients {
        return Panicked;
      }
      AnswerTo(token, Wire.BuildAck(Wire.UNSUBACK, pid));
      end := Done;
    }

    /** `subs.retain(..)` of the UNSUBSCRIBE arm, and the new index. */
    method DropFilters(token: nat, filters: seq<Bytes>)
      modifies this`subs, this`subsExact, subsWild, subsWild.Repr
      ensures Indexed() && fresh(subsWild.Repr)
      ensures subs == Unsubscribed(old(subs), token, filters)
    {
      var kept: seq<Subscription> := [];
      for i := 0 to |subs|
        invariant kept == Unsubscribed(subs[..i], token, filters)
      {
        assert subs[..i + 1][..i] == subs[..i];
        if !(subs[i].token == token && subs[i].filter in filters) {
          kept := kept + [subs[i]];
        }
      }
      assert subs[..|subs|] == subs;
      subs := kept;
      RebuildIndex();
    }

    // ---- PUBLISH and the acknowledgements

    /** The PUBLISH arm with its fast path. */
    method HandlePublish(token: nat, flags: nat, body: Bytes) returns (end: End)
      requires Indexed()
      modifies this, subsWild, subsWild.Repr
      ensures Ends(end, View(), PublishArm(old(View()), token, flags, body))
      ensures Indexed() && subsWild == old(subsWild) && fresh(subsWild.Repr - old(subsWild.Repr))
    {
      if flags % 2 == 0 && subs == [] && sessions == map[] {
        end := PublishFast(token, flags, body);
      } else {
        end := PublishSlow(token, flags, body);
      }
    }

    method PublishFast(token: nat, flags: nat, body: Bytes) returns (end: End)
      requires NoRouting(View(), flags)
      modifies this`clients, this`received
      ensures Ends(end, View(), PublishArm(old(View()), token, flags, body))
    {
      var qos := Wire.QosOf(flags);
      var isDup := false;
      if qos == 1 || qos == 2 {
        var p := Wire.ParsePidOnly(body);
        if p.None? {
          return Failed;
        }
        if token !in clients {
          return Panicked;
        }
        isDup := AnswerPublish(token, qos, p.value);
      }
      if !isDup {
        received := received + 1;
      }
      end := Done;
    }

    method PublishSlow(token: nat, flags: nat, body: Bytes) returns (end: End)
      requires Indexed() && !NoRouting(View(), flags)
      modifies this, subsWild, subsWild.Repr
      ensures Ends(end, View(), PublishArm(old(View()), token, flags, body))
      ensures Indexed() && subsWild == old(subsWild) && fresh(subsWild.Repr - old(subsWild.Repr))
    {
      var p := Wire.ParsePublish(flags, body);
      if Wire.QosOf(flags) > 0 {
        Wire.PidOnlyAgrees(flags, body);
      }
      if p.None? {
        return Failed;
      }
      if (p.value.qos == 1 || p.value.qos == 2) && token !in clients {
        return Panicked;
      }
      TakePublish(token, p.value);
      end := Done;
    }

    method TakePublish(token: nat, m: Wire.Publish)
      requires Indexed() && CanAnswer(clients, token, m.qos)
      modifies this, subsWild, subsWild.Repr
      ensures View() == BrokerModel.TakePublish(old(View()), token, m)
      ensures Indexed() && subsWild == old(subsWild) && fresh(subsWild.Repr - old(subsWild.Repr))
    {
      var seenDup := AnswerPublish(token, m.qos, if m.pid.Some? then m.pid.value else 0);
      if !seenDup {
        var _ := Publish(m.topic, m.payload, m.qos, m.retain);
        received := received + 1;
      }
    }

    method AnswerPublish(token: nat, qos: Wire.QoS, pid: nat) returns (dup: bool)
      requires CanAnswer(clients, token, qos)
      modifies this`clients
      ensures (clients, dup) == AnswerIn(old(clients), token, qos, pid)
    {
      dup := false;
      if qos == 1 || qos == 2 {
        var c := new Client.Borrow(clients[token]);
        dup := c.AnswerPublish(qos, pid);
        clients := clients[token := c.State()];
      }
    }

    /** The arms for PUBACK, PUBREC, PUBREL and PUBCOMP. */
    method HandleAck(token: nat, ptype: nat, body: Bytes) returns (end: End)
      requires Wire.PUBACK <= ptype <= Wire.PUBCOMP
      modifies this`clients
      ensures Ends(end, View(), AckArm(old(View()), token, ptype, body))
    {
      if |body| < 2 {
        return Failed;
      }
      if token !in clients {
        return Panicked;
      }
      var pid := FromBe16(body[0], body[1]);
      var c := new Client.Borrow(clients[token]);
      if ptype == Wire.PUBREC {
        c.OnPubrec(pid);
      } else if ptype == Wire.PUBREL {
        c.OnPubrel(pid);
      } else {
        c.OnPuback(pid);
      }
      clients := clients[token := c.State()];
      end := Done;
    }

    /** The PINGREQ arm. */
    method Ping(token: nat) returns (end: End)
      modifies this`clients
      ensures Ends(end, View(), PingArm(old(View()), token))
    {
      if token !in clients {
        return Panicked;
      }
      AnswerTo(token, Wire.BuildPingresp());
      end := Done;
    }

    /** The DISCONNECT arm, which ends with an error, for which the caller removes the client. */
    method Leave(token: nat) returns (end: End)
      modifies this`clients
      ensures Ends(end, View(), LeaveArm(old(View()), token))
    {
      if token !in clients {
        return Panicked;
      }
      clients := clients[token := clients[token].(cleanDisconnect := true)];
      end := Failed;
    }

    // ---- The dispatch

    /** One turn of the dispatch. */
    method HandlePacket(token: nat, p: Parsed) returns (end: End, ghost r: Ending)
      requires Indexed()
      modifies this, subsWild, subsWild.Repr
      ensures Handles(old(View()), token, p, r) && Ends(end, View(), r)
      ensures Indexed() && subsWild == old(subsWild) && fresh(subsWild.Repr - old(subsWild.Repr))
    {
      ghost var s, orders := View(), [];
      match p {
        case ConnectPacket(h) => end := Connect(token, h);
        case SubscribePacket(pid, wishes) => end, orders := Subscribe(token, pid, wishes);
        case UnsubscribePacket(pid, filters) => end := Unsubscribe(token, pid, filters);
        case PublishPacket(flags, body) => end := HandlePublish(token, flags, body);
        case AckPacket(ptype, body) =>
          if Wire.PUBACK <= ptype && ptype <= Wire.PUBCOMP {
            end := HandleAck(token, ptype, body);
          } else {
            end := Failed;
          }
        case PingPacket => end := Ping(token);
        case DisconnectPacket => end := Leave(token);
        case BadPacket => end := Failed;
      }
      r := Handle(s, token, p, orders);
    }

    /** The dispatch loop over the packets of one buffer, which ends at the first error. */
    method HandlePackets(token: nat, ps: seq<Parsed>) returns (end: End, ghost r: Ending)
      requires Indexed()
      modifies this, subsWild, subsWild.Repr
      ensures HandlesAll(old(View()), token, ps, r) && Ends(end, View(), r)
      ensures Indexed() && subsWild == old(subsWild) && fresh(subsWild.Repr - old(subsWild.Repr))
    {
      assert ps[0..] == ps;
      for i := 0 to |ps|
        invariant Indexed() && subsWild == old(subsWild) && fresh(subsWild.Repr - old(subsWild.Repr))
        invariant LeadsTo(old(View()), ps, View(), ps[i..], token)
      {
        ghost var s := View();
        end, r := HandlePacket(token, ps[i]);
        LeadsOn(old(View()), ps, s, i, token, r);
        if end != Done {
          return;
        }
      }
      end, r := Done, Fine(View());
    }

    // ---- Writing

    /** `flush_writes`: a connection whose socket fails is removed. */
    method FlushWrites(token: nat, writes: seq<Outbox.WriteResult>) returns (ok: bool)
      requires Indexed() && token in clients && clients[token].out.Valid()
      modifies this, subsWild, subsWild.Repr
      ensures ok == FlushOut(old(View()), token, writes).Some?
      ensures ok ==> Indexed() && subsWild == old(subsWild) && fresh(subsWild.Repr - old(subsWild.Repr))
      ensures ok ==> View() == FlushOut(old(View()), token, writes).value
    {
      var c := new Client.Borrow(clients[token]);
      var _, end := c.FlushWrites(writes);
      clients := clients[token := c.State()];
      ok := true;
      if end == Outbox.Dead {
        ok := RemoveClient(token);
      }
    }

    // ---- Tokens and the tick

    /** A new connection gets a token that no connection has had before. */
    method Accept() returns (token: nat)
      modifies this`clients, this`nextToken
      ensures token == old(nextToken) && nextToken == token + 1
      ensures clients == old(clients)[token := Connection.FRESH]
    {
      token := nextToken;
      nextToken := nextToken + 1;
      var c := new Client();
      clients := clients[token := c.State()];
    }

    /** The tick's scan over all connections; nothing is changed yet. */
    method TakeRound(expired: set<Slot>) returns (retry: seq<DueAt>, giveUp: seq<Slot>)
      ensures IsRound(clients, expired, retry, giveUp)
    {
      retry, giveUp := [], [];
      var todo := clients.Keys;
      while todo != {}
        invariant todo <= clients.Keys
        invariant IsRound(clients - todo, expired, retry, giveUp)
        decreases todo
      {
        var t :| t in todo;
        ghost var done := clients - todo;
        todo := todo - {t};
        var c := new Client.Borrow(clients[t]);
        var due, lost := c.DueNow(set e | e in expired && e.token == t :: e.pid);
        RoundGrows(done, t, clients[t], expired, retry, giveUp, due, lost);
        assert clients - todo == done[t := clients[t]];
        retry := retry + TagDue(t, due);
        giveUp := giveUp + TagSlots(t, lost);
      }
      assert clients - todo == clients;
    }

    method Retry(d: DueAt) returns (ok: bool)
      requires Indexed()
      modifies this, subsWild, subsWild.Repr
      ensures ok == ApplyRetry(old(View()), d).Some?
      ensures ok ==> Indexed() && subsWild == old(subsWild) && fresh(subsWild.Repr - old(subsWild.Repr))
      ensures ok ==> View() == ApplyRetry(old(View()), d).value
    {
      if d.token !in clients {
        return true;
      }
      var c := new Client.Borrow(clients[d.token]);
      var queued := c.ApplyRetry(d.pid, d.pkt);
      if queued {
        clients := clients[d.token := c.State()];
        ok := true;
      } else {
        ok := RemoveClient(d.token);
      }
    }

    method GiveUp(e: Slot) returns (ok: bool)
      requires Indexed()
      modifies this, subsWild, subsWild.Repr
      ensures ok == ApplyGiveUp(old(View()), e).Some?
      ensures ok ==> Indexed() && subsWild == old(subsWild) && fresh(subsWild.Repr - old(subsWild.Repr))
      ensures ok ==> View() == ApplyGiveUp(old(View()), e).value
    {
      ok := true;
      if e.token in clients {
        ok := RemoveClient(e.token);
      }
    }
  }

  /** Whatever comes of the rest comes of the whole. */
  ghost predicate LeadsTo(s: State, ps: seq<Parsed>, s1: State, rest: seq<Parsed>, token: nat) {
    forall r :: HandlesAll(s1, token, rest, r) ==> HandlesAll(s, token, ps, r)
  }

  lemma LeadsOn(s: State, ps: seq<Parsed>, s1: State, i: nat, token: nat, r1: Ending)
    requires i < |ps| && LeadsTo(s, ps, s1, ps[i..], token) && Handles(s1, token, ps[i], r1)
    ensures if r1.Fine? then LeadsTo(s, ps, r1.s, ps[i + 1..], token) else HandlesAll(s, token, ps, r1)
  {
    DropDrop(ps, i, 1);
    assert ps[i..][0] == ps[i];
    if r1.Fine? {
      forall r | HandlesAll(r1.s, token, ps[i + 1..], r)
        ensures HandlesAll(s, token, ps, r)
      {
        assert HandlesAll(s1, token, ps[i..], r);
      }
    } else {
      assert HandlesAll(s1, token, ps[i..], r1);
    }
  }

  method AppendQueued(offline: seq<Message>, more: seq<Message>) returns (r: seq<Message>)
    ensures r == AppendCapped(offline, more)
  {
    r := offline;
    for i := 0 to |more|
      invariant r == AppendCapped(offline, more[..i])
    {
      assert more[..i + 1][..i] == more[..i];
      if |r| < OFFLINE_CAP {
        r := r + [more[i]];
      }
    }
    assert more[..|more|] == more;
  }

  lemma {:induction false} ReadBackFails(queue: seq<Outbox.Queued>, k: nat)
    requires k <= |queue| && ReadBack(queue[..k]).None?
    ensures ReadBack(queue).None?
    decreases |queue|
  {
    if k < |queue| {
      var front := queue[..|queue| - 1];
      assert front[..k] == queue[..k];
      ReadBackFails(front, k);
    } else {
      assert queue[..k] == queue;
    }
  }

  lemma {:induction false} SomeOrder(topics: set<Bytes>, filter: Bytes) returns (order: seq<Bytes>)
    ensures forall t :: t in order <==> t in topics && Matches(filter, t)
    ensures forall i, j :: 0 <= i < j < |order| ==> order[i] != order[j]
    decreases topics
  {
    if topics == {} {
      order := [];
    } else {
      var t :| t in topics;
      order := SomeOrder(topics - {t}, filter);
      if Matches(filter, t) {
        order := order + [t];
      }
    }
  }

  lemma OrdersCons(retained: map<Bytes, Retained>, wishes: seq<Wish>, order: seq<Bytes>, orders: seq<seq<Bytes>>)
    requires wishes != [] && IsRetainedOrder(retained, wishes[0].filter, order)
    requires AreRetainedOrders(retained, wishes[1..], orders)
    ensures AreRetainedOrders(retained, wishes, [order] + orders)
    ensures ([order] + orders)[1..] == orders
  {
    forall i | 0 <= i < |wishes|
      ensures IsRetainedOrder(retained, wishes[i].filter, ([order] + orders)[i])
    {
      if i > 0 {
        assert wishes[1..][i - 1] == wishes[i];
      }
    }
  }

  lemma {:induction false} SomeOrders(
    retained: map<Bytes, Retained>, wishes: seq<Wish>) returns (orders: seq<seq<Bytes>>)
    ensures AreRetainedOrders(retained, wishes, orders)
    decreases |wishes|
  {
    if wishes == [] {
      orders := [];
    } else {
      var order := SomeOrder(retained.Keys, wishes[0].filter);
      var rest := SomeOrders(retained, wishes[1..]);
      orders := [order] + rest;
    }
  }

  function TagDue(t: nat, due: seq<Due>): (r: seq<DueAt>)
    ensures |r| == |due| && forall i :: 0 <= i < |due| ==> r[i] == DueAt(t, due[i].pid, due[i].pkt)
  {
    seq(|due|, i requires 0 <= i < |due| => DueAt(t, due[i].pid, due[i].pkt))
  }

  function TagSlots(t: nat, pids: seq<nat>): (r: seq<Slot>)
    ensures |r| == |pids| && forall i :: 0 <= i < |pids| ==> r[i] == Slot(t, pids[i])
  {
    seq(|pids|, i requires 0 <= i < |pids| => Slot(t, pids[i]))
  }

  lemma TagDueHas(t: nat, due: seq<Due>, d: DueAt)
    ensures d in TagDue(t, due) <==> d.token == t && Due(d.pid, d.pkt) in due
  {
    if d.token == t && Due(d.pid, d.pkt) in due {
      var i :| 0 <= i < |due| && due[i] == Due(d.pid, d.pkt);
      assert TagDue(t, due)[i] == d;
    }
  }

  lemma TagSlotsHas(t: nat, pids: seq<nat>, e: Slot)
    ensures e in TagSlots(t, pids) <==> e.token == t && e.pid in pids
  {
    if e.token == t && e.pid in pids {
      var i :| 0 <= i < |pids| && pids[i] == e.pid;
      assert TagSlots(t, pids)[i] == e;
    }
  }

  /** The round of some connections and the snapshot of one more make the round of all of them. */
  lemma RoundGrows(clients: map<nat, Connection.State>, t: nat, c: Connection.State, expired: set<Slot>,
                   retry: seq<DueAt>, giveUp: seq<Slot>, due: seq<Due>, lost: seq<nat>)
    requires t !in clients && IsRound(clients, expired, retry, giveUp)
    requires IsSnapshot(c.inFlight, set e | e in expired && e.token == t :: e.pid, due, lost)
    ensures IsRound(clients[t := c], expired, retry + TagDue(t, due), giveUp + TagSlots(t, lost))
  {
    var mine := set e | e in expired && e.token == t :: e.pid;
    assert forall pid :: pid in mine <==> Slot(t, pid) in expired;
    forall e: Slot
      ensures e in TagSlots(t, lost) <==> e.token == t && e.pid in lost
    {
      TagSlotsHas(t, lost, e);
    }
    forall d: DueAt
      ensures d in TagDue(t, due) <==> d.token == t && Due(d.pid, d.pkt) in due
    {
      TagDueHas(t, due, d);
    }
    forall i | 0 <= i < |retry|
      ensures retry[i].token != t
    {
      assert retry[i] in retry;
    }
  }

  ghost predicate ExactTable(table: map<Bytes, seq<nat>>, subs: seq<Subscription>) {
    forall f {:trigger f in table} {:trigger ExactAt(subs, f)} ::
      if ExactAt(subs, f) == [] then f !in table else f in table && table[f] == ExactAt(subs, f)
  }

  lemma ExactTableGrows(before: map<Bytes, seq<nat>>, after: map<Bytes, seq<nat>>, subs: seq<Subscription>)
    requires subs != [] && ExactTable(before, subs[..|subs| - 1])
    requires var idx, f := |subs| - 1, subs[|subs| - 1].filter;
      after == if IsWild(f) then before else before[f := (if f in before then before[f] else []) + [idx]]
    ensures ExactTable(after, subs)
  {
    var prev, idx, last := subs[..|subs| - 1], |subs| - 1, subs[|subs| - 1].filter;
    forall f
      ensures if ExactAt(subs, f) == [] then f !in after else f in after && after[f] == ExactAt(subs, f)
    {
      assert if ExactAt(prev, f) == [] then f !in before else f in before && before[f] == ExactAt(prev, f);
      assert ExactAt(subs, f) == ExactAt(prev, f) + if !IsWild(last) && last == f then [idx] else [];
    }
  }
}
