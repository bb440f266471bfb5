/** The session store: what a publish adds to it, what leaving saves, what CONNECT gives back. */
module Sessions {
  import opened Bytes
  import opened Topics
  import opened FanOut
  import opened BrokerModel
  import opened Outbox
  import opened Serving
  import Wire
  import Connection
  import Runs

  // ---- The offline stage of a publish

  ghost predicate Wants(subs: seq<Wish>, topic: Bytes) {
    exists i :: 0 <= i < |subs| && Matches(subs[i].filter, topic)
  }

  /** `FirstMatch` is the QoS of the first wish that matches, if any does. */
  lemma {:induction false} FirstMatchMeaning(subs: seq<Wish>, topic: Bytes)
    ensures FirstMatch(subs, topic).Some? <==> Wants(subs, topic)
    ensures FirstMatch(subs, topic).Some? ==>
      exists i :: 0 <= i < |subs| && Matches(subs[i].filter, topic) && FirstMatch(subs, topic) == Some(subs[i].qos)
        && forall j :: 0 <= j < i ==> !Matches(subs[j].filter, topic)
  {
    if subs != [] && !Matches(subs[0].filter, topic) {
      FirstMatchMeaning(subs[1..], topic);
      if Wants(subs[1..], topic) {
        var i :| 0 <= i < |subs[1..]| && Matches(subs[1..][i].filter, topic)
          && FirstMatch(subs[1..], topic) == Some(subs[1..][i].qos)
          && forall j :: 0 <= j < i ==> !Matches(subs[1..][j].filter, topic);
        assert subs[i + 1] == subs[1..][i];
        forall j | 0 <= j < i + 1
          ensures !Matches(subs[j].filter, topic)
        {
          assert j > 0 ==> subs[j] == subs[1..][j - 1];
        }
      } else {
        forall i | 0 <= i < |subs|
          ensures !Matches(subs[i].filter, topic)
        {
          assert i > 0 ==> subs[i] == subs[1..][i - 1];
        }
      }
    }
  }

  /**
   A publish adds exactly one copy, at the lower of its own QoS and that of the first filter that
   matches, to every stored session that wants it and has room, and changes no other session; a
   QoS 0 publish changes none.
   */
  lemma OfflineStage(s: State, m: Message, retain: bool, cid: Bytes)
    requires cid in s.sessions
    ensures var s' := Publish(s, m, retain);
      && s'.sessions.Keys == s.sessions.Keys
      && var before, after := s.sessions[cid], s'.sessions[cid];
      && after.subs == before.subs
      && var first := FirstMatch(before.subs, m.topic);
      && (first.Some? <==> Wants(before.subs, m.topic))
      && after.offline == before.offline +
           if m.qos > 0 && first.Some? && |before.offline| < OFFLINE_CAP
           then [Message(m.topic, m.payload, Wire.MinQoS(m.qos, first.value))] else []
  {
    FirstMatchMeaning(s.sessions[cid].subs, m.topic);
  }

  // ---- Leaving

  /** As much of the queue is kept as there is room for, in order. */
  lemma {:induction false} AppendCappedMeaning(offline: seq<Message>, more: seq<Message>)
    requires |offline| <= OFFLINE_CAP
    ensures var k := if |more| <= OFFLINE_CAP - |offline| then |more| else OFFLINE_CAP - |offline|;
      AppendCapped(offline, more) == offline + more[..k]
  {
    if more != [] {
      var n := |more| - 1;
      AppendCappedMeaning(offline, more[..n]);
      if n < OFFLINE_CAP - |offline| {
        assert more == more[..n] + [more[n]];
        Assoc(offline, more[..n], [more[n]]);
      } else {
        var k := OFFLINE_CAP - |offline|;
        assert more[..n][..k] == more[..k];
      }
    }
  }

  /** Merging keeps what was there in place and adds what was missing, once. */
  lemma {:induction false} MergeMeaning(subs: seq<Wish>, more: seq<Wish>)
    ensures subs <= Merge(subs, more)
    ensures forall w :: w in Merge(subs, more) <==> w in subs || w in more
    ensures (forall i, j :: 0 <= i < j < |subs| ==> subs[i] != subs[j]) ==>
      forall i, j :: 0 <= i < j < |Merge(subs, more)| ==> Merge(subs, more)[i] != Merge(subs, more)[j]
  {
    if more != [] {
      var n := |more| - 1;
      MergeMeaning(subs, more[..n]);
      assert more == more[..n] + [more[n]];
    }
  }

  /**
   A packet in a queue, by what it was made from. Those that are not reliable may be anything;
   the reliable ones are forwards, or repetitions of a PUBREL.
   */
  datatype Item = Other(pkt: Bytes) | Forward(m: Message, pid: nat, dup: bool, retain: bool) | Pubrel(pid: nat)

  function Body(i: Item): (r: Bytes)
    requires i.Forward?
  {
    Wire.PublishBody(i.m.topic, i.m.payload, PidOf(i))
  }

  function PidOf(i: Item): (r: Option<nat>)
    requires i.Forward?
  {
    if i.m.qos > 0 then Some(i.pid) else None
  }

  function PacketOf(i: Item): (q: Queued) {
    match i
    case Other(pkt) => Queued(false, pkt)
    case Forward(m, pid, dup, retain) =>
      Queued(true, Wire.BuildForward(m.topic, m.payload, m.qos, PidOf(i), dup, retain))
    case Pubrel(pid) => Queued(true, Wire.BuildPubrel(pid, true))
  }

  function Written(items: seq<Item>): (r: seq<Queued>)
    ensures |r| == |items|
  {
    if items == [] then [] else Written(items[..|items| - 1]) + [PacketOf(items[|items| - 1])]
  }

  function MessageOf(i: Item): (r: seq<Message>) {
    if i.Forward? then [i.m] else []
  }

  /** The messages in the queue that leaving is to save. */
  function ReliableMessages(items: seq<Item>): (r: seq<Message>) {
    if items == [] then [] else ReliableMessages(items[..|items| - 1]) + MessageOf(items[|items| - 1])
  }

  /** Leaving reads the packet as what it is. */
  predicate Short(i: Item) {
    i.Other? || (i.Forward? && |Body(i)| <= 127)
  }

  /** Leaving panics over the packet. */
  predicate Panics(i: Item) {
    i.Pubrel? || (i.Forward? && Wire.Misread(|Body(i)|, i.m.qos))
  }

  predicate AllShort(items: seq<Item>) {
    forall i :: 0 <= i < |items| ==> Short(items[i])
  }

  predicate NonePanics(items: seq<Item>) {
    forall i :: 0 <= i < |items| ==> !Panics(items[i])
  }

  lemma WrittenSnoc(front: seq<Item>, last: Item)
    ensures Written(front + [last]) == Written(front) + [PacketOf(last)]
    ensures ReliableMessages(front + [last]) == ReliableMessages(front) + MessageOf(last)
    ensures AllShort(front + [last]) <==> AllShort(front) && Short(last)
    ensures NonePanics(front + [last]) <==> NonePanics(front) && !Panics(last)
  {
    var items := front + [last];
    assert items[..|front|] == front && items[|front|] == last;
    assert forall i :: 0 <= i < |front| ==> items[i] == front[i];
  }

  /** What leaving reads of one packet. */
  function Decoded(q: Queued): (r: Option<seq<Message>>) {
    if !q.reliable then Some([])
    else
      match Wire.DecodeQueued(q.pkt)
      case None => None
      case Some((topic, payload, qos)) => Some([Message(topic, payload, qos)])
  }

  lemma DecodedExactly(i: Item)
    ensures Decoded(PacketOf(i)) == Some(MessageOf(i)) <==> Short(i)
    ensures Decoded(PacketOf(i)).None? <==> Panics(i)
  {
    match i
    case Other(_) =>
    case Forward(m, pid, dup, retain) =>
      Wire.DecodeQueuedExactly(m.topic, m.payload, m.qos, PidOf(i), dup, retain);
      Wire.DecodePanicsExactly(m.topic, m.payload, m.qos, PidOf(i), dup, retain);
    case Pubrel(pid) => Wire.DecodeQueuedPubrel(pid, true);
  }

  /** The queue is read packet by packet, and one failure fails the whole. */
  lemma ReadBackSnoc(queue: seq<Queued>, q: Queued)
    ensures ReadBack(queue + [q]).None? <==> ReadBack(queue).None? || Decoded(q).None?
    ensures ReadBack(queue).Some? && Decoded(q).Some? ==>
      ReadBack(queue + [q]) == Some(ReadBack(queue).value + Decoded(q).value)
  {
    assert (queue + [q])[..|queue|] == queue;
    if ReadBack(queue).Some? {
      assert ReadBack(queue).value + [] == ReadBack(queue).value;
    }
  }

  /** Each packet that is read gives as many messages as it stands for. */
  lemma {:induction false} ReadBackLength(items: seq<Item>)
    requires ReadBack(Written(items)).Some?
    ensures |ReadBack(Written(items)).value| == |ReliableMessages(items)|
  {
    if items != [] {
      var front, last := items[..|items| - 1], items[|items| - 1];
      ReadBackSnoc(Written(front), PacketOf(last));
      ReadBackLength(front);
      DecodedExactly(last);
    }
  }

  lemma SameParts<T>(a: seq<T>, x: seq<T>, b: seq<T>, y: seq<T>)
    requires |a| == |b|
    ensures a + x == b + y <==> a == b && x == y
  {
    if a + x == b + y {
      assert (a + x)[..|a|] == a && (b + y)[..|b|] == b;
      assert (a + x)[|a|..] == x && (b + y)[|b|..] == y;
    }
  }

  /**
   Leaving reads the reliable messages of a queue back as they were, in order, exactly when each
   of them is a forward with a body of at most 127 bytes. Packets that are not reliable do not
   matter.
   */
  lemma {:induction false} ReadBackExactly(items: seq<Item>)
    ensures ReadBack(Written(items)) == Some(ReliableMessages(items)) <==> AllShort(items)
  {
    if items != [] {
      var front, last := items[..|items| - 1], items[|items| - 1];
      SplitLast(items);
      WrittenSnoc(front, last);
      ReadBackExactly(front);
      DecodedExactly(last);
      var before, d := ReadBack(Written(front)), Decoded(PacketOf(last));
      ReadBackSnoc(Written(front), PacketOf(last));
      if before.Some? && d.Some? {
        ReadBackLength(front);
        SameParts(before.value, d.value, ReliableMessages(front), MessageOf(last));
      }
    }
  }

  /** Leaving panics exactly when it panics over one of the packets. */
  lemma {:induction false} ReadBackPanics(items: seq<Item>)
    ensures ReadBack(Written(items)).None? <==> !NonePanics(items)
  {
    if items != [] {
      var front, last := items[..|items| - 1], items[|items| - 1];
      SplitLast(items);
      WrittenSnoc(front, last);
      ReadBackPanics(front);
      DecodedExactly(last);
      ReadBackSnoc(Written(front), PacketOf(last));
    }
  }

  /** Every queue of a valid connection is made of such items. */
  lemma {:induction false} ItemsOf(queue: seq<Queued>) returns (items: seq<Item>)
    requires Connection.AllBrokerMade(queue)
    ensures Written(items) == queue
  {
    if queue == [] {
      items := [];
    } else {
      var front, last := queue[..|queue| - 1], queue[|queue| - 1];
      items := ItemsOf(front);
      var i := ItemOf(last);
      WrittenSnoc(items, i);
      SplitLast(queue);
      items := items + [i];
    }
  }

  lemma ItemOf(q: Queued) returns (i: Item)
    requires q.reliable ==> Connection.BrokerMade(q.pkt)
    ensures PacketOf(i) == q
  {
    if !q.reliable {
      i := Other(q.pkt);
    } else if Connection.IsForward(q.pkt) {
      var topic, payload, qos: Wire.QoS, pid: nat, dup, retain :|
        qos > 0 && q.pkt == Wire.BuildForward(topic, payload, qos, Some(pid), dup, retain);
      i := Forward(Message(topic, payload, qos), pid, dup, retain);
    } else {
      var pid: nat :| q.pkt == Wire.BuildPubrel(pid, true);
      i := Pubrel(pid);
    }
  }

  /**
   Removing a client makes the broker panic exactly when the client is persistent and its queue,
   once the will is published, holds a PUBREL repetition or a forward whose body length is
   `Misread`: every length from 128 to 16383, and some above.
   */
  lemma RemovePanicsExactly(s: State, token: nat, items: seq<Item>)
    requires var s1 := AfterWill(s, token);
      Persistent(s1, token) ==> s1.clients[token].out.queue == Written(items)
    ensures Remove(s, token).None? <==> Persistent(AfterWill(s, token), token) && !NonePanics(items)
  {
    ReadBackPanics(items);
  }

  /** In every reachable state there are such items, so that the condition always applies. */
  lemma RemovePanicsInRuns(y: Runs.Sys, token: nat) returns (items: seq<Item>)
    requires Runs.Inv(y)
    ensures var s1 := AfterWill(y.s, token);
      && (Persistent(s1, token) ==> s1.clients[token].out.queue == Written(items))
      && (Remove(y.s, token).None? <==> Persistent(s1, token) && !NonePanics(items))
  {
    var s1 := AfterWill(y.s, token);
    items := [];
    if Persistent(s1, token) {
      PublishWillServes(y.s, token);
      if s1 != y.s {
        assert Kept(y.s.clients[token], s1.clients[token]);
      }
      assert Connection.Valid(y.s.clients[token]);
      items := ItemsOf(s1.clients[token].out.queue);
    }
    RemovePanicsExactly(y.s, token, items);
  }

  /** The session a persistent client finds when it leaves. */
  function SessionOf(s: State, token: nat): (r: Stored)
    requires token in s.clients
  {
    var cid := s.clients[token].clientId;
    if cid in s.sessions then s.sessions[cid] else Stored([], [])
  }

  /** As many of the messages as a session with this queue has room for. */
  function Fitting(ms: seq<Message>, offline: seq<Message>): (r: seq<Message>)
    requires |offline| <= OFFLINE_CAP
  {
    ms[..if |ms| <= OFFLINE_CAP - |offline| then |ms| else OFFLINE_CAP - |offline|]
  }

  /**
   A persistent client whose unsent reliable packets are short forwards leaves all of them to
   its session, after what was there, up to the cap, and all its subscriptions.
   */
  lemma SaveKeepsEverything(s: State, token: nat, items: seq<Item>)
    requires Persistent(s, token) && s.clients[token].out.queue == Written(items)
    requires AllShort(items) && |SessionOf(s, token).offline| <= OFFLINE_CAP
    ensures Save(s, token).Some?
    ensures var was, now := SessionOf(s, token), Save(s, token).value[s.clients[token].clientId];
      && now.offline == was.offline + Fitting(ReliableMessages(items), was.offline)
      && was.subs <= now.subs
      && forall w :: w in now.subs <==> w in was.subs || Subscription(w.filter, token, w.qos) in s.subs
  {
    var was := SessionOf(s, token);
    ReadBackExactly(items);
    AppendCappedMeaning(was.offline, ReliableMessages(items));
    MergeMeaning(was.subs, Mine(s.subs, token));
    MineHas(s.subs, token);
  }

  lemma MineHas(subs: seq<Subscription>, token: nat)
    ensures forall w: Wish :: w in Mine(subs, token) <==> Subscription(w.filter, token, w.qos) in subs
  {
    MineMeaning(subs, token);
    forall w: Wish
      ensures w in Mine(subs, token) <==> Subscription(w.filter, token, w.qos) in subs
    {
      CountPositive(Mine(subs, token), w);
      CountPositive(subs, Subscription(w.filter, token, w.qos));
    }
  }

  // ---- The store over whole runs

  ghost predicate Bounded(sessions: map<Bytes, Stored>) {
    forall cid :: cid in sessions ==> |sessions[cid].offline| <= OFFLINE_CAP
  }

  /** Sessions only grow: old subscriptions and old messages stay in front. */
  ghost predicate Extends(a: map<Bytes, Stored>, b: map<Bytes, Stored>) {
    && a.Keys <= b.Keys
    && forall cid :: cid in a ==> a[cid].subs <= b[cid].subs && a[cid].offline <= b[cid].offline
  }

  ghost predicate Grows(a: map<Bytes, Stored>, b: map<Bytes, Stored>) {
    Extends(a, b) && (Bounded(a) ==> Bounded(b))
  }

  lemma PublishGrows(s: State, m: Message, retain: bool)
    ensures Grows(s.sessions, Publish(s, m, retain).sessions)
  {
  }

  lemma GrowsTwice(a: map<Bytes, Stored>, b: map<Bytes, Stored>, c: map<Bytes, Stored>)
    requires Grows(a, b) && Grows(b, c)
    ensures Grows(a, c)
  {
  }

  lemma {:induction false} AppendCappedGrows(offline: seq<Message>, more: seq<Message>)
    ensures offline <= AppendCapped(offline, more)
    ensures |offline| <= OFFLINE_CAP ==> |AppendCapped(offline, more)| <= OFFLINE_CAP
  {
    if more != [] {
      AppendCappedGrows(offline, more[..|more| - 1]);
    }
  }

  lemma SaveGrows(s: State, token: nat)
    requires Persistent(s, token)
    ensures Save(s, token).Some? ==> Grows(s.sessions, Save(s, token).value)
  {
    var c := s.clients[token];
    var was := if c.clientId in s.sessions then s.sessions[c.clientId] else Stored([], []);
    if ReadBack(c.out.queue).Some? {
      AppendCappedGrows(was.offline, ReadBack(c.out.queue).value);
      MergeMeaning(was.subs, Mine(s.subs, token));
    }
  }

  lemma PublishWillGrows(s: State, token: nat)
    ensures Grows(s.sessions, PublishWill(s, token).sessions)
  {
    if token in s.clients && s.clients[token].will.Some? {
      var w := s.clients[token].will.value;
      PublishGrows(s, Message(w.topic, w.message, w.qos), w.retain);
    }
  }

  lemma RemoveGrows(s: State, token: nat)
    ensures Remove(s, token).Some? ==> Grows(s.sessions, Remove(s, token).value.sessions)
  {
    var s1 := if token in s.clients && s.clients[token].cleanDisconnect then s else PublishWill(s, token);
    PublishWillGrows(s, token);
    if Persistent(s1, token) {
      SaveGrows(s1, token);
      if Save(s1, token).Some? {
        GrowsTwice(s.sessions, s1.sessions, Save(s1, token).value);
      }
    }
  }

  lemma {:induction false} SubscribeAllKeepsStore(s: State, token: nat, wishes: seq<Wish>, orders: seq<seq<Bytes>>)
    requires AreRetainedOrders(s.retained, wishes, orders)
    ensures SubscribeAll(s, token, wishes, orders).0.sessions == s.sessions
    decreases |wishes|
  {
    if wishes != [] {
      var (s1, ok) := SubscribeOne(s, token, wishes[0], orders[0]);
      if ok {
        SubscribeAllKeepsStore(s1, token, wishes[1..], orders[1..]);
      }
    }
  }

  lemma HandlePublishGrows(s: State, token: nat, flags: nat, body: Bytes)
    requires CanAnswer(s.clients, token, Wire.QosOf(flags))
    ensures var r := HandlePublish(s, token, flags, body); r.Some? ==> Grows(s.sessions, r.value.sessions)
  {
    if !NoRouting(s, flags) && Wire.ParsePublish(flags, body).Some? {
      var p := Wire.ParsePublish(flags, body).value;
      var clients := AnswerIn(s.clients, token, p.qos, if p.pid.Some? then p.pid.value else 0).0;
      PublishGrows(s.(clients := clients), Message(p.topic, p.payload, p.qos), p.retain);
    }
  }

  lemma StoreOverPacket(y: Runs.Sys, e: Runs.Event)
    requires Runs.Quiet(e) && !e.Greeting? && Runs.Step(y, e).Some?
    ensures Grows(y.s.sessions, Runs.Step(y, e).value.s.sessions)
  {
    match e
    case Subscribing(token, pid, wishes, orders) => SubscribeAllKeepsStore(y.s, token, wishes, orders);
    case Publishing(token, flags, body) =>
      if CanAnswer(y.s.clients, token, Wire.QosOf(flags)) {
        HandlePublishGrows(y.s, token, flags, body);
      }
    case Announcing(m) => PublishGrows(y.s, m, true);
    case _ =>
  }

  lemma StoreOverConnect(s: State, token: nat, h: Hello)
    requires token in s.clients
    ensures Extends(s.sessions - {h.clientId}, Connect(s, token, h).0.sessions)
    ensures Bounded(s.sessions) ==> Bounded(Connect(s, token, h).0.sessions)
  {
    var after := Connect(s, token, h).0.sessions;
    assert after == s.sessions || after == s.sessions - {h.clientId};
    LessGrows(s.sessions, h.clientId);
  }

  lemma LessGrows(a: map<Bytes, Stored>, cid: Bytes)
    ensures Extends(a - {cid}, a) && Extends(a - {cid}, a - {cid}) && (Bounded(a) ==> Bounded(a - {cid}))
  {
  }

  /**
   No event but the CONNECT of a session's own client takes anything from the session: its
   subscriptions and messages stay, in order, and never exceed the cap.
   */
  lemma StoreOverStep(y: Runs.Sys, e: Runs.Event)
    requires Runs.Step(y, e).Some?
    ensures var s' := Runs.Step(y, e).value.s;
      if e.Greeting? then Extends(y.s.sessions - {e.h.clientId}, s'.sessions)
        && (Bounded(y.s.sessions) ==> Bounded(s'.sessions))
      else Grows(y.s.sessions, s'.sessions)
  {
    if e.Greeting? {
      StoreOverConnect(y.s, e.token, e.h);
    } else if Runs.Quiet(e) {
      StoreOverPacket(y, e);
    } else {
      match e
      case Dropping(token) => RemoveGrows(y.s, token);
      case Writing(token, writes) => FlushGrows(y.s, token, writes);
      case NextRetry => RemoveGrows(y.s, y.retry[0].token);
      case NextGiveUp => RemoveGrows(y.s, y.giveUp[0].token);
      case _ =>
    }
  }

  lemma FlushGrows(s: State, token: nat, writes: seq<WriteResult>)
    requires token in s.clients && s.clients[token].out.Valid()
    ensures var r := FlushOut(s, token, writes); r.Some? ==> Grows(s.sessions, r.value.sessions)
  {
    var c := s.clients[token];
    RemoveGrows(s.(clients := s.clients[token := c.(out := Flush(c.out, writes).o)]), token);
  }

  /** In every run that starts within the cap, every stored queue stays within the cap. */
  lemma {:induction false} OfflineNeverExceedsCap(y: Runs.Sys, events: seq<Runs.Event>)
    requires Bounded(y.s.sessions)
    ensures var r := Runs.Run(y, events); r.Some? ==> Bounded(r.value.s.sessions)
  {
    if events != [] {
      OfflineNeverExceedsCap(y, events[..|events| - 1]);
      var r := Runs.Run(y, events[..|events| - 1]);
      if r.Some? && Runs.Step(r.value, events[|events| - 1]).Some? {
        StoreOverStep(r.value, events[|events| - 1]);
      }
    }
  }

  // ---- CONNECT with a stored session

  /** How many of the messages go out above QoS 0. */
  ghost function Reliable(subs: seq<Wish>, queue: seq<Message>): (n: nat)
    ensures n <= |queue|
  {
    if queue == [] then 0 else (if ResendQoS(subs, queue[0]) > 0 then 1 else 0) + Reliable(subs, queue[1..])
  }

  /** Each stored message at the lower of its own QoS and that of the first stored filter that matches it, if any. */
  ghost function Resent(subs: seq<Wish>, queue: seq<Message>): (ms: seq<Message>)
    ensures |ms| == |queue|
  {
    if queue == [] then []
    else
      var m, first := queue[0], FirstMatch(subs, queue[0].topic);
      [Message(m.topic, m.payload, if first.Some? && first.value < m.qos then first.value else m.qos)]
      + Resent(subs, queue[1..])
  }

  lemma ResentHead(subs: seq<Wish>, queue: seq<Message>)
    requires queue != []
    ensures Resent(subs, queue)
      == [queue[0].(qos := ResendQoS(subs, queue[0]))] + Resent(subs, queue[1..])
  {
  }

  /** The packets that go out for the messages, the reliable ones numbered from `pid`. */
  function Forwards(ms: seq<Message>, pid: nat): (r: seq<Queued>) {
    if ms == [] then []
    else
      var m := ms[0];
      if m.qos == 0 then
        [Queued(false, Wire.BuildForward(m.topic, m.payload, 0, None, false, false))] + Forwards(ms[1..], pid)
      else
        [Queued(true, Wire.BuildForward(m.topic, m.payload, m.qos, Some(pid), false, false))]
          + Forwards(ms[1..], pid + 1)
  }

  lemma ForwardsCons(before: seq<Queued>, m: Message, rest: seq<Message>, pid: nat)
    ensures var own := if m.qos == 0 then None else Some(pid);
      before + Forwards([m] + rest, pid)
        == before + [Queued(m.qos > 0, Wire.BuildForward(m.topic, m.payload, m.qos, own, false, false))]
             + Forwards(rest, if m.qos == 0 then pid else pid + 1)
  {
    assert ([m] + rest)[1..] == rest;
  }

  /** A connection with a window that holds exactly the ids 1 to `n`, and room in its queue. */
  ghost predicate Numbered(c: Connection.State, n: nat) {
    && c.nextPid == n + 1 && n <= Connection.IN_FLIGHT_CAP
    && |c.inFlight| == n && (forall pid :: pid in c.inFlight <==> 1 <= pid <= n)
  }

  lemma SendNumbered(c: Connection.State, n: nat, topic: Bytes, payload: Bytes, qos: Wire.QoS)
    requires Numbered(c, n) && |c.out.queue| < WRITE_QUEUE_CAP
    ensures var d := Connection.Deliver(c, topic, payload, qos, false);
      && (d == Connection.Lost <==> qos > 0 && n == Connection.IN_FLIGHT_CAP)
      && (d != Connection.Lost ==>
            && var pid := if qos == 0 then None else Some(n + 1);
            && d.Delivered? && Numbered(d.c, if qos == 0 then n else n + 1)
            && d.c.out == c.out.(queue := c.out.queue +
                 [Queued(qos > 0, Wire.BuildForward(topic, payload, qos, pid, false, false))]))
  {
    if qos > 0 && n < Connection.IN_FLIGHT_CAP {
      assert Connection.SearchPid(c.inFlight.Keys, n + 1, n + 1, n + 1 + 65536) == Some((n + 1, n + 2));
    }
  }

  /** Messages are resent from a numbered window: all of them, or the connection is lost. */
  lemma {:induction false} ResendNumbered(
    cs: map<nat, Connection.State>, token: nat, n: nat, subs: seq<Wish>, queue: seq<Message>)
    requires token in cs && Numbered(cs[token], n) && |cs[token].out.queue| + |queue| <= WRITE_QUEUE_CAP
    ensures var (cs', ok) := Resend(cs, token, subs, queue);
      && (ok <==> n + Reliable(subs, queue) <= Connection.IN_FLIGHT_CAP)
      && (ok ==>
            && token in cs' && Numbered(cs'[token], n + Reliable(subs, queue))
            && cs'[token].out.queue == cs[token].out.queue + Forwards(Resent(subs, queue), n + 1))
      && (!ok ==> token !in cs')
    decreases |queue|
  {
    if queue == [] {
      assert cs[token].out.queue + [] == cs[token].out.queue;
    } else {
      var m, q, c := queue[0], ResendQoS(subs, queue[0]), cs[token];
      ResentHead(subs, queue);
      SendNumbered(c, n, m.topic, m.payload, q);
      var d := Connection.Deliver(c, m.topic, m.payload, q, false);
      if d.Delivered? {
        var n' := if q == 0 then n else n + 1;
        ResendNumbered(cs[token := d.c], token, n', subs, queue[1..]);
        ForwardsCons(c.out.queue, m.(qos := q), Resent(subs, queue[1..]), n + 1);
      }
    }
  }

  /**
   A CONNECT that takes up a stored session on a fresh connection succeeds exactly when at most
   IN_FLIGHT_CAP of the stored messages go out above QoS 0. If it does, the client is owed the
   CONNACK and all the messages, in order, with packet ids from 1 up, its subscriptions are
   back, and the session is gone from the store; if not, the store is untouched.
   */
  lemma ConnectRestores(s: State, token: nat, h: Hello)
    requires token in s.clients && s.clients[token] == Connection.FRESH
    requires !h.cleanSession && h.clientId in s.sessions && |s.sessions[h.clientId].offline| <= OFFLINE_CAP
    ensures var stored := s.sessions[h.clientId];
      && var (s', ok) := Connect(s, token, h);
      && var k := Reliable(stored.subs, stored.offline);
      && (ok <==> k <= Connection.IN_FLIGHT_CAP)
      && IsRestored(s.subs, s'.subs, stored.subs, token)
      && (ok ==>
            && token in s'.clients
            && s'.clients[token].out.queue
              == [Queued(false, Wire.BuildConnack())] + Forwards(Resent(stored.subs, stored.offline), 1)
            && (forall pid :: pid in s'.clients[token].inFlight <==> 1 <= pid <= k)
            && s'.sessions == s.sessions - {h.clientId})
      && (!ok ==> s'.sessions == s.sessions && token !in s'.clients)
  {
    var stored := s.sessions[h.clientId];
    var c := Greeted(s.clients[token], h);
    assert c.out.queue == [Queued(false, Wire.BuildConnack())];
    assert Numbered(c, 0);
    ResendNumbered(s.clients[token := c], token, 0, stored.subs, stored.offline);
    RestoredMeaning(s.subs, stored.subs, token);
  }
}
