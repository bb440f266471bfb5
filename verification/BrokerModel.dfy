/**
 The broker as a value, and what each event does to it. Class `Broker` has the same
 operations on its fields, with the index and the fast paths, and is proved against these.
 */
module BrokerModel {
  import opened Bytes
  import opened Topics
  import opened FanOut
  import opened Outbox
  import Wire
  import Connection

  const OFFLINE_CAP := 1024

  datatype Retained = Retained(payload: Bytes, qos: Wire.QoS)

  datatype Message = Message(topic: Bytes, payload: Bytes, qos: Wire.QoS)

  datatype Wish = Wish(filter: Bytes, qos: Wire.QoS)

  /** A stored session: what an absent client subscribed to and what waits for it. */
  datatype Stored = Stored(subs: seq<Wish>, offline: seq<Message>)

  datatype State = State(
    clients: map<nat, Connection.State>,
    subs: seq<Subscription>,
    retained: map<Bytes, Retained>,
    sessions: map<Bytes, Stored>,
    nextToken: nat,
    received: nat)

  // ---- Delivering

  /** `deliver_to`: the connections afterwards, and whether the message was queued. */
  function Send(
    clients: map<nat, Connection.State>, token: nat, topic: Bytes, payload: Bytes, qos: Wire.QoS, retain: bool)
    : (r: (map<nat, Connection.State>, bool))
  {
    if token !in clients then (clients, false)
    else
      match Connection.Deliver(clients[token], topic, payload, qos, retain)
      case Delivered(c) => (clients[token := c], true)
      case Full => (clients, false)
      case Lost => (clients - {token}, false)
  }

  /** One message to some subscriptions in turn, each at the lower of the two QoS. */
  function SendAll(clients: map<nat, Connection.State>, targets: seq<Subscription>, m: Message)
    : (r: (map<nat, Connection.State>, seq<bool>))
    ensures |r.1| == |targets|
    decreases |targets|
  {
    if targets == [] then (clients, [])
    else
      var (cs, ok) := SendOne(clients, targets[0], m);
      var (cs', oks) := SendAll(cs, targets[1..], m);
      (cs', [ok] + oks)
  }

  function SendOne(
    clients: map<nat, Connection.State>, t: Subscription, m: Message): (r: (map<nat, Connection.State>, bool)) {
    Send(clients, t.token, m.topic, m.payload, Wire.MinQoS(m.qos, t.qos), false)
  }

  /**
   The fan-out: every matching subscription, as it was before the publish, is tried once, from
   the last to the first; those that fail are removed.
   */
  ghost function Fan(clients: map<nat, Connection.State>, subs: seq<Subscription>, m: Message)
    : (r: (map<nat, Connection.State>, seq<Subscription>))
  {
    var idxs := Order(subs, m.topic);
    OrderIsFanout(subs, m.topic);
    HitsAreWithin(subs, m.topic, idxs);
    var (cs, oks) := SendAll(clients, Pick(subs, idxs), m);
    (cs, Sweep(subs, idxs, oks))
  }

  lemma HitsAreWithin(subs: seq<Subscription>, topic: Bytes, idxs: seq<nat>)
    requires AllHits(subs, topic, idxs)
    ensures Within(idxs, |subs|)
  {
  }

  /** The same as the loop does it: read the list as it is now, and remove at once what fails. */
  function Walk(clients: map<nat, Connection.State>, subs: seq<Subscription>, idxs: seq<nat>, m: Message)
    : (r: (map<nat, Connection.State>, seq<Subscription>))
    decreases |idxs|
  {
    if idxs == [] || idxs[0] >= |subs| then (clients, subs)
    else
      var (cs, ok) := SendOne(clients, subs[idxs[0]], m);
      Walk(cs, if ok then subs else SwapRemove(subs, idxs[0]), idxs[1..], m)
  }

  /** For every pattern of failures the loop tries what its indices named at the start. */
  lemma {:induction false} WalkTriesOriginals(
    clients: map<nat, Connection.State>, subs: seq<Subscription>, idxs: seq<nat>, m: Message)
    requires Descending(idxs) && Within(idxs, |subs|)
    ensures var (cs, oks) := SendAll(clients, Pick(subs, idxs), m);
      Walk(clients, subs, idxs, m) == (cs, Sweep(subs, idxs, oks))
    decreases |idxs|
  {
    if idxs != [] {
      DescendingTail(idxs);
      var picked := Pick(subs, idxs);
      assert picked[0] == subs[idxs[0]] && picked[1..] == Pick(subs, idxs[1..]);
      var (cs, ok) := SendOne(clients, subs[idxs[0]], m);
      if ok {
        WalkTriesOriginals(cs, subs, idxs[1..], m);
      } else {
        PickAfterRemove(subs, idxs[0], idxs[1..]);
        WalkTriesOriginals(cs, SwapRemove(subs, idxs[0]), idxs[1..], m);
      }
    }
  }

  // ---- The session store during a publish

  /** The QoS of the first stored subscription that matches. */
  ghost function FirstMatch(subs: seq<Wish>, topic: Bytes): (r: Option<Wire.QoS>) {
    if subs == [] then None
    else if Matches(subs[0].filter, topic) then Some(subs[0].qos)
    else FirstMatch(subs[1..], topic)
  }

  ghost function Stash(s: Stored, m: Message): (r: Stored) {
    var first := FirstMatch(s.subs, m.topic);
    if first.None? || |s.offline| >= OFFLINE_CAP then s
    else s.(offline := s.offline + [m.(qos := Wire.MinQoS(m.qos, first.value))])
  }

  ghost function StashAll(sessions: map<Bytes, Stored>, m: Message): (r: map<Bytes, Stored>) {
    map cid | cid in sessions :: Stash(sessions[cid], m)
  }

  // ---- Publishing

  function Retain(retained: map<Bytes, Retained>, m: Message): (r: map<Bytes, Retained>) {
    if m.payload == [] then retained - {m.topic} else retained[m.topic := Retained(m.payload, m.qos)]
  }

  /**
   A publish without its index and without its fast path: try every matching subscription from
   the last to the first, drop those that fail, and keep a copy for the absent.
   */
  ghost function Publish(s: State, m: Message, retain: bool): (r: State) {
    var (clients, subs) := Fan(s.clients, s.subs, m);
    s.(clients := clients,
       subs := subs,
       retained := if retain then Retain(s.retained, m) else s.retained,
       sessions := if m.qos > 0 then StashAll(s.sessions, m) else s.sessions)
  }

  lemma PublishInStages(s: State, m: Message, retain: bool, clients: map<nat, Connection.State>,
    subs: seq<Subscription>, retained: map<Bytes, Retained>, sessions: map<Bytes, Stored>)
    requires (clients, subs) == Fan(s.clients, s.subs, m)
    requires retained == if retain then Retain(s.retained, m) else s.retained
    requires sessions == if m.qos > 0 then StashAll(s.sessions, m) else s.sessions
    ensures Publish(s, m, retain) == s.(clients := clients, subs := subs, retained := retained, sessions := sessions)
  {
  }

  ghost function PublishWill(s: State, token: nat): (r: State) {
    if token in s.clients && s.clients[token].will.Some? then
      var w := s.clients[token].will.value;
      Publish(s, Message(w.topic, w.message, w.qos), w.retain)
    else s
  }

  // ---- Leaving

  function Mine(subs: seq<Subscription>, token: nat): (r: seq<Wish>) {
    if subs == [] then []
    else
      var n := |subs| - 1;
      Mine(subs[..n], token) + if subs[n].token == token then [Wish(subs[n].filter, subs[n].qos)] else []
  }

  function Others(subs: seq<Subscription>, token: nat): (r: seq<Subscription>) {
    if subs == [] then []
    else
      var n := |subs| - 1;
      Others(subs[..n], token) + if subs[n].token != token then [subs[n]] else []
  }

  /** Exactly the connection's own subscriptions go; the others stay, each as often, in their order. */
  lemma {:induction false} OthersMeaning(subs: seq<Subscription>, token: nat)
    ensures forall x :: Count(Others(subs, token), x) == if x.token == token then 0 else Count(subs, x)
    ensures IsSubsequence(Others(subs, token), subs)
  {
    if subs != [] {
      var front, last := subs[..|subs| - 1], subs[|subs| - 1];
      OthersMeaning(front, token);
      SplitLast(subs);
      SubsequenceSnoc(Others(front, token), front, last);
      AppendNothing(Others(front, token));
      forall x
        ensures Count(Others(subs, token), x) == if x.token == token then 0 else Count(subs, x)
      {
        CountSnoc(Others(front, token), last, x);
      }
    }
  }

  /** The wishes are the connection's own subscriptions, each as often, in their order. */
  lemma {:induction false} MineMeaning(subs: seq<Subscription>, token: nat)
    ensures forall w: Wish :: Count(Mine(subs, token), w) == Count(subs, Subscription(w.filter, token, w.qos))
    ensures IsSubsequence(Restored(Mine(subs, token), token), subs)
  {
    if subs != [] {
      var front, last := subs[..|subs| - 1], subs[|subs| - 1];
      var mine, w := Mine(front, token), Wish(last.filter, last.qos);
      MineMeaning(front, token);
      SplitLast(subs);
      SubsequenceSnoc(Restored(mine, token), front, last);
      AppendNothing(mine);
      assert (mine + [w])[..|mine|] == mine;
      forall v: Wish
        ensures Count(Mine(subs, token), v) == Count(subs, Subscription(v.filter, token, v.qos))
      {
        CountSnoc(mine, w, v);
      }
    }
  }

  /** The reliable packets of a queue, read back; `None` when reading one of them panics. */
  function ReadBack(queue: seq<Queued>): (r: Option<seq<Message>>) {
    if queue == [] then Some([])
    else
      var n := |queue| - 1;
      match ReadBack(queue[..n])
      case None => None
      case Some(ms) =>
        if !queue[n].reliable then Some(ms)
        else
          match Wire.DecodeQueued(queue[n].pkt)
          case None => None
          case Some((topic, payload, qos)) => Some(ms + [Message(topic, payload, qos)])
  }

  /** Adds the wishes that are not there yet. */
  function Merge(subs: seq<Wish>, more: seq<Wish>): (r: seq<Wish>) {
    if more == [] then subs
    else
      var n := |more| - 1;
      var before := Merge(subs, more[..n]);
      if more[n] in before then before else before + [more[n]]
  }

  function AppendCapped(offline: seq<Message>, more: seq<Message>): (r: seq<Message>) {
    if more == [] then offline
    else
      var n := |more| - 1;
      var before := AppendCapped(offline, more[..n]);
      if |before| < OFFLINE_CAP then before + [more[n]] else before
  }

  predicate Persistent(s: State, token: nat) {
    token in s.clients && !s.clients[token].cleanSession && s.clients[token].clientId != []
  }

  /** The session store once a persistent client is gone; `None` when reading its queue panics. */
  function Save(s: State, token: nat): (r: Option<map<Bytes, Stored>>)
    requires Persistent(s, token)
  {
    var c := s.clients[token];
    match ReadBack(c.out.queue)
    case None => None
    case Some(queued) =>
      var kept := if c.clientId in s.sessions then s.sessions[c.clientId] else Stored([], []);
      Some(s.sessions[c.clientId := Stored(Merge(kept.subs, Mine(s.subs, token)), AppendCapped(kept.offline, queued))])
  }

  /** What `remove_client` finds once the will is published, which can change the client's own queue. */
  ghost function AfterWill(s: State, token: nat): (s1: State) {
    if token in s.clients && s.clients[token].cleanDisconnect then s else PublishWill(s, token)
  }

  /** `remove_client`; `None` stands for a panic. */
  ghost function Remove(s: State, token: nat): (r: Option<State>) {
    Bury(AfterWill(s, token), token)
  }

  /** What `remove_client` does once the will is published. */
  function Bury(s: State, token: nat): (r: Option<State>) {
    var gone := s.(subs := Others(s.subs, token), clients := s.clients - {token});
    if !Persistent(s, token) then Some(gone)
    else
      match Save(s, token)
      case None => None
      case Some(sessions) => Some(gone.(sessions := sessions))
  }

  lemma BuryInStages(s: State, token: nat, sessions: map<Bytes, Stored>)
    requires if Persistent(s, token) then Save(s, token) == Some(sessions) else sessions == s.sessions
    ensures Bury(s, token)
      == Some(s.(subs := Others(s.subs, token), clients := s.clients - {token}, sessions := sessions))
  {
  }

  // ---- CONNECT

  datatype Hello = Hello(clientId: Bytes, cleanSession: bool, will: Option<Connection.Will>)

  function Restored(subs: seq<Wish>, token: nat): (r: seq<Subscription>)
    ensures |r| == |subs|
  {
    if subs == [] then []
    else
      var n := |subs| - 1;
      Restored(subs[..n], token) + [Subscription(subs[n].filter, token, subs[n].qos)]
  }

  /** Each stored filter for this connection, at its stored QoS, in the stored order, behind what was there. */
  ghost predicate IsRestored(
    before: seq<Subscription>, after: seq<Subscription>, wishes: seq<Wish>, token: nat)
  {
    && |after| == |before| + |wishes| && after[..|before|] == before
    && forall i :: 0 <= i < |wishes| ==>
         after[|before| + i] == Subscription(wishes[i].filter, token, wishes[i].qos)
  }

  lemma {:induction false} RestoredMeaning(before: seq<Subscription>, wishes: seq<Wish>, token: nat)
    ensures IsRestored(before, before + Restored(wishes, token), wishes, token)
  {
    if wishes != [] {
      var n := |wishes| - 1;
      RestoredMeaning(before, wishes[..n], token);
      var some, all := before + Restored(wishes[..n], token), before + Restored(wishes, token);
      forall i | 0 <= i < |wishes|
        ensures all[|before| + i] == Subscription(wishes[i].filter, token, wishes[i].qos)
      {
        if i < n {
          assert all[|before| + i] == some[|before| + i] && wishes[..n][i] == wishes[i];
        }
      }
    }
  }

  function Greeted(c: Connection.State, h: Hello): (r: Connection.State) {
    c.(clientId := h.clientId, cleanSession := h.cleanSession, will := h.will,
       out := OfferOrDrop(c.out, Wire.BuildConnack()))
  }

  /** The QoS at which a stored message goes out again. */
  ghost function ResendQoS(subs: seq<Wish>, m: Message): (q: Wire.QoS) {
    match FirstMatch(subs, m.topic)
    case None => m.qos
    case Some(q) => Wire.MinQoS(m.qos, q)
  }

  /** The stored messages in order, up to the first that cannot be delivered. */
  ghost function Resend(clients: map<nat, Connection.State>, token: nat, subs: seq<Wish>, queue: seq<Message>)
    : (r: (map<nat, Connection.State>, bool))
  {
    if queue == [] then (clients, true)
    else
      var m := queue[0];
      var (cs, ok) := Send(clients, token, m.topic, m.payload, ResendQoS(subs, m), false);
      if ok then Resend(cs, token, subs, queue[1..]) else (cs, false)
  }

  /** The CONNECT arm: the state afterwards and whether it returns without an error. */
  ghost function Connect(s: State, token: nat, h: Hello): (r: (State, bool))
    requires token in s.clients
  {
    var known := h.clientId in s.sessions;
    var greeted := s.clients[token := Greeted(s.clients[token], h)];
    if h.cleanSession || !known then
      (s.(clients := greeted, sessions := s.sessions - {h.clientId}), true)
    else
      var stored := s.sessions[h.clientId];
      var (cs, ok) := Resend(greeted, token, stored.subs, stored.offline);
      (s.(clients := cs,
          subs := s.subs + Restored(stored.subs, token),
          sessions := if ok then s.sessions - {h.clientId} else s.sessions), ok)
  }

  /** Its first stage: a clean session forgets the stored one, otherwise the subscriptions come back. */
  predicate IsOpened(s: State, token: nat, h: Hello, s1: State) {
    && s1.sessions == (if h.cleanSession then s.sessions - {h.clientId} else s.sessions)
    && s1.subs == (if h.cleanSession || h.clientId !in s.sessions then s.subs
                   else s.subs + Restored(s.sessions[h.clientId].subs, token))
    && s1 == s.(sessions := s1.sessions, subs := s1.subs)
  }

  /** Its second stage: the CONNACK, the stored messages, and then the session is forgotten. */
  ghost predicate IsWelcomed(s1: State, token: nat, h: Hello, s2: State, ok: bool)
    requires token in s1.clients
  {
    var greeted := s1.clients[token := Greeted(s1.clients[token], h)];
    && s2 == s1.(clients := s2.clients, sessions := s2.sessions)
    && if h.clientId !in s1.sessions then
         ok && s2.clients == greeted && s2.sessions == s1.sessions - {h.clientId}
       else
         var stored := s1.sessions[h.clientId];
         && (s2.clients, ok) == Resend(greeted, token, stored.subs, stored.offline)
         && s2.sessions == if ok then s1.sessions - {h.clientId} else s1.sessions
  }

  lemma ConnectInStages(s: State, token: nat, h: Hello, s1: State, s2: State, ok: bool)
    requires token in s.clients && IsOpened(s, token, h, s1) && IsWelcomed(s1, token, h, s2, ok)
    ensures Connect(s, token, h) == (s2, ok)
  {
    assert (s.sessions - {h.clientId}) - {h.clientId} == s.sessions - {h.clientId};
  }

  // ---- SUBSCRIBE and UNSUBSCRIBE

  /** One retained message for a new subscription. */
  ghost predicate IsRetainedOrder(retained: map<Bytes, Retained>, filter: Bytes, order: seq<Bytes>) {
    && (forall t :: t in order <==> t in retained && Matches(filter, t))
    && (forall i, j :: 0 <= i < j < |order| ==> order[i] != order[j])
  }

  /** Sends retained messages until one cannot be delivered. */
  function SendRetained(
    clients: map<nat, Connection.State>, token: nat, retained: map<Bytes, Retained>, order: seq<Bytes>, qos: Wire.QoS)
    : (r: (map<nat, Connection.State>, bool))
    requires forall t :: t in order ==> t in retained
  {
    if order == [] then (clients, true)
    else
      var m := retained[order[0]];
      var (cs, ok) := Send(clients, token, order[0], m.payload, Wire.MinQoS(m.qos, qos), true);
      if ok then SendRetained(cs, token, retained, order[1..], qos) else (cs, false)
  }

  /** One filter of a SUBSCRIBE, with the order in which the retained table is iterated. */
  ghost function SubscribeOne(s: State, token: nat, w: Wish, order: seq<Bytes>): (r: (State, bool))
    requires IsRetainedOrder(s.retained, w.filter, order)
  {
    var (cs, ok) := SendRetained(s.clients, token, s.retained, order, w.qos);
    (s.(clients := cs, subs := s.subs + [Subscription(w.filter, token, w.qos)]), ok)
  }

  lemma SubscribeInStages(
    s: State, token: nat, w: Wish, order: seq<Bytes>, s1: State, s2: State, ok: bool)
    requires IsRetainedOrder(s.retained, w.filter, order)
    requires s1 == s.(subs := s.subs + [Subscription(w.filter, token, w.qos)])
    requires (s2.clients, ok) == SendRetained(s.clients, token, s.retained, order, w.qos)
    requires s2 == s1.(clients := s2.clients)
    ensures SubscribeOne(s, token, w, order) == (s2, ok)
  {
  }

  ghost predicate AreRetainedOrders(retained: map<Bytes, Retained>, wishes: seq<Wish>, orders: seq<seq<Bytes>>) {
    |wishes| == |orders| && forall i :: 0 <= i < |wishes| ==> IsRetainedOrder(retained, wishes[i].filter, orders[i])
  }

  ghost function SubscribeAll(s: State, token: nat, wishes: seq<Wish>, orders: seq<seq<Bytes>>): (r: (State, bool))
    requires AreRetainedOrders(s.retained, wishes, orders)
    ensures r.0.retained == s.retained
    decreases |wishes|
  {
    if wishes == [] then (s, true)
    else
      var (s1, ok) := SubscribeOne(s, token, wishes[0], orders[0]);
      if ok then SubscribeAll(s1, token, wishes[1..], orders[1..]) else (s1, false)
  }

  function Reply(s: State, token: nat, pkt: Bytes): (r: State) {
    if token in s.clients then
      s.(clients := s.clients[token := s.clients[token].(out := OfferOrDrop(s.clients[token].out, pkt))])
    else s
  }

  function Grants(wishes: seq<Wish>): (r: seq<Wire.QoS>) {
    seq(|wishes|, i requires 0 <= i < |wishes| => wishes[i].qos)
  }

  ghost function Subscribe(
    s: State, token: nat, pid: nat, wishes: seq<Wish>, orders: seq<seq<Bytes>>): (r: (State, bool))
    requires AreRetainedOrders(s.retained, wishes, orders)
  {
    var (s1, ok) := SubscribeAll(s, token, wishes, orders);
    if ok then (Reply(s1, token, Wire.BuildSuback(pid, Grants(wishes))), true) else (s1, false)
  }

  function Unsubscribed(subs: seq<Subscription>, token: nat, filters: seq<Bytes>): (r: seq<Subscription>) {
    if subs == [] then []
    else
      var n := |subs| - 1;
      Unsubscribed(subs[..n], token, filters)
      + if subs[n].token == token && subs[n].filter in filters then [] else [subs[n]]
  }

  /** Exactly the connection's own subscriptions with these filters go; the others stay, in their order. */
  lemma {:induction false} UnsubscribedMeaning(subs: seq<Subscription>, token: nat, filters: seq<Bytes>)
    ensures forall x ::
      Count(Unsubscribed(subs, token, filters), x)
        == if x.token == token && x.filter in filters then 0 else Count(subs, x)
    ensures IsSubsequence(Unsubscribed(subs, token, filters), subs)
  {
    if subs != [] {
      var front, last := subs[..|subs| - 1], subs[|subs| - 1];
      var before := Unsubscribed(front, token, filters);
      UnsubscribedMeaning(front, token, filters);
      SplitLast(subs);
      SubsequenceSnoc(before, front, last);
      AppendNothing(before);
      forall x
        ensures Count(Unsubscribed(subs, token, filters), x)
          == if x.token == token && x.filter in filters then 0 else Count(subs, x)
      {
        CountSnoc(before, last, x);
      }
    }
  }

  function Unsubscribe(s: State, token: nat, pid: nat, filters: seq<Bytes>): (r: State) {
    Reply(s.(subs := Unsubscribed(s.subs, token, filters)), token, Wire.BuildAck(Wire.UNSUBACK, pid))
  }

  // ---- PUBLISH

  /**
   Only an answer needs the connection. A packet that was read before a delivery dropped its
   connection is handled all the same, if it asks for no answer.
   */
  predicate CanAnswer(clients: map<nat, Connection.State>, token: nat, qos: Wire.QoS) {
    token in clients || (qos != 1 && qos != 2)
  }

  /** Answers a PUBLISH; and says whether it is a repetition. */
  function AnswerIn(clients: map<nat, Connection.State>, token: nat, qos: Wire.QoS, pid: nat)
    : (r: (map<nat, Connection.State>, bool))
    requires CanAnswer(clients, token, qos)
  {
    if qos == 1 || qos == 2 then
      var (c, dup) := Connection.Answer(clients[token], qos, pid);
      (clients[token := c], dup)
    else (clients, false)
  }

  /** The arm for a message somebody may want: parse it, answer it, route it unless it is a repetition. */
  ghost function RoutedPublish(s: State, token: nat, flags: nat, body: Bytes): (r: Option<State>)
    requires CanAnswer(s.clients, token, Wire.QosOf(flags))
  {
    match Wire.ParsePublish(flags, body)
    case None => None
    case Some(p) => Some(TakePublish(s, token, p))
  }

  ghost function TakePublish(s: State, token: nat, p: Wire.Publish): (s': State)
    requires CanAnswer(s.clients, token, p.qos)
  {
    var (clients, dup) := AnswerIn(s.clients, token, p.qos, if p.pid.Some? then p.pid.value else 0);
    if dup then s.(clients := clients) else Arrived(s, clients, p)
  }

  /** The state once a message is published, on top of its answer, and counted. */
  ghost function Arrived(s: State, answered: map<nat, Connection.State>, p: Wire.Publish): (s': State) {
    Publish(s.(clients := answered), Message(p.topic, p.payload, p.qos), p.retain).(received := s.received + 1)
  }

  /** Nobody is subscribed, no session is stored, and the message is not retained. */
  predicate NoRouting(s: State, flags: nat) {
    flags % 2 == 0 && s.subs == [] && s.sessions == map[]
  }

  /** The arm for a message nobody can receive: only the answer is computed. */
  function UnroutedPublish(s: State, token: nat, flags: nat, body: Bytes): (r: Option<State>)
    requires CanAnswer(s.clients, token, Wire.QosOf(flags))
  {
    var qos := Wire.QosOf(flags);
    if qos != 1 && qos != 2 then Some(s.(received := s.received + 1))
    else
      match Wire.ParsePidOnly(body)
      case None => None
      case Some(pid) =>
        var (clients, dup) := AnswerIn(s.clients, token, qos, pid);
        Some(s.(clients := clients, received := s.received + if dup then 0 else 1))
  }

  /** The PUBLISH arm; `None` is its error "bad PUBLISH". */
  ghost function HandlePublish(s: State, token: nat, flags: nat, body: Bytes): (r: Option<State>)
    requires CanAnswer(s.clients, token, Wire.QosOf(flags))
  {
    if NoRouting(s, flags) then UnroutedPublish(s, token, flags, body) else RoutedPublish(s, token, flags, body)
  }

  /** With no subscription and no stored session a publish changes nothing but the retained table. */
  lemma PublishToNobody(s: State, m: Message, retain: bool)
    requires s.subs == [] && s.sessions == map[]
    ensures Publish(s, m, retain) == s.(retained := if retain then Retain(s.retained, m) else s.retained)
  {
    assert StashAll(s.sessions, m) == map[];
  }

  /**
   The fast path does what the general one would exactly when the QoS is 1 or 2 or the body
   parses. For the other two values of the QoS field it also accepts a malformed body.
   */
  lemma FastPathRefines(s: State, token: nat, flags: nat, body: Bytes)
    requires CanAnswer(s.clients, token, Wire.QosOf(flags)) && NoRouting(s, flags)
    ensures UnroutedPublish(s, token, flags, body) == RoutedPublish(s, token, flags, body)
      <==> Wire.QosOf(flags) in {1, 2} || Wire.ParsePublish(flags, body).Some?
  {
    var qos := Wire.QosOf(flags);
    if qos > 0 {
      Wire.PidOnlyAgrees(flags, body);
    }
    var parsed := Wire.ParsePublish(flags, body);
    if parsed.Some? {
      var p := parsed.value;
      var (clients, dup) := AnswerIn(s.clients, token, p.qos, if p.pid.Some? then p.pid.value else 0);
      PublishToNobody(s.(clients := clients), Message(p.topic, p.payload, p.qos), p.retain);
    }
  }

  // ---- Acknowledgements

  /** The arms for PUBACK, PUBREC, PUBREL and PUBCOMP; `None` is their error for a short body. */
  function HandleAck(s: State, token: nat, ptype: nat, body: Bytes): (r: Option<State>)
    requires token in s.clients && Wire.PUBACK <= ptype <= Wire.PUBCOMP
  {
    if |body| < 2 then None
    else
      var pid := FromBe16(body[0], body[1]);
      var c := s.clients[token];
      var c' := if ptype == Wire.PUBREC then Connection.Received(c, pid)
        else if ptype == Wire.PUBREL then Connection.Released(c, pid)
        else Connection.Acknowledged(c, pid);
      Some(s.(clients := s.clients[token := c']))
  }

  // ---- The arms of the packet dispatch

  /**
   How an arm ends: the packet is handled; or there is an error, for which the caller drops the
   connection; or the arm looks up a connection that a delivery has already dropped, and panics.
   */
  datatype Ending = Fine(s: State) | Error(s: State) | Panic

  ghost function ConnectArm(s: State, token: nat, h: Hello): (r: Ending) {
    if token !in s.clients then Panic
    else
      var (s', ok) := Connect(s, token, h);
      if ok then Fine(s') else Error(s')
  }

  ghost function SubscribeArm(s: State, token: nat, pid: nat, wishes: seq<Wish>, orders: seq<seq<Bytes>>): (r: Ending)
    requires AreRetainedOrders(s.retained, wishes, orders)
  {
    var (s1, ok) := SubscribeAll(s, token, wishes, orders);
    if !ok then Error(s1)
    else if token !in s1.clients then Panic
    else Fine(Reply(s1, token, Wire.BuildSuback(pid, Grants(wishes))))
  }

  function UnsubscribeArm(s: State, token: nat, pid: nat, filters: seq<Bytes>): (r: Ending) {
    if token in s.clients then Fine(Unsubscribe(s, token, pid, filters)) else Panic
  }

  ghost function PublishArm(s: State, token: nat, flags: nat, body: Bytes): (r: Ending) {
    if !CanAnswer(s.clients, token, Wire.QosOf(flags)) then
      if Wire.ParsePidOnly(body).None? then Error(s) else Panic
    else
      match HandlePublish(s, token, flags, body)
      case None => Error(s)
      case Some(s') => Fine(s')
  }

  function AckArm(s: State, token: nat, ptype: nat, body: Bytes): (r: Ending)
    requires Wire.PUBACK <= ptype <= Wire.PUBCOMP
  {
    if |body| < 2 then Error(s)
    else if token !in s.clients then Panic
    else Fine(HandleAck(s, token, ptype, body).value)
  }

  function PingArm(s: State, token: nat): (r: Ending) {
    if token in s.clients then Fine(Reply(s, token, Wire.BuildPingresp())) else Panic
  }

  /** DISCONNECT: the will is not to be published when the connection goes. */
  function LeaveArm(s: State, token: nat): (r: Ending) {
    if token in s.clients then
      Error(s.(clients := s.clients[token := s.clients[token].(cleanDisconnect := true)]))
    else Panic
  }

  /** A packet with its fields parsed, or one that does not parse or has an unknown type. */
  datatype Parsed =
    | ConnectPacket(h: Hello)
    | SubscribePacket(pid: nat, wishes: seq<Wish>)
    | UnsubscribePacket(pid: nat, filters: seq<Bytes>)
    | PublishPacket(flags: nat, body: Bytes)
    | AckPacket(ptype: nat, body: Bytes)
    | PingPacket
    | DisconnectPacket
    | BadPacket

  /** The dispatch; `orders` are the orders in which a SUBSCRIBE walks the retained table. */
  ghost function Handle(s: State, token: nat, p: Parsed, orders: seq<seq<Bytes>>): (r: Ending)
    requires p.SubscribePacket? ==> AreRetainedOrders(s.retained, p.wishes, orders)
  {
    match p
    case ConnectPacket(h) => ConnectArm(s, token, h)
    case SubscribePacket(pid, wishes) => SubscribeArm(s, token, pid, wishes, orders)
    case UnsubscribePacket(pid, filters) => UnsubscribeArm(s, token, pid, filters)
    case PublishPacket(flags, body) => PublishArm(s, token, flags, body)
    case AckPacket(ptype, body) =>
      if Wire.PUBACK <= ptype <= Wire.PUBCOMP then AckArm(s, token, ptype, body) else Error(s)
    case PingPacket => PingArm(s, token)
    case DisconnectPacket => LeaveArm(s, token)
    case BadPacket => Error(s)
  }

  ghost predicate Handles(s: State, token: nat, p: Parsed, r: Ending) {
    exists orders ::
      (p.SubscribePacket? ==> AreRetainedOrders(s.retained, p.wishes, orders)) && r == Handle(s, token, p, orders)
  }

  /** The packets of one buffer in turn, up to the first error. */
  ghost predicate HandlesAll(s: State, token: nat, ps: seq<Parsed>, r: Ending)
    decreases |ps|
  {
    if ps == [] then r == Fine(s)
    else
      exists r1 ::
        Handles(s, token, ps[0], r1) && if r1.Fine? then HandlesAll(r1.s, token, ps[1..], r) else r == r1
  }

  // ---- Writing

  /** `flush_writes`, against what the socket does; see `Outbox.Flush`. `None` stands for a panic. */
  ghost function FlushOut(s: State, token: nat, writes: seq<WriteResult>): (r: Option<State>)
    requires token in s.clients && s.clients[token].out.Valid()
  {
    var f := Flush(s.clients[token].out, writes);
    var s1 := s.(clients := s.clients[token := s.clients[token].(out := f.o)]);
    if f.end == Dead then Remove(s1, token) else Some(s1)
  }

  // ---- The tick

  /** An entry of the tick's retry list. */
  datatype DueAt = DueAt(token: nat, pid: nat, pkt: Bytes)

  /** An in-flight entry of the whole broker. */
  datatype Slot = Slot(token: nat, pid: nat)

  predicate InFlightAt(clients: map<nat, Connection.State>, e: Slot) {
    e.token in clients && e.pid in clients[e.token].inFlight
  }

  function RetriesAt(clients: map<nat, Connection.State>, e: Slot): (n: nat)
    requires InFlightAt(clients, e)
  {
    clients[e.token].inFlight[e.pid].retries
  }

  /**
   The lists the tick takes from the connections: every entry whose timer has expired is either
   to be sent again, with the packet of the moment, or makes its client be given up.
   */
  ghost predicate IsRound(
    clients: map<nat, Connection.State>, expired: set<Slot>, retry: seq<DueAt>, giveUp: seq<Slot>) {
    && (forall e :: e in giveUp <==>
          e in expired && InFlightAt(clients, e) && RetriesAt(clients, e) >= Connection.QOS1_MAX_RETRIES)
    && (forall d :: d in retry <==>
          && Slot(d.token, d.pid) in expired && InFlightAt(clients, Slot(d.token, d.pid))
          && RetriesAt(clients, Slot(d.token, d.pid)) < Connection.QOS1_MAX_RETRIES
          && d.pkt == Connection.Retransmission(d.pid, clients[d.token].inFlight[d.pid]))
    && (forall i, j :: 0 <= i < j < |retry| ==> retry[i].token != retry[j].token || retry[i].pid != retry[j].pid)
    && (forall i, j :: 0 <= i < j < |giveUp| ==> giveUp[i] != giveUp[j])
  }

  /** One entry of the retry list; a client whose queue refuses the packet is removed. */
  ghost function ApplyRetry(s: State, d: DueAt): (r: Option<State>) {
    if d.token !in s.clients then Some(s)
    else
      match Connection.Retry(s.clients[d.token], d.pid, d.pkt)
      case None => Remove(s, d.token)
      case Some(c) => Some(s.(clients := s.clients[d.token := c]))
  }

  /** One entry of the give-up list. */
  ghost function ApplyGiveUp(s: State, e: Slot): (r: Option<State>) {
    if e.token in s.clients then Remove(s, e.token) else Some(s)
  }
}
