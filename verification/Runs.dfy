/**
 Runs of the whole broker. A run is any sequence of events the event loop can produce; the
 network, the clock and table iteration orders are free. The tick is three kinds of event:
 it takes its lists, then other packets are handled, and only then the lists are worked off.
 */
module Runs {
  import opened Bytes
  import opened FanOut
  import opened BrokerModel
  import opened Serving
  import Outbox
  import Wire
  import Connection

  /**
   The broker with the tick's lists, and a history: the tokens whose will was published, in
   order, and the tokens whose DISCONNECT was handled.
   */
  datatype Sys = Sys(s: State, retry: seq<DueAt>, giveUp: seq<Slot>, wills: seq<nat>, left: set<nat>)

  datatype Event =
    | Accept
    | Greeting(token: nat, h: Hello)
    | Subscribing(token: nat, pid: nat, wishes: seq<Wish>, orders: seq<seq<Bytes>>)
    | Unsubscribing(token: nat, pid: nat, filters: seq<Bytes>)
    | Publishing(token: nat, flags: nat, body: Bytes)
    | Acking(token: nat, ptype: nat, body: Bytes)
    | Pinging(token: nat)
    | Leaving(token: nat)
    | Dropping(token: nat)
    | Writing(token: nat, writes: seq<Outbox.WriteResult>)
    | Announcing(m: Message)
    | Tick(expired: set<Slot>, retry: seq<DueAt>, giveUp: seq<Slot>)
    | NextRetry
    | NextGiveUp

  predicate WillDue(s: State, token: nat) {
    token in s.clients && !s.clients[token].cleanDisconnect && s.clients[token].will.Some?
  }

  /** What an operation on a connection gives, with the will on record if it removes the connection. */
  function Lift(y: Sys, token: nat, r: Option<State>): (o: Option<Sys>) {
    match r
    case None => None
    case Some(s) => Some(Recorded(y, token, s))
  }

  function Recorded(y: Sys, token: nat, s: State): (r: Sys) {
    y.(s := s, wills := y.wills + if WillDue(y.s, token) && token !in s.clients then [token] else [])
  }

  function Update(y: Sys, token: nat, c: Connection.State): (r: Sys) {
    y.(s := y.s.(clients := y.s.clients[token := c]))
  }

  /** The events that are packets of a connection or a $SYS announcement. */
  predicate Quiet(e: Event) {
    e.Greeting? || e.Subscribing? || e.Unsubscribing? || e.Publishing? || e.Acking? || e.Pinging? || e.Announcing?
  }

  /** What an event does. `None` when it cannot happen now, or when the broker panics. */
  ghost function Step(y: Sys, e: Event): (r: Option<Sys>) {
    if Quiet(e) then QuietStep(y, e) else LoudStep(y, e)
  }

  ghost function QuietStep(y: Sys, e: Event): (r: Option<Sys>)
    requires Quiet(e)
  {
    match e
    case Greeting(token, h) => Ended(y, token, ConnectArm(y.s, token, h))
    case Subscribing(token, pid, wishes, orders) =>
      if !AreRetainedOrders(y.s.retained, wishes, orders) then None
      else Ended(y, token, SubscribeArm(y.s, token, pid, wishes, orders))
    case Unsubscribing(token, pid, filters) => Ended(y, token, UnsubscribeArm(y.s, token, pid, filters))
    case Publishing(token, flags, body) => Ended(y, token, PublishArm(y.s, token, flags, body))
    case Acking(token, ptype, body) =>
      if !(Wire.PUBACK <= ptype <= Wire.PUBCOMP) then None else Ended(y, token, AckArm(y.s, token, ptype, body))
    case Pinging(token) => Ended(y, token, PingArm(y.s, token))
    case Announcing(m) => Some(y.(s := Publish(y.s, m, true)))
  }

  /**
   There is or was such a connection. Packets read before a delivery dropped their connection
   are still handled.
   */
  predicate HandedOut(s: State, token: nat) {
    token in s.clients || token < s.nextToken
  }

  /** What is left by an arm that a packet of this token ran into. */
  function Ended(y: Sys, token: nat, r: Ending): (o: Option<Sys>) {
    if !HandedOut(y.s, token) then None
    else
      match r
      case Panic => None
      case Fine(s) => Some(y.(s := s))
      case Error(s) => Some(y.(s := s))
  }

  ghost function LoudStep(y: Sys, e: Event): (r: Option<Sys>)
    requires !Quiet(e)
  {
    match e
    case Accept => Some(Accepted(y))
    case Leaving(token) => if token in y.s.clients then Some(Departed(y, token)) else None
    case Dropping(token) => Lift(y, token, Remove(y.s, token))
    case Writing(token, writes) =>
      if token !in y.s.clients || !y.s.clients[token].out.Valid() then None
      else Lift(y, token, FlushOut(y.s, token, writes))
    case Tick(expired, retry, giveUp) => Ticked(y, expired, retry, giveUp)
    case NextRetry =>
      if y.retry == [] then None
      else Lift(y.(retry := y.retry[1..]), y.retry[0].token, ApplyRetry(y.s, y.retry[0]))
    case NextGiveUp =>
      if y.retry != [] || y.giveUp == [] then None
      else Lift(y.(giveUp := y.giveUp[1..]), y.giveUp[0].token, ApplyGiveUp(y.s, y.giveUp[0]))
  }

  function Accepted(y: Sys): (r: Sys) {
    y.(s := y.s.(clients := y.s.clients[y.s.nextToken := Connection.FRESH], nextToken := y.s.nextToken + 1))
  }

  function Departed(y: Sys, token: nat): (r: Sys)
    requires token in y.s.clients
  {
    y.(s := LeaveArm(y.s, token).s, left := y.left + {token})
  }

  /** The tick takes its lists; the next one waits until they are worked off. */
  ghost function Ticked(y: Sys, expired: set<Slot>, retry: seq<DueAt>, giveUp: seq<Slot>): (r: Option<Sys>) {
    if y.retry != [] || y.giveUp != [] || !IsRound(y.s.clients, expired, retry, giveUp) then None
    else Some(y.(retry := retry, giveUp := giveUp))
  }

  ghost function Run(y: Sys, events: seq<Event>): (r: Option<Sys>) {
    if events == [] then Some(y)
    else
      match Run(y, events[..|events| - 1])
      case None => None
      case Some(y1) => Step(y1, events[|events| - 1])
  }

  /** The event of a packet; a packet that does not parse has none, because it changes nothing. */
  function EventOf(token: nat, p: Parsed, orders: seq<seq<Bytes>>): (r: seq<Event>) {
    match p
    case ConnectPacket(h) => [Greeting(token, h)]
    case SubscribePacket(pid, wishes) => [Subscribing(token, pid, wishes, orders)]
    case UnsubscribePacket(pid, filters) => [Unsubscribing(token, pid, filters)]
    case PublishPacket(flags, body) => [Publishing(token, flags, body)]
    case AckPacket(ptype, body) =>
      if Wire.PUBACK <= ptype <= Wire.PUBCOMP then [Acking(token, ptype, body)] else []
    case PingPacket => [Pinging(token)]
    case DisconnectPacket => [Leaving(token)]
    case BadPacket => []
  }

  lemma {:induction false} RunCons(y: Sys, e: Event, events: seq<Event>)
    requires Step(y, e).Some?
    ensures Run(y, [e] + events) == Run(Step(y, e).value, events)
  {
    if events == [] {
      assert [e] + events == [e];
      assert Run(y, [e][..0]) == Some(y);
    } else {
      var front, last := events[..|events| - 1], events[|events| - 1];
      var all := [e] + events;
      assert all[..|all| - 1] == [e] + front && all[|all| - 1] == last;
      RunCons(y, e, front);
    }
  }

  /** A packet that is handled without a panic is a step, or changes nothing. */
  lemma PacketIsStep(y: Sys, token: nat, p: Parsed, orders: seq<seq<Bytes>>, r: Ending)
    requires token < y.s.nextToken && (p.SubscribePacket? ==> AreRetainedOrders(y.s.retained, p.wishes, orders))
    requires r == Handle(y.s, token, p, orders) && !r.Panic?
    ensures var es := EventOf(token, p, orders);
      if es == [] then r == Error(y.s)
      else |es| == 1 && Step(y, es[0]).Some? && Step(y, es[0]).value.s == r.s
    ensures r.s.nextToken == y.s.nextToken
  {
    var es := EventOf(token, p, orders);
    if es != [] && Quiet(es[0]) {
      QuietIsCalm(y, es[0]);
    }
  }

  /** What the dispatch loop makes of the packets of one buffer, without a panic, is a run of their events. */
  lemma {:induction false} BatchIsRun(y: Sys, token: nat, ps: seq<Parsed>, r: Ending) returns (events: seq<Event>)
    requires token < y.s.nextToken && HandlesAll(y.s, token, ps, r) && !r.Panic?
    ensures Run(y, events).Some? && Run(y, events).value.s == r.s
    decreases |ps|
  {
    events := [];
    if ps != [] {
      var r1 :| Handles(y.s, token, ps[0], r1) && if r1.Fine? then HandlesAll(r1.s, token, ps[1..], r) else r == r1;
      var orders :|
        (ps[0].SubscribePacket? ==> AreRetainedOrders(y.s.retained, ps[0].wishes, orders))
        && r1 == Handle(y.s, token, ps[0], orders);
      PacketIsStep(y, token, ps[0], orders, r1);
      var es := EventOf(token, ps[0], orders);
      if es != [] {
        var y1 := Step(y, es[0]).value;
        if r1.Fine? {
          events := BatchIsRun(y1, token, ps[1..], r);
        }
        RunCons(y, es[0], events);
        events := [es[0]] + events;
      }
    }
  }

  /** A broker that has just loaded its state file. */
  function Start(retained: map<Bytes, Retained>, sessions: map<Bytes, Stored>): (y: Sys) {
    Sys(State(map[], [], retained, sessions, 1, 0), [], [], [], {})
  }

  // ---- What an event does to one connection, and to one entry in flight

  /** An entry that stays in flight is untouched, or has been advanced by its PUBREC. */
  predicate Grown(e: Connection.InFlight, e': Connection.InFlight) {
    e' == e || (e.qos2 && !e.awaitPubcomp && e' == e.(awaitPubcomp := true, retries := 0))
  }

  ghost predicate Steady(c: Connection.State, c': Connection.State) {
    && (Connection.Valid(c) ==> Connection.Valid(c'))
    && forall pid :: pid in c'.inFlight ==>
         if pid in c.inFlight then Grown(c.inFlight[pid], c'.inFlight[pid]) else c'.inFlight[pid].retries == 0
  }

  ghost predicate Calm(c: Connection.State, c': Connection.State) {
    Steady(c, c') && c'.cleanDisconnect == c.cleanDisconnect
  }

  ghost predicate AllSteady(cs: map<nat, Connection.State>, cs': map<nat, Connection.State>) {
    cs'.Keys <= cs.Keys && forall t :: t in cs' ==> Steady(cs[t], cs'[t])
  }

  ghost predicate AllCalm(cs: map<nat, Connection.State>, cs': map<nat, Connection.State>) {
    cs'.Keys <= cs.Keys && forall t :: t in cs' ==> Calm(cs[t], cs'[t])
  }

  lemma ServedIsCalm(cs: map<nat, Connection.State>, cs': map<nat, Connection.State>)
    requires Served(cs, cs')
    ensures AllCalm(cs, cs')
  {
    forall t | t in cs'
      ensures Calm(cs[t], cs'[t])
    {
      assert Kept(cs[t], cs'[t]);
    }
  }

  lemma OneIsCalm(cs: map<nat, Connection.State>, token: nat, c: Connection.State)
    requires token in cs && Calm(cs[token], c)
    ensures AllCalm(cs, cs[token := c])
  {
  }

  lemma ConnectIsCalm(s: State, token: nat, h: Hello)
    requires token in s.clients
    ensures AllCalm(s.clients, Connect(s, token, h).0.clients)
  {
    var c := Greeted(s.clients[token], h);
    Connection.OfferKeepsBoundsIfValid(s.clients[token], Wire.BuildConnack());
    if h.cleanSession || h.clientId !in s.sessions {
      OneIsCalm(s.clients, token, c);
    } else {
      var stored := s.sessions[h.clientId];
      ResendServes(s.clients[token := c], token, stored.subs, stored.offline);
      CalmThenServed(s.clients, s.clients[token := c], Connect(s, token, h).0.clients);
    }
  }

  lemma AnswerIsCalm(c: Connection.State, qos: Wire.QoS, pid: nat)
    ensures var c' := Connection.Answer(c, qos, pid).0;
      Calm(c, c') && c'.inFlight == c.inFlight
  {
    Connection.OfferKeepsBoundsIfValid(c, Wire.BuildAck(Wire.PUBACK, pid));
    Connection.OfferKeepsBoundsIfValid(c, Wire.BuildAck(Wire.PUBREC, pid));
  }

  lemma AnswerInIsCalm(cs: map<nat, Connection.State>, token: nat, qos: Wire.QoS, pid: nat)
    requires CanAnswer(cs, token, qos)
    ensures var cs' := AnswerIn(cs, token, qos, pid).0;
      cs'.Keys == cs.Keys && forall t :: t in cs ==> Calm(cs[t], cs'[t]) && cs'[t].inFlight == cs[t].inFlight
  {
    if qos == 1 || qos == 2 {
      AnswerIsCalm(cs[token], qos, pid);
    }
  }

  /** Connections change quietly, their entries staying as they are, and then deliveries follow. */
  lemma CalmThenServed(cs: map<nat, Connection.State>, cs1: map<nat, Connection.State>, cs': map<nat, Connection.State>)
    requires cs1.Keys == cs.Keys && forall t :: t in cs ==> Calm(cs[t], cs1[t]) && cs1[t].inFlight == cs[t].inFlight
    requires Served(cs1, cs')
    ensures AllCalm(cs, cs')
  {
    forall t | t in cs'
      ensures Calm(cs[t], cs'[t])
    {
      assert Kept(cs1[t], cs'[t]);
    }
  }

  lemma HandlePublishIsCalm(s: State, token: nat, flags: nat, body: Bytes)
    requires CanAnswer(s.clients, token, Wire.QosOf(flags))
    ensures var r := HandlePublish(s, token, flags, body);
      r.Some? ==> AllCalm(s.clients, r.value.clients) && r.value.nextToken == s.nextToken
  {
    var qos := Wire.QosOf(flags);
    if NoRouting(s, flags) {
      if (qos == 1 || qos == 2) && Wire.ParsePidOnly(body).Some? {
        AnswerInIsCalm(s.clients, token, qos, Wire.ParsePidOnly(body).value);
      }
    } else if Wire.ParsePublish(flags, body).Some? {
      RoutedPublishIsCalm(s, token, Wire.ParsePublish(flags, body).value);
    }
  }

  lemma RoutedPublishIsCalm(s: State, token: nat, p: Wire.Publish)
    requires CanAnswer(s.clients, token, p.qos)
    ensures var (clients, dup) := AnswerIn(s.clients, token, p.qos, if p.pid.Some? then p.pid.value else 0);
      var s1 := s.(clients := clients);
      && AllCalm(s.clients, clients)
      && var s' := Publish(s1, Message(p.topic, p.payload, p.qos), p.retain);
      AllCalm(s.clients, s'.clients) && s'.nextToken == s.nextToken
  {
    var pid := if p.pid.Some? then p.pid.value else 0;
    var clients := AnswerIn(s.clients, token, p.qos, pid).0;
    var m := Message(p.topic, p.payload, p.qos);
    AnswerInIsCalm(s.clients, token, p.qos, pid);
    PublishServes(s.(clients := clients), m, p.retain);
    CalmThenServed(s.clients, clients, Publish(s.(clients := clients), m, p.retain).clients);
  }

  lemma AcknowledgedIsCalm(c: Connection.State, pid: nat)
    ensures Calm(c, Connection.Acknowledged(c, pid))
  {
    if Connection.Valid(c) {
      Connection.AcknowledgedKeepsValid(c, pid);
    }
  }

  lemma ReceivedIsCalm(c: Connection.State, pid: nat)
    ensures Calm(c, Connection.Received(c, pid))
  {
    if Connection.Valid(c) {
      Connection.ReceivedKeepsValid(c, pid);
    }
  }

  lemma ReleasedIsCalm(c: Connection.State, pid: nat)
    ensures Calm(c, Connection.Released(c, pid))
  {
    Connection.OfferKeepsBoundsIfValid(c.(received := c.received - {pid}), Wire.BuildAck(Wire.PUBCOMP, pid));
  }

  lemma HandleAckIsCalm(s: State, token: nat, ptype: nat, body: Bytes)
    requires token in s.clients && Wire.PUBACK <= ptype <= Wire.PUBCOMP
    ensures var r := HandleAck(s, token, ptype, body);
      r.Some? ==> AllCalm(s.clients, r.value.clients)
  {
    if |body| >= 2 {
      var pid, c := FromBe16(body[0], body[1]), s.clients[token];
      if ptype == Wire.PUBREC {
        ReceivedIsCalm(c, pid);
        OneIsCalm(s.clients, token, Connection.Received(c, pid));
      } else if ptype == Wire.PUBREL {
        ReleasedIsCalm(c, pid);
        OneIsCalm(s.clients, token, Connection.Released(c, pid));
      } else {
        AcknowledgedIsCalm(c, pid);
        OneIsCalm(s.clients, token, Connection.Acknowledged(c, pid));
      }
    }
  }

  // ---- The invariant

  ghost predicate Healthy(s: State) {
    forall t :: t in s.clients ==> t < s.nextToken && Connection.Valid(s.clients[t])
  }

  function SlotOf(d: DueAt): (e: Slot) {
    Slot(d.token, d.pid)
  }

  /** No entry is on the retry list twice, and whatever such an entry is by now has a retry left. */
  ghost predicate RetrySound(clients: map<nat, Connection.State>, retry: seq<DueAt>) {
    && (forall i :: 0 <= i < |retry| && InFlightAt(clients, SlotOf(retry[i])) ==>
          RetriesAt(clients, SlotOf(retry[i])) < Connection.QOS1_MAX_RETRIES)
    && (forall i, j :: 0 <= i < j < |retry| ==> SlotOf(retry[i]) != SlotOf(retry[j]))
    && (forall i :: 0 <= i < |retry| ==> Connection.BrokerMade(retry[i].pkt))
  }

  /** A published will's token is spent: it has no connection any more and never said goodbye. */
  ghost predicate WillsSound(y: Sys) {
    && (forall i :: 0 <= i < |y.wills| ==>
          y.wills[i] < y.s.nextToken && y.wills[i] !in y.s.clients && y.wills[i] !in y.left)
    && (forall i, j :: 0 <= i < j < |y.wills| ==> y.wills[i] != y.wills[j])
    && (forall t :: t in y.left ==> t < y.s.nextToken && (t in y.s.clients ==> y.s.clients[t].cleanDisconnect))
  }

  ghost predicate Inv(y: Sys) {
    Healthy(y.s) && RetrySound(y.s.clients, y.retry) && WillsSound(y)
  }

  lemma SteadyKeepsHealthy(s: State, s': State)
    requires Healthy(s) && AllSteady(s.clients, s'.clients) && s'.nextToken == s.nextToken
    ensures Healthy(s')
  {
    forall t | t in s'.clients
      ensures t < s'.nextToken && Connection.Valid(s'.clients[t])
    {
      assert Steady(s.clients[t], s'.clients[t]);
    }
  }

  lemma SteadyKeepsRetry(cs: map<nat, Connection.State>, cs': map<nat, Connection.State>, retry: seq<DueAt>)
    requires RetrySound(cs, retry) && AllSteady(cs, cs')
    ensures RetrySound(cs', retry)
  {
    forall i | 0 <= i < |retry| && InFlightAt(cs', SlotOf(retry[i]))
      ensures RetriesAt(cs', SlotOf(retry[i])) < Connection.QOS1_MAX_RETRIES
    {
      var e := SlotOf(retry[i]);
      assert Steady(cs[e.token], cs'[e.token]);
      if e.pid in cs[e.token].inFlight {
        assert InFlightAt(cs, e);
      }
    }
  }

  lemma CalmIsSteady(cs: map<nat, Connection.State>, cs': map<nat, Connection.State>)
    requires AllCalm(cs, cs')
    ensures AllSteady(cs, cs')
  {
    forall t | t in cs'
      ensures Steady(cs[t], cs'[t])
    {
      assert Calm(cs[t], cs'[t]);
    }
  }

  lemma CalmKeepsInv(y: Sys, s: State)
    requires Inv(y) && AllCalm(y.s.clients, s.clients) && s.nextToken == y.s.nextToken
    ensures Inv(y.(s := s))
  {
    CalmIsSteady(y.s.clients, s.clients);
    SteadyKeepsHealthy(y.s, s);
    SteadyKeepsRetry(y.s.clients, s.clients, y.retry);
    forall t | t in y.left && t in s.clients
      ensures s.clients[t].cleanDisconnect
    {
      assert Calm(y.s.clients[t], s.clients[t]);
    }
  }

  lemma RecordedKeepsInv(y: Sys, token: nat, s: State)
    requires Inv(y) && Served(y.s.clients, s.clients) && s.nextToken == y.s.nextToken
    ensures Inv(Recorded(y, token, s))
  {
    ServedIsCalm(y.s.clients, s.clients);
    CalmKeepsInv(y, s);
    RecordedMeaning(y, token, s);
    if WillDue(y.s, token) && token !in s.clients {
      DueIsSpent(y, token);
      WillIsNew(y.(s := s), token);
    }
  }

  lemma RecordedMeaning(y: Sys, token: nat, s: State)
    ensures Recorded(y, token, s) == if WillDue(y.s, token) && token !in s.clients
      then y.(s := s).(wills := y.wills + [token]) else y.(s := s)
  {
    AppendNothing(y.wills);
  }

  /** A will that is due has not been published, and its client has not said goodbye. */
  lemma DueIsSpent(y: Sys, token: nat)
    requires Healthy(y.s) && WillsSound(y) && WillDue(y.s, token)
    ensures token < y.s.nextToken && token !in y.left && token !in y.wills
  {
  }

  lemma WillIsNew(y: Sys, token: nat)
    requires WillsSound(y) && token < y.s.nextToken && token !in y.s.clients && token !in y.left
    requires token !in y.wills
    ensures WillsSound(y.(wills := y.wills + [token]))
  {
  }

  lemma RetryKeepsInv(y: Sys, d: DueAt, y': Sys)
    requires Lift(y, d.token, ApplyRetry(y.s, d)) == Some(y')
    requires Inv(y) && Connection.BrokerMade(d.pkt)
    requires forall i :: 0 <= i < |y.retry| ==> SlotOf(y.retry[i]) != SlotOf(d)
    requires InFlightAt(y.s.clients, SlotOf(d)) ==> RetriesAt(y.s.clients, SlotOf(d)) < Connection.QOS1_MAX_RETRIES
    ensures Inv(y')
  {
    if d.token in y.s.clients && Connection.Retry(y.s.clients[d.token], d.pid, d.pkt).Some? {
      var c := Connection.Retry(y.s.clients[d.token], d.pid, d.pkt).value;
      Connection.RetryKeepsValid(y.s.clients[d.token], d.pid, d.pkt);
      OthersUntouched(y.s.clients, d, c, y.retry);
      CountedKeepsInv(y, d.token, c);
    } else {
      RefusedRetryServes(y.s, d);
      RecordedKeepsInv(y, d.token, ApplyRetry(y.s, d).value);
    }
  }

  lemma CountedKeepsInv(y: Sys, token: nat, c: Connection.State)
    requires Inv(y) && token in y.s.clients && Connection.Valid(c)
    requires c.cleanDisconnect == y.s.clients[token].cleanDisconnect
    requires RetrySound(y.s.clients[token := c], y.retry)
    ensures Inv(Recorded(y, token, y.s.(clients := y.s.clients[token := c])))
  {
    var s := y.s.(clients := y.s.clients[token := c]);
    HealthyWith(y.s, token, c);
    WillsSoundWith(y, token, c);
    RecordedMeaning(y, token, s);
  }

  lemma HealthyWith(s: State, token: nat, c: Connection.State)
    requires Healthy(s) && token in s.clients && Connection.Valid(c)
    ensures Healthy(s.(clients := s.clients[token := c]))
  {
  }

  lemma WillsSoundWith(y: Sys, token: nat, c: Connection.State)
    requires WillsSound(y) && token in y.s.clients && c.cleanDisconnect == y.s.clients[token].cleanDisconnect
    ensures WillsSound(Update(y, token, c))
  {
  }

  /** Counting a retry of one entry does not disturb the rest of the list. */
  lemma OthersUntouched(cs: map<nat, Connection.State>, d: DueAt, c: Connection.State, retry: seq<DueAt>)
    requires d.token in cs && Connection.Retry(cs[d.token], d.pid, d.pkt) == Some(c)
    requires RetrySound(cs, retry) && forall i :: 0 <= i < |retry| ==> SlotOf(retry[i]) != SlotOf(d)
    ensures RetrySound(cs[d.token := c], retry)
  {
    var cs' := cs[d.token := c];
    forall i | 0 <= i < |retry| && InFlightAt(cs', SlotOf(retry[i]))
      ensures RetriesAt(cs', SlotOf(retry[i])) < Connection.QOS1_MAX_RETRIES
    {
      var e := SlotOf(retry[i]);
      assert e.token == d.token ==> e.pid != d.pid;
      assert InFlightAt(cs, e);
    }
  }

  lemma TickKeepsInv(y: Sys, expired: set<Slot>, retry: seq<DueAt>, giveUp: seq<Slot>)
    requires Inv(y) && IsRound(y.s.clients, expired, retry, giveUp)
    ensures Inv(y.(retry := retry, giveUp := giveUp))
  {
    forall i | 0 <= i < |retry|
      ensures InFlightAt(y.s.clients, SlotOf(retry[i]))
      ensures RetriesAt(y.s.clients, SlotOf(retry[i])) < Connection.QOS1_MAX_RETRIES
      ensures Connection.BrokerMade(retry[i].pkt)
    {
      assert retry[i] in retry;
      DueIsBrokerMade(y.s, retry[i]);
    }
  }

  lemma DueIsBrokerMade(s: State, d: DueAt)
    requires Healthy(s) && InFlightAt(s.clients, SlotOf(d))
    requires d.pkt == Connection.Retransmission(d.pid, s.clients[d.token].inFlight[d.pid])
    ensures Connection.BrokerMade(d.pkt)
  {
    var c := s.clients[d.token];
    assert Connection.Valid(c);
    assert Connection.EntryValid(d.pid, c.inFlight[d.pid]);
    Connection.RetransmissionIsBrokerMade(d.pid, c.inFlight[d.pid]);
  }

  lemma FreshIsValid()
    ensures Connection.Valid(Connection.FRESH)
  {
  }

  lemma QuietIsCalm(y: Sys, e: Event)
    requires Quiet(e) && Step(y, e).Some?
    ensures var y' := Step(y, e).value;
      && y' == y.(s := y'.s)
      && AllCalm(y.s.clients, y'.s.clients) && y'.s.nextToken == y.s.nextToken
  {
    var s := y.s;
    match e
    case Greeting(token, h) => ConnectIsCalm(s, token, h);
    case Publishing(token, flags, body) =>
      NothingIsCalm(s.clients);
      if CanAnswer(s.clients, token, Wire.QosOf(flags)) {
        HandlePublishIsCalm(s, token, flags, body);
      }
    case Acking(token, ptype, body) =>
      NothingIsCalm(s.clients);
      if token in s.clients {
        HandleAckIsCalm(s, token, ptype, body);
      }
    case Subscribing(token, pid, wishes, orders) =>
      SubscribeServes(s, token, pid, wishes, orders);
      SubscribeAllServes(s, token, wishes, orders);
      ServedIsCalm(s.clients, Step(y, e).value.s.clients);
    case Unsubscribing(token, pid, filters) =>
      ReplyServes(s.(subs := Unsubscribed(s.subs, token, filters)), token, Wire.BuildAck(Wire.UNSUBACK, pid));
      ServedIsCalm(s.clients, Step(y, e).value.s.clients);
    case Pinging(token) =>
      ReplyServes(s, token, Wire.BuildPingresp());
      ServedIsCalm(s.clients, Step(y, e).value.s.clients);
    case Announcing(m) =>
      PublishServes(s, m, true);
      ServedIsCalm(s.clients, Step(y, e).value.s.clients);
  }

  lemma NothingIsCalm(cs: map<nat, Connection.State>)
    ensures AllCalm(cs, cs)
  {
  }

  /** A new token has no entry on any list, because none was ever this large. */
  lemma AcceptKeepsInv(y: Sys)
    requires Inv(y)
    ensures Inv(Accepted(y))
  {
    FreshIsValid();
    var cs := y.s.clients[y.s.nextToken := Connection.FRESH];
    forall i | 0 <= i < |y.retry| && InFlightAt(cs, SlotOf(y.retry[i]))
      ensures InFlightAt(y.s.clients, SlotOf(y.retry[i]))
    {
    }
  }

  lemma LeavingKeepsInv(y: Sys, token: nat)
    requires Inv(y) && token in y.s.clients
    ensures Inv(Departed(y, token))
  {
    LeavingKeepsClients(y.s, token, y.retry);
    LeavingKeepsWills(y, token);
  }

  lemma LeavingKeepsClients(s: State, token: nat, retry: seq<DueAt>)
    requires Healthy(s) && RetrySound(s.clients, retry) && token in s.clients
    ensures var s' := s.(clients := s.clients[token := s.clients[token].(cleanDisconnect := true)]);
      Healthy(s') && RetrySound(s'.clients, retry)
  {
    GoodbyeIsSteady(s.clients[token]);
    var cs' := s.clients[token := s.clients[token].(cleanDisconnect := true)];
    SteadyKeepsHealthy(s, s.(clients := cs'));
    SteadyKeepsRetry(s.clients, cs', retry);
  }

  lemma LeavingKeepsWills(y: Sys, token: nat)
    requires WillsSound(y) && token in y.s.clients && token < y.s.nextToken
    ensures WillsSound(Departed(y, token))
  {
  }

  lemma GoodbyeIsSteady(c: Connection.State)
    ensures Steady(c, c.(cleanDisconnect := true))
  {
  }

  lemma StepKeepsInv(y: Sys, e: Event)
    requires Inv(y)
    ensures Step(y, e).Some? ==> Inv(Step(y, e).value)
  {
    if Quiet(e) {
      if Step(y, e).Some? {
        QuietIsCalm(y, e);
        CalmKeepsInv(y, Step(y, e).value.s);
      }
    } else if LoudStep(y, e).Some? {
      LoudKeepsInv(y, e, LoudStep(y, e).value);
    }
  }

  lemma LoudKeepsInv(y: Sys, e: Event, y': Sys)
    requires Inv(y) && !Quiet(e) && LoudStep(y, e) == Some(y')
    ensures Inv(y')
  {
    match e
    case Accept => AcceptKeepsInv(y);
    case Leaving(token) => LeavingKeepsInv(y, token);
    case Dropping(_) => RemovingKeepsInv(y, e, y');
    case Writing(_, _) => RemovingKeepsInv(y, e, y');
    case NextGiveUp => RemovingKeepsInv(y, e, y');
    case Tick(expired, retry, giveUp) => TickKeepsInv(y, expired, retry, giveUp);
    case NextRetry => NextRetryKeepsInv(y, y');
  }

  lemma NextRetryKeepsInv(y: Sys, y': Sys)
    requires Inv(y) && LoudStep(y, NextRetry) == Some(y')
    ensures Inv(y')
  {
    var y1, d := PopRetry(y);
    RetryKeepsInv(y1, d, y');
  }

  lemma PopRetry(y: Sys) returns (y1: Sys, d: DueAt)
    requires Inv(y) && y.retry != []
    ensures y1 == y.(retry := y.retry[1..]) && d == y.retry[0]
    ensures Inv(y1) && Connection.BrokerMade(d.pkt)
    ensures forall i :: 0 <= i < |y1.retry| ==> SlotOf(y1.retry[i]) != SlotOf(d)
    ensures InFlightAt(y1.s.clients, SlotOf(d)) ==> RetriesAt(y1.s.clients, SlotOf(d)) < Connection.QOS1_MAX_RETRIES
  {
    y1, d := y.(retry := y.retry[1..]), y.retry[0];
    RetryTailSound(y.s.clients, y.retry);
  }

  lemma RetryTailSound(cs: map<nat, Connection.State>, retry: seq<DueAt>)
    requires RetrySound(cs, retry) && retry != []
    ensures RetrySound(cs, retry[1..])
    ensures forall i :: 0 <= i < |retry| - 1 ==> SlotOf(retry[1..][i]) != SlotOf(retry[0])
    ensures Connection.BrokerMade(retry[0].pkt)
    ensures InFlightAt(cs, SlotOf(retry[0])) ==> RetriesAt(cs, SlotOf(retry[0])) < Connection.QOS1_MAX_RETRIES
  {
    var rest := retry[1..];
    assert forall i :: 0 <= i < |rest| ==> rest[i] == retry[i + 1];
  }

  /** The events that can remove connections but change no entry in flight. */
  predicate Removing(e: Event) {
    e.Dropping? || e.Writing? || e.NextGiveUp?
  }

  /** What such an event does to the other connections, and what it puts on record. */
  lemma RemovingServes(y: Sys, e: Event, y': Sys) returns (token: nat)
    requires Removing(e) && LoudStep(y, e) == Some(y')
    ensures Served(y.s.clients, y'.s.clients) && y'.s.nextToken == y.s.nextToken
    ensures y' == Recorded(y.(giveUp := y'.giveUp), token, y'.s)
    ensures if e.NextGiveUp?
      then y.giveUp != [] && y'.giveUp == y.giveUp[1..] && token == y.giveUp[0].token && token !in y'.s.clients
      else y'.giveUp == y.giveUp && token == e.token
  {
    match e
    case Dropping(t) =>
      token := t;
      RemoveServes(y.s, t);
    case Writing(t, writes) =>
      token := t;
      FlushServes(y.s, t, writes);
    case NextGiveUp =>
      token := y.giveUp[0].token;
      GiveUpServes(y.s, y.giveUp[0]);
  }

  lemma RemovingKeepsInv(y: Sys, e: Event, y': Sys)
    requires Inv(y) && Removing(e) && LoudStep(y, e) == Some(y')
    ensures Inv(y')
  {
    var token := RemovingServes(y, e, y');
    RecordedKeepsInv(y.(giveUp := y'.giveUp), token, y'.s);
  }

  /**
   Safety over whole runs. In every reachable state, also between the steps of the tick: each
   connection's window holds at most IN_FLIGHT_CAP entries, under ids 1 to 65535, each with the
   first transmission of its own message and at most QOS1_MAX_RETRIES retries, `awaitPubcomp`
   only on QoS 2; each will was published at most once and not after a DISCONNECT.
   */
  lemma {:induction false} EveryRunIsSafe(
    retained: map<Bytes, Retained>, sessions: map<Bytes, Stored>, events: seq<Event>)
    ensures var r := Run(Start(retained, sessions), events); r.Some? ==> Inv(r.value)
  {
    if events != [] {
      EveryRunIsSafe(retained, sessions, events[..|events| - 1]);
      var r := Run(Start(retained, sessions), events[..|events| - 1]);
      if r.Some? {
        StepKeepsInv(r.value, events[|events| - 1]);
      }
    }
  }

  lemma {:induction false} RunKeepsInv(y: Sys, events: seq<Event>)
    requires Inv(y) && Run(y, events).Some?
    ensures Inv(Run(y, events).value)
  {
    if events != [] {
      RunKeepsInv(y, events[..|events| - 1]);
      StepKeepsInv(Run(y, events[..|events| - 1]).value, events[|events| - 1]);
    }
  }

  // ---- Wills

  /** The event calls `remove_client` for this token. */
  predicate Removes(y: Sys, e: Event, token: nat) {
    match e
    case Dropping(t) => t == token
    case Writing(t, writes) =>
      t == token && t in y.s.clients && y.s.clients[t].out.Valid()
      && Outbox.Flush(y.s.clients[t].out, writes).end == Outbox.Dead
    case NextRetry =>
      y.retry != [] && y.retry[0].token == token && token in y.s.clients
      && Connection.Retry(y.s.clients[token], y.retry[0].pid, y.retry[0].pkt).None?
    case NextGiveUp => y.giveUp != [] && y.giveUp[0].token == token && token in y.s.clients
    case _ => false
  }

  /** `remove_client` publishes a will exactly when it is due. */
  lemma WillDueMeaning(s: State, token: nat)
    ensures AfterWill(s, token) ==
      if WillDue(s, token) then
        var w := s.clients[token].will.value;
        Publish(s, Message(w.topic, w.message, w.qos), w.retain)
      else s
  {
  }

  /** The history records a will exactly when an event calls `remove_client` and the will is due. */
  lemma WillsAreRecorded(y: Sys, e: Event, token: nat, y': Sys)
    requires Step(y, e) == Some(y')
    ensures if Removes(y, e, token) && WillDue(y.s, token) then y'.wills == y.wills + [token]
      else y'.wills == y.wills || (exists t :: t != token && y'.wills == y.wills + [t])
  {
    if Quiet(e) {
      QuietIsCalm(y, e);
    } else {
      match e
      case Dropping(t) => RecordedExactly(y, y, t, true, y');
      case Writing(t, writes) =>
        var f := Outbox.Flush(y.s.clients[t].out, writes);
        var s1 := y.s.(clients := y.s.clients[t := y.s.clients[t].(out := f.o)]);
        RemoveServes(s1, t);
        RecordedExactly(y, y, t, f.end == Outbox.Dead, y');
      case NextRetry =>
        var d := y.retry[0];
        var gone := d.token in y.s.clients && Connection.Retry(y.s.clients[d.token], d.pid, d.pkt).None?;
        RecordedExactly(y, y.(retry := y.retry[1..]), d.token, gone, y');
      case NextGiveUp =>
        var t := y.giveUp[0].token;
        RecordedExactly(y, y.(giveUp := y.giveUp[1..]), t, t in y.s.clients, y');
      case Accept =>
      case Leaving(_) =>
      case Tick(_, _, _) =>
    }
  }

  /** The token is gone afterwards exactly if it was removed, or was not there. */
  lemma RecordedExactly(y: Sys, y1: Sys, t: nat, removed: bool, y': Sys)
    requires y1.s == y.s && y1.wills == y.wills && y' == Recorded(y1, t, y'.s)
    requires if removed then t !in y'.s.clients || t !in y.s.clients else t in y.s.clients ==> t in y'.s.clients
    ensures y'.wills == y.wills + if removed && WillDue(y.s, t) then [t] else []
  {
  }

  // ---- Retransmissions

  predicate Alive(y: Sys, e: Slot) {
    InFlightAt(y.s.clients, e)
  }

  function At(y: Sys, e: Slot): (f: Connection.InFlight)
    requires Alive(y, e)
  {
    y.s.clients[e.token].inFlight[e.pid]
  }

  /** Whether the event is a retransmission that is counted against this entry. */
  predicate Counts(y: Sys, ev: Event, e: Slot) {
    && ev.NextRetry? && y.retry != [] && SlotOf(y.retry[0]) == e && Alive(y, e)
    && Connection.Retry(y.s.clients[e.token], e.pid, y.retry[0].pkt).Some?
  }

  /** An entry that survives an event is counted one retry, or it is `Grown`. */
  lemma EntryStep(y: Sys, ev: Event, e: Slot)
    requires Inv(y) && Step(y, ev).Some? && Alive(y, e) && Alive(Step(y, ev).value, e)
    ensures var f, f' := At(y, e), At(Step(y, ev).value, e);
      if Counts(y, ev, e) then f' == f.(retries := f.retries + 1) else Grown(f, f')
  {
    if Quiet(ev) {
      QuietIsCalm(y, ev);
      assert Calm(y.s.clients[e.token], Step(y, ev).value.s.clients[e.token]);
    } else {
      LoudEntryStep(y, ev, e, Step(y, ev).value);
    }
  }

  lemma LoudEntryStep(y: Sys, ev: Event, e: Slot, y': Sys)
    requires Healthy(y.s) && !Quiet(ev) && LoudStep(y, ev) == Some(y') && Alive(y, e) && Alive(y', e)
    ensures At(y', e) == if Counts(y, ev, e) then At(y, e).(retries := At(y, e).retries + 1) else At(y, e)
  {
    match ev
    case NextRetry => NextRetryEntryStep(y, e, y');
    case Dropping(_) => RemovingEntryStep(y, ev, e, y');
    case Writing(_, _) => RemovingEntryStep(y, ev, e, y');
    case NextGiveUp => RemovingEntryStep(y, ev, e, y');
    case Accept => AcceptedEntryStep(y, e);
    case Leaving(_) =>
    case Tick(_, _, _) =>
  }

  lemma AcceptedEntryStep(y: Sys, e: Slot)
    requires Healthy(y.s) && Alive(y, e)
    ensures Alive(Accepted(y), e) && At(Accepted(y), e) == At(y, e)
  {
    assert e.token < y.s.nextToken;
  }

  lemma RemovingEntryStep(y: Sys, ev: Event, e: Slot, y': Sys)
    requires Removing(ev) && LoudStep(y, ev) == Some(y') && Alive(y, e) && Alive(y', e)
    ensures At(y', e) == At(y, e)
  {
    var _ := RemovingServes(y, ev, y');
    assert Kept(y.s.clients[e.token], y'.s.clients[e.token]);
  }

  lemma NextRetryEntryStep(y: Sys, e: Slot, y': Sys)
    requires LoudStep(y, NextRetry) == Some(y') && Alive(y, e) && Alive(y', e)
    ensures At(y', e) == if Counts(y, NextRetry, e) then At(y, e).(retries := At(y, e).retries + 1) else At(y, e)
  {
    RetryEntryStep(y.s, y.retry[0], e);
  }

  lemma RetryEntryStep(s: State, d: DueAt, e: Slot)
    requires InFlightAt(s.clients, e)
    ensures var r := ApplyRetry(s, d);
      r.Some? && InFlightAt(r.value.clients, e) ==>
        && var f, f' := s.clients[e.token].inFlight[e.pid], r.value.clients[e.token].inFlight[e.pid];
        f' == if SlotOf(d) == e && Connection.Retry(s.clients[e.token], e.pid, d.pkt).Some?
          then f.(retries := f.retries + 1) else f
  {
    var r := ApplyRetry(s, d);
    if d.token in s.clients && Connection.Retry(s.clients[d.token], d.pid, d.pkt).None? {
      RefusedRetryServes(s, d);
      if r.Some? && InFlightAt(r.value.clients, e) {
        assert Kept(s.clients[e.token], r.value.clients[e.token]);
      }
    }
  }

  /** The entry is in flight before and after every event of the run; it is never a new one. */
  ghost predicate Survives(y: Sys, events: seq<Event>, e: Slot)
    decreases |events|
  {
    Alive(y, e) && (events == [] || (Step(y, events[0]).Some? && Survives(Step(y, events[0]).value, events[1..], e)))
  }

  ghost function Final(y: Sys, events: seq<Event>, e: Slot): (y': Sys)
    requires Survives(y, events, e)
    ensures Alive(y', e)
    decreases |events|
  {
    if events == [] then y else Final(Step(y, events[0]).value, events[1..], e)
  }

  ghost function RetriesCounted(y: Sys, events: seq<Event>, e: Slot): (n: nat)
    requires Survives(y, events, e)
    decreases |events|
  {
    if events == [] then 0
    else (if Counts(y, events[0], e) then 1 else 0) + RetriesCounted(Step(y, events[0]).value, events[1..], e)
  }

  /** How many counted retransmissions an entry can still have. */
  function Potential(f: Connection.InFlight): (n: int) {
    Connection.QOS1_MAX_RETRIES - f.retries
    + if f.qos2 && !f.awaitPubcomp then Connection.QOS1_MAX_RETRIES else 0
  }

  /**
   As long as an entry lives, its message and QoS never change, it never goes back from waiting
   for PUBCOMP, and every counted retransmission uses up potential. Within one phase the
   retries counted are exactly those in the entry.
   */
  lemma {:induction false} EntryOverItsLife(y: Sys, events: seq<Event>, e: Slot)
    requires Inv(y) && Survives(y, events, e)
    ensures Inv(Final(y, events, e))
    ensures var f, f' := At(y, e), At(Final(y, events, e), e);
      && f'.pkt == f.pkt && f'.qos2 == f.qos2 && (f.awaitPubcomp ==> f'.awaitPubcomp)
      && RetriesCounted(y, events, e) + Potential(f') <= Potential(f)
      && (f'.awaitPubcomp == f.awaitPubcomp ==> RetriesCounted(y, events, e) == f'.retries - f.retries)
    decreases |events|
  {
    if events != [] {
      var y1 := Step(y, events[0]).value;
      EntryStep(y, events[0], e);
      StepKeepsInv(y, events[0]);
      EntryOverItsLife(y1, events[1..], e);
    }
  }

  /**
   Over its whole life an entry is retransmitted, counted, at most QOS1_MAX_RETRIES times in
   each phase of its handshake, even when the tick applies a list that is older than the
   PUBREC: that is twice as many for QoS 2 as for QoS 1.
   */
  lemma RetransmissionsAreBounded(y: Sys, events: seq<Event>, e: Slot)
    requires Inv(y) && Survives(y, events, e)
    ensures var f, f' := At(y, e), At(Final(y, events, e), e);
      && RetriesCounted(y, events, e) <= Connection.QOS1_MAX_RETRIES * (if f.qos2 then 2 else 1)
      && (f'.awaitPubcomp == f.awaitPubcomp ==> RetriesCounted(y, events, e) <= Connection.QOS1_MAX_RETRIES)
  {
    EntryOverItsLife(y, events, e);
    var y' := Final(y, events, e);
    assert Connection.EntryValid(e.pid, At(y, e)) && Connection.EntryValid(e.pid, At(y', e));
  }

  // ---- Giving up

  /** The token is on the give-up list, or its connection is already gone for good. */
  ghost predicate Doomed(y: Sys, token: nat) {
    && token < y.s.nextToken
    && ((exists i :: 0 <= i < |y.giveUp| && y.giveUp[i].token == token) || token !in y.s.clients)
  }

  lemma StepKeepsDoom(y: Sys, ev: Event, token: nat)
    requires Inv(y) && Doomed(y, token) && Step(y, ev).Some?
    ensures Doomed(Step(y, ev).value, token)
  {
    if Quiet(ev) {
      QuietIsCalm(y, ev);
    } else {
      match ev
      case Dropping(_) => RemovingKeepsDoom(y, ev, token, Step(y, ev).value);
      case Writing(_, _) => RemovingKeepsDoom(y, ev, token, Step(y, ev).value);
      case NextGiveUp => RemovingKeepsDoom(y, ev, token, Step(y, ev).value);
      case NextRetry => RetryKeepsDoom(y, token, Step(y, ev).value);
      case Accept => AcceptKeepsDoom(y, token);
      case Leaving(_) =>
      case Tick(_, _, _) =>
    }
  }

  lemma AcceptKeepsDoom(y: Sys, token: nat)
    requires Doomed(y, token)
    ensures Doomed(Accepted(y), token)
  {
  }

  lemma RemovingKeepsDoom(y: Sys, ev: Event, token: nat, y': Sys)
    requires Doomed(y, token) && Removing(ev) && LoudStep(y, ev) == Some(y')
    ensures Doomed(y', token)
  {
    var gone := RemovingServes(y, ev, y');
    if ev.NextGiveUp? && gone != token && token in y.s.clients {
      var i :| 0 <= i < |y.giveUp| && y.giveUp[i].token == token;
      assert y'.giveUp[i - 1].token == token;
    }
  }

  lemma RetryKeepsDoom(y: Sys, token: nat, y': Sys)
    requires Doomed(y, token) && LoudStep(y, NextRetry) == Some(y')
    ensures Doomed(y', token)
  {
    if y.retry[0].token !in y.s.clients ||
        Connection.Retry(y.s.clients[y.retry[0].token], y.retry[0].pid, y.retry[0].pkt).None? {
      RefusedRetryServes(y.s, y.retry[0]);
    }
  }

  lemma {:induction false} RunKeepsDoom(y: Sys, events: seq<Event>, token: nat)
    requires Inv(y) && Doomed(y, token) && Run(y, events).Some?
    ensures Inv(Run(y, events).value) && Doomed(Run(y, events).value, token)
  {
    if events != [] {
      var front := events[..|events| - 1];
      RunKeepsDoom(y, front, token);
      StepKeepsInv(Run(y, front).value, events[|events| - 1]);
      StepKeepsDoom(Run(y, front).value, events[|events| - 1], token);
    }
  }

  /**
   When the tick finds an entry whose timer has expired and whose retries are used up, then,
   whatever is handled in between, its client is gone once the tick's lists are worked off.
   */
  lemma UsedUpEntriesEndTheClient(
    y: Sys, expired: set<Slot>, retry: seq<DueAt>, giveUp: seq<Slot>, e: Slot, events: seq<Event>, y1: Sys, y2: Sys)
    requires Inv(y) && Step(y, Tick(expired, retry, giveUp)) == Some(y1)
    requires e in expired && Alive(y, e) && At(y, e).retries == Connection.QOS1_MAX_RETRIES
    requires Run(y1, events) == Some(y2) && y2.giveUp == []
    ensures e.token !in y2.s.clients
  {
    StepKeepsInv(y, Tick(expired, retry, giveUp));
    TickMeaning(y, expired, retry, giveUp, y1);
    TickDooms(y, expired, retry, giveUp, e);
    RunKeepsDoom(y1, events, e.token);
  }

  lemma TickMeaning(y: Sys, expired: set<Slot>, retry: seq<DueAt>, giveUp: seq<Slot>, y1: Sys)
    requires Step(y, Tick(expired, retry, giveUp)) == Some(y1)
    ensures IsRound(y.s.clients, expired, retry, giveUp) && y1 == y.(retry := retry, giveUp := giveUp)
  {
  }

  lemma TickDooms(y: Sys, expired: set<Slot>, retry: seq<DueAt>, giveUp: seq<Slot>, e: Slot)
    requires Healthy(y.s) && IsRound(y.s.clients, expired, retry, giveUp)
    requires e in expired && Alive(y, e) && At(y, e).retries == Connection.QOS1_MAX_RETRIES
    ensures Doomed(y.(retry := retry, giveUp := giveUp), e.token)
  {
    assert e in giveUp;
  }
}
