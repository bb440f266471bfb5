/**
 Two runs of a broker that has just started, with one client, that end in a panic: the client
 goes while a message for it is unsent, and the client's own PUBLISH drops it.
 */
module Panics {
  import opened Bytes
  import opened Topics
  import opened FanOut
  import opened BrokerModel
  import opened Runs
  import opened Sessions
  import opened Leftovers
  import opened Leaving
  import FlatScan
  import Outbox
  import Wire
  import Connection

  // ---- The run: connect, subscribe, publish to oneself, and never acknowledge

  const A: Bytes := [97]
  const HELLO := Hello(A, false, None)
  const WISH := Wish(A, 1)
  const SUB := Subscription(A, 1, 1)

  function PublishEvent(payload: Bytes): (e: Event) {
    Publishing(1, 2, Wire.PublishBody(A, payload, Some(9)))
  }

  /** A session is set up, and then the message is published some times. */
  function Setup(): (events: seq<Event>) {
    [Accept, Greeting(1, HELLO), Subscribing(1, 7, [WISH], [[]])]
  }

  function Repeated(setup: seq<Event>, e: Event, n: nat): (events: seq<Event>) {
    if n == 0 then setup else Repeated(setup, e, n - 1) + [e]
  }

  /** What is then in the client's queue, because nothing is written. */
  function Loaded(payload: Bytes, n: nat): (items: seq<Item>) {
    if n == 0 then [Other(Wire.BuildConnack()), Other(Wire.BuildSuback(7, [1]))]
    else
      Loaded(payload, n - 1)
      + [Other(Wire.BuildAck(Wire.PUBACK, 9)), Forward(Message(A, payload, 1), n, false, false)]
  }

  function Pkt(payload: Bytes, pid: nat): (pkt: Bytes) {
    Wire.BuildForward(A, payload, 1, Some(pid), false, false)
  }

  /** And what is in its window. */
  function Window(payload: Bytes, n: nat): (m: map<nat, Connection.InFlight>) {
    if n == 0 then map[]
    else Window(payload, n - 1)[n := Connection.InFlight(Pkt(payload, n), 0, false, false)]
  }

  function Client1(queue: seq<Outbox.Queued>): (c: Connection.State) {
    Connection.FRESH.(clientId := A, cleanSession := false, out := Outbox.Outbox(queue, [], 0))
  }

  function Conn(payload: Bytes, n: nat): (c: Connection.State) {
    Client1(Written(Loaded(payload, n))).(nextPid := n + 1, inFlight := Window(payload, n))
  }

  /** The broker after `n` messages, as long as the window holds them. */
  function AtWork(payload: Bytes, n: nat): (s: State) {
    State(map[1 := Conn(payload, n)], [SUB], map[], map[], 2, n)
  }

  function Working(payload: Bytes, n: nat): (y: Sys) {
    Start(map[], map[]).(s := AtWork(payload, n))
  }

  lemma {:induction false} ConnIsNumbered(payload: Bytes, n: nat)
    requires n <= Connection.IN_FLIGHT_CAP
    ensures Numbered(Conn(payload, n), n)
  {
    if n > 0 {
      ConnIsNumbered(payload, n - 1);
      assert n !in Window(payload, n - 1);
    }
  }

  lemma {:induction false} LoadedSize(payload: Bytes, n: nat)
    ensures |Loaded(payload, n)| == 2 + 2 * n
  {
    if n > 0 {
      LoadedSize(payload, n - 1);
    }
  }

  lemma WrittenTwo(items: seq<Item>, a: Item, b: Item)
    ensures Written(items + [a, b]) == Written(items) + [PacketOf(a)] + [PacketOf(b)]
    ensures ReliableMessages(items + [a, b]) == ReliableMessages(items) + MessageOf(a) + MessageOf(b)
    ensures AllShort(items + [a, b]) <==> AllShort(items) && Short(a) && Short(b)
    ensures NonePanics(items + [a, b]) <==> NonePanics(items) && !Panics(a) && !Panics(b)
  {
    assert items + [a, b] == items + [a] + [b];
    WrittenSnoc(items, a);
    WrittenSnoc(items + [a], b);
  }

  // ---- Setting up

  lemma RunOne(y: Sys, e: Event, y1: Sys, events: seq<Event>)
    requires Step(y, e) == Some(y1)
    ensures Run(y, [e] + events) == Run(y1, events)
  {
    RunCons(y, e, events);
  }

  /** The broker with this one client. */
  function Alone(queue: seq<Outbox.Queued>, subs: seq<Subscription>): (s: State) {
    State(map[1 := Client1(queue)], subs, map[], map[], 2, 0)
  }

  lemma Greets(s: State)
    requires s == State(map[1 := Connection.FRESH], [], map[], map[], 2, 0)
    ensures ConnectArm(s, 1, HELLO) == Fine(Alone([Outbox.Queued(false, Wire.BuildConnack())], []))
  {
    var c := Greeted(Connection.FRESH, HELLO);
    PrependNothing([Outbox.Queued(false, Wire.BuildConnack())]);
    assert c == Client1([Outbox.Queued(false, Wire.BuildConnack())]);
    assert s.clients[1 := c] == map[1 := c];
    assert s.sessions - {A} == map[];
  }

  lemma Subscribes(queue: seq<Outbox.Queued>)
    requires |queue| < Outbox.WRITE_QUEUE_CAP
    ensures AreRetainedOrders(map[], [WISH], [[]])
    ensures SubscribeArm(Alone(queue, []), 1, 7, [WISH], [[]])
      == Fine(Alone(queue + [Outbox.Queued(false, Wire.BuildSuback(7, [1]))], [SUB]))
  {
    var s := Alone(queue, []);
    var wishes, orders: seq<seq<Bytes>> := [WISH], [[]];
    assert IsRetainedOrder(s.retained, A, orders[0]);
    var s1 := Alone(queue, [SUB]);
    PrependNothing([SUB]);
    assert SubscribeOne(s, 1, WISH, orders[0]) == (s1, true);
    assert wishes[1..] == [] && orders[1..] == [];
    assert SubscribeAll(s, 1, wishes, orders) == (s1, true);
    assert Grants(wishes) == [1];
    assert s1.clients[1 := Client1(queue + [Outbox.Queued(false, Wire.BuildSuback(7, [1]))])]
      == map[1 := Client1(queue + [Outbox.Queued(false, Wire.BuildSuback(7, [1]))])];
  }

  lemma SetUp(payload: Bytes, y0: Sys, setup: seq<Event>)
    requires y0 == Start(map[], map[]) && setup == Setup()
    ensures Run(y0, setup) == Some(Working(payload, 0))
  {
    var y1 := Accepted(y0);
    var connack, suback := Outbox.Queued(false, Wire.BuildConnack()), Outbox.Queued(false, Wire.BuildSuback(7, [1]));
    var y2 := y1.(s := Alone([connack], []));
    Greets(y1.s);
    Subscribes([connack]);
    QueueSetUp(payload, connack, suback);
    assert AtWork(payload, 0) == Alone([connack] + [suback], [SUB]);
    RunThree(y0, Accept, y1, Greeting(1, HELLO), y2, Subscribing(1, 7, [WISH], [[]]), Working(payload, 0));
  }

  lemma RunThree(y0: Sys, e1: Event, y1: Sys, e2: Event, y2: Sys, e3: Event, y3: Sys)
    requires Step(y0, e1) == Some(y1) && Step(y1, e2) == Some(y2) && Step(y2, e3) == Some(y3)
    ensures Run(y0, [e1, e2, e3]) == Some(y3)
  {
    RunOne(y0, e1, y1, [e2, e3]);
    RunOne(y1, e2, y2, [e3]);
    RunOne(y2, e3, y3, []);
    assert [e1] + [e2, e3] == [e1, e2, e3] && [e2] + [e3] == [e2, e3] && [e3] + [] == [e3];
  }

  lemma QueueSetUp(payload: Bytes, connack: Outbox.Queued, suback: Outbox.Queued)
    requires connack == Outbox.Queued(false, Wire.BuildConnack())
    requires suback == Outbox.Queued(false, Wire.BuildSuback(7, [1]))
    ensures Written(Loaded(payload, 0)) == [connack] + [suback]
    ensures ReliableMessages(Loaded(payload, 0)) == [] && AllShort(Loaded(payload, 0)) && NonePanics(Loaded(payload, 0))
  {
    WrittenTwo([], Other(connack.pkt), Other(suback.pkt));
    PrependNothing([Other(connack.pkt), Other(suback.pkt)]);
  }

  // ---- Publishing

  lemma TriedSelf()
    ensures FlatScan.Tried([SUB], A) == [SUB]
  {
    ExactMatchesOnlyItself(A, A);
    assert [SUB][..0] == [];
    AppendNothing([SUB]);
  }

  lemma DeliverNumbered(c: Connection.State, n: nat, payload: Bytes)
    requires Numbered(c, n) && |c.out.queue| < Outbox.WRITE_QUEUE_CAP
    ensures Connection.Deliver(c, A, payload, 1, false) ==
      if n == Connection.IN_FLIGHT_CAP then Connection.Lost
      else
        var pkt := Pkt(payload, n + 1);
        Connection.Delivered(c.(out := c.out.(queue := c.out.queue + [Outbox.Queued(true, pkt)]), nextPid := n + 2,
          inFlight := c.inFlight[n + 1 := Connection.InFlight(pkt, 0, false, false)]))
  {
    if n < Connection.IN_FLIGHT_CAP {
      assert Connection.SearchPid(c.inFlight.Keys, n + 1, n + 1, n + 1 + 65536) == Some((n + 1, n + 2));
    }
  }

  /** What the fan-out does: one more message in flight, or, with a full window, the client is dropped. */
  lemma FanSelf(c: Connection.State, payload: Bytes)
    ensures var m := Message(A, payload, 1);
      match Connection.Deliver(c, A, payload, 1, false)
      case Delivered(c') => Fan(map[1 := c], [SUB], m) == (map[1 := c'], [SUB])
      case Lost => 1 !in Fan(map[1 := c], [SUB], m).0
      case Full => true
  {
    var m, cs := Message(A, payload, 1), map[1 := c];
    TriedSelf();
    FanIsTried(cs, [SUB], m);
    var (cs1, ok) := SendOne(cs, SUB, m);
    var oks := SendAll(cs, [SUB], m).1;
    assert SendAll(cs, [SUB], m) == (cs1, [ok] + []) by {
      assert [SUB][1..] == [];
    }
    if ok {
      assert cs1 == map[1 := cs1[1]];
      OrderIsFanout([SUB], A);
      FlatScan.PickedIsTried([SUB], A);
      FlatScan.SweepNothing([SUB], Order([SUB], A), oks);
    }
  }

  lemma Flags()
    ensures Wire.PublishHeader(1, false, false) % 16 == 2 && Wire.QosOf(2) == 1
  {
  }

  lemma Parses(topic: Bytes, payload: Bytes)
    requires 0 < |topic| <= U16_MAX
    ensures Wire.ParsePublish(2, Wire.PublishBody(topic, payload, Some(9)))
      == Some(Wire.Publish(topic, 1, Some(9), payload, false))
  {
    Flags();
    Wire.ForwardRoundTrip(topic, payload, 1, Some(9), false, false);
  }

  /** The PUBLISH is answered and published. */
  lemma IsPublished(s: State, payload: Bytes, cs: map<nat, Connection.State>)
    requires 1 in s.clients && s.subs == [SUB]
    requires var c := s.clients[1];
      cs == s.clients[1 := c.(out := Outbox.OfferOrDrop(c.out, Wire.BuildAck(Wire.PUBACK, 9)))]
    ensures PublishArm(s, 1, 2, Wire.PublishBody(A, payload, Some(9)))
      == Fine(Arrived(s, cs, Wire.Publish(A, 1, Some(9), payload, false)))
  {
    Flags();
    Parses(A, payload);
    var p := Wire.Publish(A, 1, Some(9), payload, false);
    assert AnswerIn(s.clients, 1, 1, 9) == (cs, false);
    assert TakePublish(s, 1, p) == Arrived(s, cs, p);
  }

  lemma IsArrived(s: State, payload: Bytes, cs: map<nat, Connection.State>)
    requires s.sessions == map[] && s.subs == [SUB]
    ensures var r := Arrived(s, cs, Wire.Publish(A, 1, Some(9), payload, false));
      var (clients, subs) := Fan(cs, [SUB], Message(A, payload, 1));
      r == s.(clients := clients, subs := subs, received := s.received + 1)
  {
    assert StashAll(s.sessions, Message(A, payload, 1)) == map[];
  }

  /** The client's connection once its PUBACK is queued. */
  lemma IsAnswered(payload: Bytes, n: nat, c: Connection.State)
    requires n <= Connection.IN_FLIGHT_CAP
    requires c == Conn(payload, n).(out := Outbox.OfferOrDrop(Conn(payload, n).out, Wire.BuildAck(Wire.PUBACK, 9)))
    ensures Numbered(c, n) && |c.out.queue| < Outbox.WRITE_QUEUE_CAP
    ensures c == Client1(Written(Loaded(payload, n)) + [Outbox.Queued(false, Wire.BuildAck(Wire.PUBACK, 9))])
      .(nextPid := n + 1, inFlight := Window(payload, n))
  {
    ConnIsNumbered(payload, n);
    LoadedSize(payload, n);
  }

  lemma IsDelivered(payload: Bytes, n: nat, c: Connection.State)
    requires n < Connection.IN_FLIGHT_CAP
    requires c == Conn(payload, n).(out := Outbox.OfferOrDrop(Conn(payload, n).out, Wire.BuildAck(Wire.PUBACK, 9)))
    ensures Connection.Deliver(c, A, payload, 1, false) == Connection.Delivered(Conn(payload, n + 1))
  {
    IsAnswered(payload, n, c);
    DeliverNumbered(c, n, payload);
    var puback, fwd := Other(Wire.BuildAck(Wire.PUBACK, 9)), Forward(Message(A, payload, 1), n + 1, false, false);
    WrittenTwo(Loaded(payload, n), puback, fwd);
  }

  lemma ArrivesAs(payload: Bytes, n: nat, c: Connection.State)
    requires n < Connection.IN_FLIGHT_CAP
    requires c == Conn(payload, n).(out := Outbox.OfferOrDrop(Conn(payload, n).out, Wire.BuildAck(Wire.PUBACK, 9)))
    ensures Arrived(AtWork(payload, n), map[1 := c], Wire.Publish(A, 1, Some(9), payload, false))
      == AtWork(payload, n + 1)
  {
    IsArrived(AtWork(payload, n), payload, map[1 := c]);
    IsDelivered(payload, n, c);
    FanSelf(c, payload);
  }

  lemma Publishes(payload: Bytes, n: nat)
    requires n < Connection.IN_FLIGHT_CAP
    ensures PublishArm(AtWork(payload, n), 1, 2, Wire.PublishBody(A, payload, Some(9))) == Fine(AtWork(payload, n + 1))
  {
    var s, c0 := AtWork(payload, n), Conn(payload, n);
    var c := c0.(out := Outbox.OfferOrDrop(c0.out, Wire.BuildAck(Wire.PUBACK, 9)));
    assert s.clients[1 := c] == map[1 := c];
    IsPublished(s, payload, map[1 := c]);
    ArrivesAs(payload, n, c);
  }

  lemma LastPublish(payload: Bytes) returns (s: State)
    ensures PublishArm(AtWork(payload, Connection.IN_FLIGHT_CAP), 1, 2, Wire.PublishBody(A, payload, Some(9)))
      == Fine(s)
    ensures 1 !in s.clients && s.nextToken == 2
  {
    var s0, c0 := AtWork(payload, Connection.IN_FLIGHT_CAP), Conn(payload, Connection.IN_FLIGHT_CAP);
    var c := c0.(out := Outbox.OfferOrDrop(c0.out, Wire.BuildAck(Wire.PUBACK, 9)));
    assert s0.clients[1 := c] == map[1 := c];
    IsPublished(s0, payload, map[1 := c]);
    IsArrived(s0, payload, map[1 := c]);
    IsAnswered(payload, Connection.IN_FLIGHT_CAP, c);
    DeliverNumbered(c, Connection.IN_FLIGHT_CAP, payload);
    FanSelf(c, payload);
    s := Arrived(s0, map[1 := c], Wire.Publish(A, 1, Some(9), payload, false));
  }

  lemma PublishStep(y: Sys, payload: Bytes, s: State)
    requires 1 in y.s.clients && PublishArm(y.s, 1, 2, Wire.PublishBody(A, payload, Some(9))) == Fine(s)
    ensures Step(y, PublishEvent(payload)) == Some(y.(s := s))
  {
  }

  lemma RunMore(y: Sys, front: seq<Event>, e: Event, y1: Sys, y2: Sys)
    requires Run(y, front) == Some(y1) && Step(y1, e) == Some(y2)
    ensures Run(y, front + [e]) == Some(y2)
  {
    assert (front + [e])[..|front|] == front;
  }

  lemma LoadStep(payload: Bytes, n: nat)
    requires n < Connection.IN_FLIGHT_CAP
    ensures Step(Working(payload, n), PublishEvent(payload)) == Some(Working(payload, n + 1))
  {
    Publishes(payload, n);
    PublishStep(Working(payload, n), payload, AtWork(payload, n + 1));
  }

  /** Each state is a step from the one before. */
  ghost predicate AreSteps(e: Event, states: nat -> Sys, n: nat) {
    forall i: nat :: i < n ==> IsStep(states(i), e, states(i + 1))
  }

  ghost predicate IsStep(y: Sys, e: Event, y': Sys) {
    Step(y, e) == Some(y')
  }

  lemma {:induction false} RunRepeated(y0: Sys, setup: seq<Event>, e: Event, states: nat -> Sys, n: nat)
    requires Run(y0, setup) == Some(states(0)) && AreSteps(e, states, n)
    ensures Run(y0, Repeated(setup, e, n)) == Some(states(n))
  {
    if n > 0 {
      RunRepeated(y0, setup, e, states, n - 1);
      assert IsStep(states(n - 1), e, states(n - 1 + 1));
      RunMore(y0, Repeated(setup, e, n - 1), e, states(n - 1), states(n));
    }
  }

  lemma PublishesAreSteps(payload: Bytes, n: nat, e: Event, states: nat -> Sys)
    requires n <= Connection.IN_FLIGHT_CAP && e == PublishEvent(payload)
    requires forall i: nat :: i <= n ==> states(i) == Working(payload, i)
    ensures AreSteps(e, states, n)
  {
    forall i: nat | i < n
      ensures IsStep(states(i), e, states(i + 1))
    {
      LoadStep(payload, i);
    }
  }

  lemma Loads(payload: Bytes, n: nat, y0: Sys, setup: seq<Event>, e: Event)
    requires n <= Connection.IN_FLIGHT_CAP && Run(y0, setup) == Some(Working(payload, 0)) && e == PublishEvent(payload)
    ensures Run(y0, Repeated(setup, e, n)) == Some(Working(payload, n))
  {
    var states := (i: nat) => Working(payload, i);
    PublishesAreSteps(payload, n, e, states);
    RunRepeated(y0, setup, e, states, n);
  }

  // ---- And then

  lemma LoadedOnce(payload: Bytes)
    ensures var items, n := Loaded(payload, 1), 5 + |payload|;
      && ReliableMessages(items) == [Message(A, payload, 1)]
      && (AllShort(items) <==> n <= 127)
      && (NonePanics(items) <==> !Wire.Misread(n, 1))
  {
    var fwd := Forward(Message(A, payload, 1), 1, false, false);
    var puback := Other(Wire.BuildAck(Wire.PUBACK, 9));
    QueueSetUp(payload, Outbox.Queued(false, Wire.BuildConnack()), Outbox.Queued(false, Wire.BuildSuback(7, [1])));
    WrittenTwo(Loaded(payload, 0), puback, fwd);
    assert |Body(fwd)| == 5 + |payload|;
    PrependNothing([Message(A, payload, 1)]);
  }

  /** What becomes of the one message when the client goes. */
  lemma OneUnsent(payload: Bytes, s: State)
    requires s == AtWork(payload, 1)
    ensures 5 + |payload| <= 127 ==>
      && Remove(s, 1).Some? && A in Remove(s, 1).value.sessions
      && Remove(s, 1).value.sessions[A].offline == [Message(A, payload, 1)]
    ensures Remove(s, 1).None? <==> Wire.Misread(5 + |payload|, 1)
  {
    LoadedOnce(payload);
    WillDueMeaning(s, 1);
    RemovePanicsExactly(s, 1, Loaded(payload, 1));
    if 5 + |payload| <= 127 {
      LeavingKeepsEverything(s, 1, Loaded(payload, 1));
      PrependNothing([Message(A, payload, 1)]);
    }
  }

  /**
   A client with a session connects, subscribes, publishes one message to itself, and is gone. With
   122 bytes of payload the message is in its session then; with one byte more the broker panics.
   */
  lemma UnsentMessagePanics(payload: Bytes, y0: Sys, setup: seq<Event>, y: Sys)
    requires y0 == Start(map[], map[]) && setup == Setup() && y == Working(payload, 1)
    ensures Run(y0, Repeated(setup, PublishEvent(payload), 1)) == Some(y)
    ensures |payload| == 122 ==>
      && Step(y, Dropping(1)).Some?
      && var sessions := Step(y, Dropping(1)).value.s.sessions;
      && A in sessions && sessions[A].offline == [Message(A, payload, 1)]
    ensures |payload| == 123 ==> Step(y, Dropping(1)).None?
  {
    SetUp(payload, y0, setup);
    Loads(payload, 1, y0, setup, PublishEvent(payload));
    OneUnsent(payload, y.s);
    DroppingIs(y);
  }

  lemma DroppingIs(y: Sys)
    ensures Step(y, Dropping(1)) == Lift(y, 1, Remove(y.s, 1))
  {
  }

  /**
   The same client publishes once more often than its window has places, and pings. The last PUBLISH
   is one that it sends itself, so it is dropped; and the PINGREQ makes the broker panic.
   */
  lemma OwnPublishPanics(payload: Bytes, y0: Sys, setup: seq<Event>, y: Sys) returns (y': Sys)
    requires y0 == Start(map[], map[]) && setup == Setup() && y == Working(payload, Connection.IN_FLIGHT_CAP)
    ensures Run(y0, Repeated(setup, PublishEvent(payload), Connection.IN_FLIGHT_CAP)) == Some(y)
    ensures Step(y, PublishEvent(payload)) == Some(y')
    ensures PingArm(y'.s, 1).Panic? && Step(y', Pinging(1)).None?
  {
    SetUp(payload, y0, setup);
    Loads(payload, Connection.IN_FLIGHT_CAP, y0, setup, PublishEvent(payload));
    var s := LastPublish(payload);
    PublishStep(y, payload, s);
    y' := y.(s := s);
    PingPanics(y');
  }

  lemma PingPanics(y: Sys)
    requires 1 !in y.s.clients && y.s.nextToken == 2
    ensures PingArm(y.s, 1).Panic? && Step(y, Pinging(1)).None?
  {
  }
}
