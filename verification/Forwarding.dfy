/**
 What a connection gets of the messages that are sent to it: which copies are queued, at which
 QoS, and what is entered in its window. First for any messages, then for a publish.
 */
module Forwarding {
  import opened Bytes
  import opened Topics
  import opened FanOut
  import opened BrokerModel
  import opened Serving
  import opened Leftovers
  import FlatScan
  import Framing
  import Outbox
  import Wire
  import Connection

  // ---- The bounded queue while it takes packets

  /** A queue that takes one more packet, at the cost of its oldest unreliable one when it is full. */
  function Push(queue: seq<Outbox.Queued>, x: Outbox.Queued): (r: seq<Outbox.Queued>) {
    var k := Outbox.FirstUnreliable(queue);
    if |queue| < Outbox.WRITE_QUEUE_CAP then queue + [x]
    else if k < |queue| then Outbox.Without(queue, k) + [x]
    else queue
  }

  function PushAll(queue: seq<Outbox.Queued>, xs: seq<Outbox.Queued>): (r: seq<Outbox.Queued>) {
    if xs == [] then queue else Push(PushAll(queue, xs[..|xs| - 1]), xs[|xs| - 1])
  }

  lemma {:induction false} PushAllConcat(
    queue: seq<Outbox.Queued>, a: seq<Outbox.Queued>, b: seq<Outbox.Queued>)
    ensures PushAll(queue, a + b) == PushAll(PushAll(queue, a), b)
    decreases |b|
  {
    if b == [] {
      AppendNothing(a);
    } else {
      var n := |b| - 1;
      SplitLast(b);
      Assoc(a, b[..n], [b[n]]);
      PushAllConcat(queue, a, b[..n]);
      SplitAt((a + b[..n]) + [b[n]], |a| + n);
    }
  }

  /** While there is room nothing is evicted. */
  lemma {:induction false} PushAllWithRoom(queue: seq<Outbox.Queued>, xs: seq<Outbox.Queued>)
    requires |queue| + |xs| <= Outbox.WRITE_QUEUE_CAP
    ensures PushAll(queue, xs) == queue + xs
  {
    if xs == [] {
      AppendNothing(queue);
    } else {
      var n := |xs| - 1;
      PushAllWithRoom(queue, xs[..n]);
      SplitLast(xs);
      Assoc(queue, xs[..n], [xs[n]]);
    }
  }

  /** The reliable packets of a queue, in order. */
  function ReliablePart(queue: seq<Outbox.Queued>): (r: seq<Outbox.Queued>) {
    if queue == [] then []
    else
      ReliablePart(queue[..|queue| - 1]) + if queue[|queue| - 1].reliable then [queue[|queue| - 1]] else []
  }

  lemma PartSnoc(queue: seq<Outbox.Queued>, x: Outbox.Queued)
    ensures ReliablePart(queue + [x]) == ReliablePart(queue) + if x.reliable then [x] else []
  {
    assert (queue + [x])[..|queue|] == queue;
  }

  /** Eviction leaves the reliable packets in their order. */
  lemma {:induction false} PartWithout(queue: seq<Outbox.Queued>, k: nat)
    requires k < |queue| && !queue[k].reliable
    ensures ReliablePart(Outbox.Without(queue, k)) == ReliablePart(queue)
  {
    var n := |queue| - 1;
    var front := queue[..n];
    if k == n {
      assert Outbox.Without(queue, k) == front;
      AppendNothing(ReliablePart(front));
    } else {
      PartWithout(front, k);
      assert Outbox.Without(queue, k) == Outbox.Without(front, k) + [queue[n]];
      PartSnoc(Outbox.Without(front, k), queue[n]);
    }
  }

  lemma PushPart(queue: seq<Outbox.Queued>, x: Outbox.Queued)
    requires |queue| <= Outbox.WRITE_QUEUE_CAP && !Outbox.Clogged(queue)
    ensures ReliablePart(Push(queue, x)) == ReliablePart(queue) + if x.reliable then [x] else []
    ensures |Push(queue, x)| == Least(Outbox.WRITE_QUEUE_CAP, |queue| + 1)
  {
    var k := Outbox.FirstUnreliable(queue);
    if |queue| < Outbox.WRITE_QUEUE_CAP {
      PartSnoc(queue, x);
    } else {
      PartWithout(queue, k);
      PartSnoc(Outbox.Without(queue, k), x);
    }
  }

  lemma {:induction false} PartConcat(a: seq<Outbox.Queued>, b: seq<Outbox.Queued>)
    ensures ReliablePart(a + b) == ReliablePart(a) + ReliablePart(b)
    decreases |b|
  {
    if b == [] {
      AppendNothing(a);
      AppendNothing(ReliablePart(a));
    } else {
      var n := |b| - 1;
      PartConcat(a, b[..n]);
      SplitLast(b);
      Assoc(a, b[..n], [b[n]]);
      PartSnoc(a + b[..n], b[n]);
      Assoc(ReliablePart(a), ReliablePart(b[..n]), if b[n].reliable then [b[n]] else []);
    }
  }

  function Least(a: nat, b: nat): (r: nat) {
    if a < b then a else b
  }

  /** The new queue holds the packets behind the old one, as far as it keeps packets. */
  ghost predicate HasTaken(was: seq<Outbox.Queued>, queue: seq<Outbox.Queued>, xs: seq<Outbox.Queued>) {
    && queue == PushAll(was, xs)
    && ReliablePart(queue) == ReliablePart(was) + ReliablePart(xs)
    && |queue| == Least(Outbox.WRITE_QUEUE_CAP, |was| + |xs|)
  }

  lemma TakenTwice(q0: seq<Outbox.Queued>, q1: seq<Outbox.Queued>, q2: seq<Outbox.Queued>,
    a: seq<Outbox.Queued>, b: seq<Outbox.Queued>)
    requires HasTaken(q0, q1, a) && HasTaken(q1, q2, b)
    ensures HasTaken(q0, q2, a + b)
  {
    PushAllConcat(q0, a, b);
    PartConcat(a, b);
    Assoc(ReliablePart(q0), ReliablePart(a), ReliablePart(b));
  }

  // ---- Copies of some messages

  /** How many of the messages take a place in the window. */
  function AboveZero(ms: seq<Message>): (n: nat) {
    if ms == [] then 0 else (if ms[0].qos > 0 then 1 else 0) + AboveZero(ms[1..])
  }

  lemma {:induction false} AboveZeroConcat(a: seq<Message>, b: seq<Message>)
    ensures AboveZero(a + b) == AboveZero(a) + AboveZero(b)
  {
    if a == [] {
      PrependNothing(b);
    } else {
      DropOfConcat(a, b, 1);
      AboveZeroConcat(a[1..], b);
    }
  }

  lemma AboveZeroOne(m: Message)
    ensures AboveZero([m]) == if m.qos > 0 then 1 else 0
  {
    assert AboveZero([m]) == (if m.qos > 0 then 1 else 0) + AboveZero([m][1..]);
  }

  /** The first transmission of a message: a PUBLISH without the DUP flag. */
  function Copy(m: Message, pid: nat, retain: bool): (pkt: Bytes) {
    Wire.BuildForward(m.topic, m.payload, m.qos, if m.qos > 0 then Some(pid) else None, false, retain)
  }

  /** The packets are copies of the messages, reliable above QoS 0. */
  ghost predicate AreCopies(xs: seq<Outbox.Queued>, ms: seq<Message>, pids: seq<nat>, retain: bool) {
    && |xs| == |ms| == |pids|
    && forall i :: 0 <= i < |ms| ==> xs[i] == Outbox.Queued(ms[i].qos > 0, Copy(ms[i], pids[i], retain))
  }

  /**
   The window with a new entry for each message above QoS 0, under an id that was free: the copy,
   not sent again yet, and waiting for a PUBREC exactly at QoS 2. All other entries are as before.
   */
  ghost predicate Entered(
    w: map<nat, Connection.InFlight>, w': map<nat, Connection.InFlight>, ms: seq<Message>, pids: seq<nat>,
    retain: bool)
  {
    && |pids| == |ms|
    && (forall p :: p in w ==> p in w' && w'[p] == w[p])
    && (forall i :: Numbers(ms, pids, i) ==> pids[i] !in w && IsNew(w', ms[i], pids[i], retain))
    && (forall i, j :: i < j && Numbers(ms, pids, i) && Numbers(ms, pids, j) ==> pids[i] != pids[j])
    && (forall p :: p in w' && p !in w ==> exists i :: Numbers(ms, pids, i) && pids[i] == p)
  }

  /** The message at this place takes an id. */
  predicate Numbers(ms: seq<Message>, pids: seq<nat>, i: int) {
    0 <= i < |ms| && i < |pids| && ms[i].qos > 0
  }

  predicate IsNew(w: map<nat, Connection.InFlight>, m: Message, pid: nat, retain: bool) {
    pid in w && w[pid] == Connection.InFlight(Copy(m, pid, retain), 0, m.qos == 2, false)
  }

  /** The connection has taken the messages, in its queue and its window, and is otherwise as it was. */
  ghost predicate Took(c: Connection.State, c': Connection.State, ms: seq<Message>, retain: bool) {
    && Connection.Valid(c')
    && c' == c.(out := c.out.(queue := c'.out.queue), nextPid := c'.nextPid, inFlight := c'.inFlight)
    && |c'.inFlight| == |c.inFlight| + AboveZero(ms)
    && ReliableIn(c'.out.queue) == ReliableIn(c.out.queue) + AboveZero(ms)
    && HasCopies(c, c', ms, retain)
  }

  ghost predicate HasCopies(c: Connection.State, c': Connection.State, ms: seq<Message>, retain: bool) {
    exists xs, pids :: Holds(c, c', ms, xs, pids, retain)
  }

  /** These are the copies, with their ids. */
  ghost predicate Holds(
    c: Connection.State, c': Connection.State, ms: seq<Message>, xs: seq<Outbox.Queued>, pids: seq<nat>, retain: bool)
  {
    && AreCopies(xs, ms, pids, retain)
    && HasTaken(c.out.queue, c'.out.queue, xs)
    && Entered(c.inFlight, c'.inFlight, ms, pids, retain)
  }

  lemma TookLength(c: Connection.State, c': Connection.State, ms: seq<Message>, retain: bool)
    requires Took(c, c', ms, retain)
    ensures |c'.out.queue| == Least(Outbox.WRITE_QUEUE_CAP, |c.out.queue| + |ms|)
  {
    var xs, pids :| Holds(c, c', ms, xs, pids, retain);
  }

  lemma TookNothing(c: Connection.State, retain: bool)
    requires Connection.Valid(c)
    ensures Took(c, c, [], retain)
  {
    AppendNothing(ReliablePart(c.out.queue));
    assert Holds(c, c, [], [], [], retain);
  }

  /** Some messages, and then some more. */
  lemma TookTwice(c: Connection.State, c1: Connection.State, c2: Connection.State,
    a: seq<Message>, b: seq<Message>, retain: bool)
    requires Took(c, c1, a, retain) && Took(c1, c2, b, retain)
    ensures Took(c, c2, a + b, retain)
  {
    AboveZeroConcat(a, b);
    CopiesTwice(c, c1, c2, a, b, retain);
  }

  lemma CopiesTwice(c: Connection.State, c1: Connection.State, c2: Connection.State,
    a: seq<Message>, b: seq<Message>, retain: bool)
    requires HasCopies(c, c1, a, retain) && HasCopies(c1, c2, b, retain)
    ensures HasCopies(c, c2, a + b, retain)
  {
    var xs, p :| Holds(c, c1, a, xs, p, retain);
    CopiesBehind(c, c1, c2, a, b, xs, p, retain);
  }

  lemma CopiesBehind(c: Connection.State, c1: Connection.State, c2: Connection.State, a: seq<Message>, b: seq<Message>,
    xs: seq<Outbox.Queued>, p: seq<nat>, retain: bool)
    requires Holds(c, c1, a, xs, p, retain) && HasCopies(c1, c2, b, retain)
    ensures HasCopies(c, c2, a + b, retain)
  {
    var ys, q :| Holds(c1, c2, b, ys, q, retain);
    HoldsTwice(c, c1, c2, a, b, xs, ys, p, q, retain);
  }

  lemma HoldsTwice(c: Connection.State, c1: Connection.State, c2: Connection.State, a: seq<Message>, b: seq<Message>,
    xs: seq<Outbox.Queued>, ys: seq<Outbox.Queued>, p: seq<nat>, q: seq<nat>, retain: bool)
    requires Holds(c, c1, a, xs, p, retain) && Holds(c1, c2, b, ys, q, retain)
    ensures Holds(c, c2, a + b, xs + ys, p + q, retain)
  {
    CopiesConcat(xs, ys, a, b, p, q, retain);
    TakenTwice(c.out.queue, c1.out.queue, c2.out.queue, xs, ys);
    EnteredTwice(c.inFlight, c1.inFlight, c2.inFlight, a, b, p, q, retain);
  }

  lemma CopiesConcat(xs: seq<Outbox.Queued>, ys: seq<Outbox.Queued>, a: seq<Message>, b: seq<Message>,
    p: seq<nat>, q: seq<nat>, retain: bool)
    requires AreCopies(xs, a, p, retain) && AreCopies(ys, b, q, retain)
    ensures AreCopies(xs + ys, a + b, p + q, retain)
  {
  }

  lemma EnteredTwice(
    w: map<nat, Connection.InFlight>, w1: map<nat, Connection.InFlight>, w2: map<nat, Connection.InFlight>,
    a: seq<Message>, b: seq<Message>, p: seq<nat>, q: seq<nat>, retain: bool)
    requires Entered(w, w1, a, p, retain) && Entered(w1, w2, b, q, retain)
    ensures Entered(w, w2, a + b, p + q, retain)
  {
    var ms, pids := a + b, p + q;
    NumbersConcat(a, b, p, q);
    forall i | Numbers(ms, pids, i)
      ensures pids[i] !in w && IsNew(w2, ms[i], pids[i], retain)
    {
      if i < |a| {
        assert Numbers(a, p, i);
      } else {
        assert Numbers(b, q, i - |a|);
      }
    }
    forall pid | pid in w2 && pid !in w
      ensures exists i :: Numbers(ms, pids, i) && pids[i] == pid
    {
      if pid in w1 {
        var i :| Numbers(a, p, i) && p[i] == pid;
        assert Numbers(ms, pids, i) && pids[i] == pid;
      } else {
        var i :| Numbers(b, q, i) && q[i] == pid;
        assert Numbers(ms, pids, |a| + i) && pids[|a| + i] == pid;
      }
    }
    EnteredApart(w, w1, w2, a, b, p, q, retain);
  }

  lemma NumbersConcat(a: seq<Message>, b: seq<Message>, p: seq<nat>, q: seq<nat>)
    requires |a| == |p| && |b| == |q|
    ensures forall i :: Numbers(a + b, p + q, i) <==> if i < |a| then Numbers(a, p, i) else Numbers(b, q, i - |a|)
  {
  }

  lemma EnteredApart(
    w: map<nat, Connection.InFlight>, w1: map<nat, Connection.InFlight>, w2: map<nat, Connection.InFlight>,
    a: seq<Message>, b: seq<Message>, p: seq<nat>, q: seq<nat>, retain: bool)
    requires Entered(w, w1, a, p, retain) && Entered(w1, w2, b, q, retain)
    ensures forall i, j :: i < j && Numbers(a + b, p + q, i) && Numbers(a + b, p + q, j) ==> (p + q)[i] != (p + q)[j]
  {
    forall i, j | i < j && Numbers(a + b, p + q, i) && Numbers(a + b, p + q, j)
      ensures (p + q)[i] != (p + q)[j]
    {
      if j < |a| {
        assert Numbers(a, p, i) && Numbers(a, p, j);
      } else if i < |a| {
        assert Numbers(a, p, i) && Numbers(b, q, j - |a|);
        assert p[i] in w1 && q[j - |a|] !in w1;
      } else {
        assert Numbers(b, q, i - |a|) && Numbers(b, q, j - |a|);
      }
    }
  }

  // ---- One delivery

  /** What a delivery queues, and enters in the window. */
  lemma DeliverQueues(c: Connection.State, m: Message, retain: bool) returns (q: Outbox.Queued, pid: nat)
    requires Connection.Valid(c) && Connection.Deliver(c, m.topic, m.payload, m.qos, retain).Delivered?
    ensures q == Outbox.Queued(m.qos > 0, Copy(m, pid, retain)) && !Outbox.Clogged(c.out.queue)
    ensures m.qos > 0 ==> pid !in c.inFlight
    ensures var c' := Connection.Deliver(c, m.topic, m.payload, m.qos, retain).c;
      && c' == c.(out := c.out.(queue := Push(c.out.queue, q)), nextPid := c'.nextPid, inFlight := c'.inFlight)
      && c'.inFlight ==
           if m.qos > 0 then c.inFlight[pid := Connection.InFlight(q.pkt, 0, m.qos == 2, false)] else c.inFlight
  {
    if m.qos > 0 {
      Connection.AllocPidExactly(c.inFlight, c.nextPid);
      pid := Connection.AllocPid(c.inFlight, c.nextPid).value.0;
      q := Outbox.Queued(true, Copy(m, pid, retain));
      Outbox.InsistRefusesOnlyReliable(c.out, q.pkt);
      Outbox.MakeRoomOnce(c.out.queue);
    } else {
      pid := 0;
      q := Outbox.Queued(false, Copy(m, pid, retain));
    }
  }

  lemma EnteredOne(w: map<nat, Connection.InFlight>, m: Message, pid: nat, retain: bool)
    requires m.qos > 0 ==> pid !in w
    ensures Entered(w,
      if m.qos > 0 then w[pid := Connection.InFlight(Copy(m, pid, retain), 0, m.qos == 2, false)] else w,
      [m], [pid], retain)
  {
    if m.qos > 0 {
      assert Numbers([m], [pid], 0);
    }
  }

  lemma TookOne(c: Connection.State, m: Message, retain: bool)
    requires Connection.Valid(c) && Connection.Deliver(c, m.topic, m.payload, m.qos, retain).Delivered?
    ensures Took(c, Connection.Deliver(c, m.topic, m.payload, m.qos, retain).c, [m], retain)
  {
    var c' := Connection.Deliver(c, m.topic, m.payload, m.qos, retain).c;
    DeliverCounts(c, m.topic, m.payload, m.qos, retain);
    Connection.DeliverKeepsValid(c, m.topic, m.payload, m.qos, retain);
    var q, pid := DeliverQueues(c, m, retain);
    AboveZeroOne(m);
    TakenOne(c.out.queue, q);
    EnteredOne(c.inFlight, m, pid, retain);
    assert Holds(c, c', [m], [q], [pid], retain);
  }

  lemma TakenOne(queue: seq<Outbox.Queued>, q: Outbox.Queued)
    requires |queue| <= Outbox.WRITE_QUEUE_CAP && !Outbox.Clogged(queue)
    ensures HasTaken(queue, Push(queue, q), [q])
  {
    PushPart(queue, q);
    PartSnoc([], q);
    PrependNothing([q]);
    assert PushAll(queue, [q][..0]) == queue;
  }

  // ---- Messages for one connection, up to the first that fails

  /**
   The connection takes all the messages: one above QoS 0 needs the window and a queue that is not
   full of reliable packets, one at QoS 0 a queue that is not full when its turn comes.
   */
  ghost predicate HasRoomFor(c: Connection.State, ms: seq<Message>) {
    && |c.inFlight| + AboveZero(ms) <= Connection.IN_FLIGHT_CAP
    && ReliableIn(c.out.queue) + AboveZero(ms) <= Outbox.WRITE_QUEUE_CAP
    && forall i :: 0 <= i < |ms| && ms[i].qos == 0 ==> |c.out.queue| + i < Outbox.WRITE_QUEUE_CAP
  }

  /**
   After some messages: all taken, or a failure, which without room in the window drops the
   connection. No other connection is touched.
   */
  ghost predicate GivesInTurn(cs: map<nat, Connection.State>, cs': map<nat, Connection.State>, token: nat,
    ms: seq<Message>, ok: bool, retain: bool)
    requires token in cs
  {
    && (ok <==> HasRoomFor(cs[token], ms))
    && (ok ==> token in cs' && Took(cs[token], cs'[token], ms, retain))
    && (!ok && |cs[token].out.queue| + |ms| <= Outbox.WRITE_QUEUE_CAP ==> token !in cs')
    && SameElsewhere(cs, cs', token)
  }

  ghost predicate SameElsewhere(cs: map<nat, Connection.State>, cs': map<nat, Connection.State>, token: nat) {
    forall t :: t != token ==> (t in cs' <==> t in cs) && (t in cs' ==> cs'[t] == cs[t])
  }

  lemma HasRoomForBoth(c: Connection.State, c1: Connection.State, a: seq<Message>, b: seq<Message>,
    retain: bool)
    requires HasRoomFor(c, a) && Took(c, c1, a, retain)
    ensures HasRoomFor(c, a + b) <==> HasRoomFor(c1, b)
  {
    AboveZeroConcat(a, b);
    var ms := a + b;
    TookLength(c, c1, a, retain);
    if HasRoomFor(c, ms) {
      forall i | 0 <= i < |b| && b[i].qos == 0
        ensures |c1.out.queue| + i < Outbox.WRITE_QUEUE_CAP
      {
        assert ms[|a| + i] == b[i];
      }
    }
    if HasRoomFor(c1, b) {
      RoomForFirst(c, c1, a, b);
    }
  }

  lemma RoomForFirst(c: Connection.State, c1: Connection.State, a: seq<Message>, b: seq<Message>)
    requires HasRoomFor(c, a) && HasRoomFor(c1, b)
    requires |c1.out.queue| == Least(Outbox.WRITE_QUEUE_CAP, |c.out.queue| + |a|)
    ensures forall i :: 0 <= i < |a + b| && (a + b)[i].qos == 0 ==> |c.out.queue| + i < Outbox.WRITE_QUEUE_CAP
  {
    forall i | 0 <= i < |a + b| && (a + b)[i].qos == 0
      ensures |c.out.queue| + i < Outbox.WRITE_QUEUE_CAP
    {
      assert (a + b)[i] == if i < |a| then a[i] else b[i - |a|];
    }
  }

  lemma GivesNothing(cs: map<nat, Connection.State>, token: nat, retain: bool)
    requires token in cs && Connection.Valid(cs[token])
    ensures GivesInTurn(cs, cs, token, [], true, retain)
  {
    AllReliable(cs[token].out.queue);
    TookNothing(cs[token], retain);
  }

  /** Some messages, and then some more. */
  lemma GivesTwice(cs: map<nat, Connection.State>, cs1: map<nat, Connection.State>, cs2: map<nat, Connection.State>,
    token: nat, a: seq<Message>, b: seq<Message>, ok: bool, retain: bool)
    requires token in cs && GivesInTurn(cs, cs1, token, a, true, retain) && GivesInTurn(cs1, cs2, token, b, ok, retain)
    ensures GivesInTurn(cs, cs2, token, a + b, ok, retain)
  {
    AboveZeroConcat(a, b);
    HasRoomForBoth(cs[token], cs1[token], a, b, retain);
    if ok {
      TookTwice(cs[token], cs1[token], cs2[token], a, b, retain);
    }
  }

  /** A failure before the end is a failure of the whole. */
  lemma GivesNoMore(cs: map<nat, Connection.State>, cs': map<nat, Connection.State>, token: nat,
    a: seq<Message>, b: seq<Message>, retain: bool)
    requires token in cs && GivesInTurn(cs, cs', token, a, false, retain)
    ensures GivesInTurn(cs, cs', token, a + b, false, retain)
  {
    AboveZeroConcat(a, b);
    var ms := a + b;
    assert forall i :: 0 <= i < |a| ==> ms[i] == a[i];
  }

  /** One message, and if it was taken, the others. */
  lemma GivesOneMore(cs: map<nat, Connection.State>, cs1: map<nat, Connection.State>, cs2: map<nat, Connection.State>,
    token: nat, m: Message, rest: seq<Message>, ok1: bool, ok2: bool, retain: bool)
    requires token in cs && GivesInTurn(cs, cs1, token, [m], ok1, retain)
    requires if ok1 then GivesInTurn(cs1, cs2, token, rest, ok2, retain) else cs2 == cs1 && !ok2
    ensures GivesInTurn(cs, cs2, token, [m] + rest, ok2, retain)
  {
    if ok1 {
      GivesTwice(cs, cs1, cs2, token, [m], rest, ok2, retain);
    } else {
      GivesNoMore(cs, cs1, token, [m], rest, retain);
    }
  }

  lemma SendIsElsewhereSame(
    cs: map<nat, Connection.State>, token: nat, topic: Bytes, payload: Bytes, qos: Wire.QoS, retain: bool)
    ensures SameElsewhere(cs, Send(cs, token, topic, payload, qos, retain).0, token)
  {
  }

  lemma SendGivesOne(cs: map<nat, Connection.State>, token: nat, m: Message, retain: bool)
    requires token in cs && Connection.Valid(cs[token])
    ensures var (cs', ok) := Send(cs, token, m.topic, m.payload, m.qos, retain);
      GivesInTurn(cs, cs', token, [m], ok, retain)
  {
    var c := cs[token];
    DeliverCounts(c, m.topic, m.payload, m.qos, retain);
    AllReliable(c.out.queue);
    AboveZeroOne(m);
    assert [m][0] == m;
    SendIsElsewhereSame(cs, token, m.topic, m.payload, m.qos, retain);
    if Connection.Deliver(c, m.topic, m.payload, m.qos, retain).Delivered? {
      TookOne(c, m, retain);
    }
  }

  // ---- What a client makes of a copy

  /** The client can take the message out of a PUBLISH again: its parts fit their length fields. */
  predicate Readable(m: Message) {
    |m.topic| <= U16_MAX && 3 <= |m.topic| + |m.payload| + 2 && |m.topic| + |m.payload| + 4 <= Framing.MAX_PACKET
  }

  /** It is framed as one PUBLISH without DUP, and parses to the message at its QoS. */
  lemma CopyIsRead(m: Message, pid: nat, retain: bool)
    requires Readable(m) && pid <= U16_MAX
    ensures var f := Framing.Frame(Copy(m, pid, retain));
      && f.tail == [] && !f.bad && |f.pkts| == 1
      && f.pkts[0].ptype == Wire.PUBLISH && f.pkts[0].flags < 8
      && Wire.ParsePublish(f.pkts[0].flags, f.pkts[0].body)
           == Some(Wire.Publish(m.topic, m.qos, if m.qos > 0 then Some(pid) else None, m.payload, retain))
  {
    Framing.ForwardIsRead(m.topic, m.payload, m.qos, if m.qos > 0 then Some(pid) else None, false, retain);
  }

  // ---- A publish

  /** The copies a publish owes a connection: one for each of its subscriptions that match, at the lower QoS. */
  ghost function CopiesFor(subs: seq<Subscription>, m: Message, token: nat): (ms: seq<Message>) {
    if subs == [] then []
    else
      var n := |subs| - 1;
      (if subs[n].token == token && Matches(subs[n].filter, m.topic)
       then [Message(m.topic, m.payload, if subs[n].qos < m.qos then subs[n].qos else m.qos)] else [])
      + CopiesFor(subs[..n], m, token)
  }

  /** Those of them above QoS 0. */
  function Above(ms: seq<Message>): (r: seq<Message>)
    ensures |r| <= |ms|
  {
    if ms == [] then [] else (if ms[0].qos > 0 then [ms[0]] else []) + Above(ms[1..])
  }

  /** What a queue with this much room takes: all until it is full, and then those above QoS 0. */
  function Takes(ms: seq<Message>, room: nat): (r: seq<Message>) {
    var k := Least(room, |ms|);
    ms[..k] + Above(ms[k..])
  }

  lemma TakesAll(ms: seq<Message>, room: nat)
    requires |ms| <= room
    ensures Takes(ms, room) == ms
  {
  }

  lemma TakesStep(ms: seq<Message>, room: nat)
    requires ms != []
    ensures Takes(ms, room) ==
      if room > 0 then [ms[0]] + Takes(ms[1..], room - 1)
      else (if ms[0].qos > 0 then [ms[0]] else []) + Takes(ms[1..], 0)
  {
    var k := Least(room, |ms|);
    if room > 0 {
      DropDrop(ms, 1, k - 1);
      TakeCons(ms, k);
      Assoc([ms[0]], ms[1..][..k - 1], Above(ms[k..]));
    } else {
      assert ms[0..] == ms && ms[1..][0..] == ms[1..];
      PrependNothing(Above(ms));
      PrependNothing(Above(ms[1..]));
      assert ms[..0] == [] && ms[1..][..0] == [];
    }
  }

  lemma TakesCons(m: Message, rest: seq<Message>, room: nat)
    ensures Takes([m] + rest, room) ==
      if m.qos > 0 || room > 0 then [m] + Takes(rest, if room > 0 then room - 1 else 0) else Takes(rest, room)
  {
    TakesStep([m] + rest, room);
    assert ([m] + rest)[1..] == rest;
    PrependNothing(Takes(rest, 0));
  }

  /** The same copies, by the subscriptions the fan-out tries. */
  function CopiesTried(targets: seq<Subscription>, m: Message, token: nat): (ms: seq<Message>) {
    if targets == [] then []
    else
      CopyTried(targets[0], m, token) + CopiesTried(targets[1..], m, token)
  }

  function CopyTried(t: Subscription, m: Message, token: nat): (ms: seq<Message>) {
    if t.token == token then [m.(qos := Wire.MinQoS(m.qos, t.qos))] else []
  }

  lemma {:induction false} TriedCopies(subs: seq<Subscription>, m: Message, token: nat)
    ensures CopiesTried(FlatScan.Tried(subs, m.topic), m, token) == CopiesFor(subs, m, token)
    ensures CopiesAbove(FlatScan.Tried(subs, m.topic), m, token) == AboveZero(CopiesFor(subs, m, token))
  {
    if subs != [] {
      var n := |subs| - 1;
      var rest := FlatScan.Tried(subs[..n], m.topic);
      TriedCopies(subs[..n], m, token);
      if Matches(subs[n].filter, m.topic) {
        assert FlatScan.Tried(subs, m.topic)[1..] == rest;
        AboveZeroConcat(CopiesTried([subs[n]], m, token), CopiesTried(rest, m, token));
        AboveZeroOne(m.(qos := Wire.MinQoS(m.qos, subs[n].qos)));
        assert [subs[n]][1..] == [];
        PrependNothing(CopiesTried(rest, m, token));
      } else {
        PrependNothing(rest);
        PrependNothing(CopiesFor(subs[..n], m, token));
      }
    }
  }

  function Room(c: Connection.State): (n: nat)
    requires |c.out.queue| <= Outbox.WRITE_QUEUE_CAP
  {
    Outbox.WRITE_QUEUE_CAP - |c.out.queue|
  }

  /** One send of the fan-out, and then the others. */
  lemma GaveAndThen(
    c: Connection.State, c1: Connection.State, c2: Connection.State, ms: seq<Message>, rest: seq<Message>)
    requires Connection.Valid(c) && Connection.Valid(c1) && Gave(c, c1, ms)
    requires Took(c1, c2, Takes(rest, Room(c1)), false)
    ensures Took(c, c2, Takes(ms + rest, Room(c)), false)
  {
    if ms == [] {
      PrependNothing(rest);
    } else {
      assert ms == [ms[0]];
      TookAndThen(c, c1, c2, ms[0], rest);
    }
  }

  lemma TookAndThen(c: Connection.State, c1: Connection.State, c2: Connection.State, m: Message, rest: seq<Message>)
    requires |c.out.queue| <= Outbox.WRITE_QUEUE_CAP && |c1.out.queue| <= Outbox.WRITE_QUEUE_CAP
    requires if m.qos > 0 || Room(c) > 0 then Took(c, c1, [m], false) else c1 == c
    requires Took(c1, c2, Takes(rest, Room(c1)), false)
    ensures Took(c, c2, Takes([m] + rest, Room(c)), false)
  {
    TakesCons(m, rest, Room(c));
    if m.qos > 0 || Room(c) > 0 {
      RoomAfterOne(c, c1, m);
      TookTwice(c, c1, c2, [m], Takes(rest, Room(c1)), false);
    }
  }

  lemma RoomAfterOne(c: Connection.State, c1: Connection.State, m: Message)
    requires |c.out.queue| <= Outbox.WRITE_QUEUE_CAP && |c1.out.queue| <= Outbox.WRITE_QUEUE_CAP
    requires Took(c, c1, [m], false)
    ensures Room(c1) == if Room(c) > 0 then Room(c) - 1 else 0
  {
    TookLength(c, c1, [m], false);
  }

  /** A connection that a fan-out does not drop has taken its copies. */
  lemma {:induction false} FanOutGives(
    cs: map<nat, Connection.State>, targets: seq<Subscription>, m: Message, token: nat)
    requires token in cs && Connection.Valid(cs[token]) && token in SendAll(cs, targets, m).0
    ensures Took(
      cs[token], SendAll(cs, targets, m).0[token], Takes(CopiesTried(targets, m, token), Room(cs[token])), false)
    decreases |targets|
  {
    if targets == [] {
      TookNothing(cs[token], false);
      assert Takes([], Room(cs[token])) == [];
    } else {
      var cs1 := SendOne(cs, targets[0], m).0;
      SendAllServes(cs1, targets[1..], m);
      SendKeepsValid(cs, targets[0], m, token);
      FanOutGives(cs1, targets[1..], m, token);
      SendGave(cs, targets[0], m, token);
      GaveAndThen(cs[token], cs1[token], SendAll(cs1, targets[1..], m).0[token],
        CopyTried(targets[0], m, token), CopiesTried(targets[1..], m, token));
    }
  }

  /** A connection after one send of a fan-out: it took the message, or had no room for it, or was not meant. */
  ghost predicate Gave(c: Connection.State, c1: Connection.State, ms: seq<Message>)
    requires |c.out.queue| <= Outbox.WRITE_QUEUE_CAP
  {
    if ms != [] && (ms[0].qos > 0 || Room(c) > 0) then |ms| == 1 && Took(c, c1, ms, false) else |ms| <= 1 && c1 == c
  }

  lemma SendGave(cs: map<nat, Connection.State>, t: Subscription, m: Message, token: nat)
    requires token in cs && Connection.Valid(cs[token]) && token in SendOne(cs, t, m).0
    ensures Gave(cs[token], SendOne(cs, t, m).0[token], CopyTried(t, m, token))
  {
    if t.token == token {
      SendGives(cs, t, m, m.(qos := Wire.MinQoS(m.qos, t.qos)));
    }
  }

  lemma SendKeepsValid(cs: map<nat, Connection.State>, t: Subscription, m: Message, token: nat)
    requires token in cs && Connection.Valid(cs[token])
    ensures var cs1 := SendOne(cs, t, m).0; token in cs1 ==> Connection.Valid(cs1[token])
  {
    SendServes(cs, t.token, m.topic, m.payload, Wire.MinQoS(m.qos, t.qos), false);
    if token in SendOne(cs, t, m).0 {
      assert Kept(cs[token], SendOne(cs, t, m).0[token]);
    }
  }

  lemma SendGives(cs: map<nat, Connection.State>, t: Subscription, m: Message, m1: Message)
    requires t.token in cs && Connection.Valid(cs[t.token]) && m1 == m.(qos := Wire.MinQoS(m.qos, t.qos))
    requires t.token in SendOne(cs, t, m).0
    ensures var c, (cs1, ok) := cs[t.token], SendOne(cs, t, m);
      && (ok <==> m1.qos > 0 || Room(c) > 0)
      && if ok then Took(c, cs1[t.token], [m1], false) else cs1 == cs
  {
    if Connection.Deliver(cs[t.token], m.topic, m.payload, m1.qos, false).Delivered? {
      TookOne(cs[t.token], m1, false);
    }
  }

  /**
   A publish reaches every connection by its subscriptions: one copy for each that matches, with
   the topic and payload of the message, at the lower of the two QoS, without the retain flag.
   The connection is dropped exactly when those above QoS 0 do not fit; otherwise it takes them
   all, and those at QoS 0 as long as its queue has room. Each new entry of its window holds one
   of the copies and waits for a PUBREC exactly if that lower QoS is 2.
   */
  lemma PublishGives(s: State, m: Message, retain: bool, token: nat)
    requires token in s.clients && Connection.Valid(s.clients[token])
    ensures var c, ms, cs := s.clients[token], CopiesFor(s.subs, m, token), Publish(s, m, retain).clients;
      && (token in cs <==>
            && |c.inFlight| + AboveZero(ms) <= Connection.IN_FLIGHT_CAP
            && ReliableIn(c.out.queue) + AboveZero(ms) <= Outbox.WRITE_QUEUE_CAP)
      && (token in cs ==> Took(c, cs[token], Takes(ms, Room(c)), false))
  {
    var targets := FlatScan.Tried(s.subs, m.topic);
    FanIsTried(s.clients, s.subs, m);
    TriedCopies(s.subs, m, token);
    PublishDropsExactly(s, m, retain, token);
    if token in Publish(s, m, retain).clients {
      FanOutGives(s.clients, targets, m, token);
    }
  }

  /** With room in the queue, nothing is left out or evicted: the copies come behind the old queue. */
  lemma PublishGivesAll(s: State, m: Message, retain: bool, token: nat) returns (xs: seq<Outbox.Queued>, pids: seq<nat>)
    requires token in s.clients && Connection.Valid(s.clients[token]) && token in Publish(s, m, retain).clients
    requires |s.clients[token].out.queue| + |CopiesFor(s.subs, m, token)| <= Outbox.WRITE_QUEUE_CAP
    ensures var c, c', ms := s.clients[token], Publish(s, m, retain).clients[token], CopiesFor(s.subs, m, token);
      && AreCopies(xs, ms, pids, false)
      && c'.out.queue == c.out.queue + xs
      && Entered(c.inFlight, c'.inFlight, ms, pids, false)
  {
    PublishGives(s, m, retain, token);
    TakesAll(CopiesFor(s.subs, m, token), Room(s.clients[token]));
    xs, pids := TookAll(
      s.clients[token], Publish(s, m, retain).clients[token], CopiesFor(s.subs, m, token), false);
  }

  lemma TookAll(c: Connection.State, c': Connection.State, ms: seq<Message>, retain: bool)
    returns (xs: seq<Outbox.Queued>, pids: seq<nat>)
    requires Took(c, c', ms, retain) && |c.out.queue| + |ms| <= Outbox.WRITE_QUEUE_CAP
    ensures AreCopies(xs, ms, pids, retain) && c'.out.queue == c.out.queue + xs
    ensures Entered(c.inFlight, c'.inFlight, ms, pids, retain)
  {
    xs, pids :| Holds(c, c', ms, xs, pids, retain);
    PushAllWithRoom(c.out.queue, xs);
  }

  // ---- The subscriptions a publish removes

  /** The subscriptions of one connection that a publish tries, in its order. */
  ghost function OwnTried(subs: seq<Subscription>, topic: Bytes, token: nat): (r: seq<Subscription>) {
    if subs == [] then []
    else
      var n := |subs| - 1;
      (if subs[n].token == token && Matches(subs[n].filter, topic) then [subs[n]] else [])
      + OwnTried(subs[..n], topic, token)
  }

  function OwnOf(targets: seq<Subscription>, token: nat): (r: seq<Subscription>) {
    if targets == [] then [] else (if targets[0].token == token then [targets[0]] else []) + OwnOf(targets[1..], token)
  }

  lemma {:induction false} OwnOfTried(subs: seq<Subscription>, topic: Bytes, token: nat)
    ensures OwnOf(FlatScan.Tried(subs, topic), token) == OwnTried(subs, topic, token)
  {
    if subs != [] {
      var n := |subs| - 1;
      OwnOfTried(subs[..n], topic, token);
      if Matches(subs[n].filter, topic) {
        assert FlatScan.Tried(subs, topic)[1..] == FlatScan.Tried(subs[..n], topic);
      } else {
        PrependNothing(FlatScan.Tried(subs[..n], topic));
      }
    }
  }

  /** Those that get a message at QoS 0. */
  function AtZero(targets: seq<Subscription>, qos: Wire.QoS): (r: seq<Subscription>) {
    if targets == [] then []
    else (if qos == 0 || targets[0].qos == 0 then [targets[0]] else []) + AtZero(targets[1..], qos)
  }

  /** Those that fail at a queue with this much room. */
  function Refused(own: seq<Subscription>, qos: Wire.QoS, room: nat): (r: seq<Subscription>) {
    AtZero(own[Least(room, |own|)..], qos)
  }

  lemma RefusedStep(own: seq<Subscription>, qos: Wire.QoS, room: nat)
    requires own != []
    ensures Refused(own, qos, room) ==
      if room > 0 then Refused(own[1..], qos, room - 1)
      else (if qos == 0 || own[0].qos == 0 then [own[0]] else []) + Refused(own[1..], qos, 0)
  {
    if room > 0 {
      DropDrop(own, 1, Least(room, |own|) - 1);
    } else {
      assert own[0..] == own && own[1..][0..] == own[1..];
    }
  }

  /** Which sends of a fan-out fail for a connection that it does not drop. */
  lemma {:induction false} FanOutFails(
    cs: map<nat, Connection.State>, targets: seq<Subscription>, m: Message, x: Subscription)
    requires x.token in cs && Connection.Valid(cs[x.token]) && x.token in SendAll(cs, targets, m).0
    ensures Count(Failed(targets, SendAll(cs, targets, m).1), x)
      == Count(Refused(OwnOf(targets, x.token), m.qos, Room(cs[x.token])), x)
    decreases |targets|
  {
    if targets != [] {
      var t, token := targets[0], x.token;
      var rest := OwnOf(targets[1..], token);
      var (cs1, ok) := SendOne(cs, t, m);
      SendAllServes(cs1, targets[1..], m);
      SendKeepsValid(cs, t, m, token);
      FanOutFails(cs1, targets[1..], m, x);
      FailedStep(targets, SendAll(cs, targets, m).1, x);
      OneMoreFails(cs, t, m, rest, x);
    }
  }

  lemma OneMoreFails(
    cs: map<nat, Connection.State>, t: Subscription, m: Message, rest: seq<Subscription>, x: Subscription)
    requires x.token in cs && Connection.Valid(cs[x.token]) && x.token in SendOne(cs, t, m).0
    requires Connection.Valid(SendOne(cs, t, m).0[x.token])
    ensures var (cs1, ok) := SendOne(cs, t, m);
      var own := (if t.token == x.token then [t] else []) + rest;
      Count(Refused(own, m.qos, Room(cs[x.token])), x)
        == Count(Refused(rest, m.qos, Room(cs1[x.token])), x) + if t == x && !ok then 1 else 0
  {
    if t.token == x.token {
      var m1, c := m.(qos := Wire.MinQoS(m.qos, t.qos)), cs[x.token];
      var (cs1, ok) := SendOne(cs, t, m);
      SendGives(cs, t, m, m1);
      if ok {
        RoomAfterOne(c, cs1[x.token], m1);
      }
      RefusedCons(t, rest, m.qos, Room(c), x);
    } else {
      PrependNothing(rest);
    }
  }

  lemma RefusedCons(t: Subscription, rest: seq<Subscription>, qos: Wire.QoS, room: nat, x: Subscription)
    ensures Count(Refused([t] + rest, qos, room), x) ==
      if room > 0 then Count(Refused(rest, qos, room - 1), x)
      else Count(Refused(rest, qos, 0), x) + if (qos == 0 || t.qos == 0) && t == x then 1 else 0
  {
    RefusedStep([t] + rest, qos, room);
    assert ([t] + rest)[1..] == rest;
    CountCons(t, Refused(rest, qos, 0), x);
    PrependNothing(Refused(rest, qos, 0));
  }

  /** For a connection that is not there, all of them fail. */
  lemma {:induction false} FanOutMisses(
    cs: map<nat, Connection.State>, targets: seq<Subscription>, m: Message, x: Subscription)
    requires x.token !in cs
    ensures Count(Failed(targets, SendAll(cs, targets, m).1), x) == Count(OwnOf(targets, x.token), x)
    decreases |targets|
  {
    if targets != [] {
      var rest := OwnOf(targets[1..], x.token);
      var cs1 := SendOne(cs, targets[0], m).0;
      FanOutMisses(cs1, targets[1..], m, x);
      FailedStep(targets, SendAll(cs, targets, m).1, x);
      CountCons(targets[0], rest, x);
      PrependNothing(rest);
    }
  }

  lemma CountCons<T>(v: T, s: seq<T>, x: T)
    ensures Count([v] + s, x) == Count(s, x) + if v == x then 1 else 0
  {
    CountConcat([v], s, x);
    FlatScan.CountOne(v, x);
  }

  lemma FailedStep(targets: seq<Subscription>, oks: seq<bool>, x: Subscription)
    requires targets != [] && |oks| == |targets|
    ensures Count(Failed(targets, oks), x)
      == Count(Failed(targets[1..], oks[1..]), x) + if targets[0] == x && !oks[0] then 1 else 0
  {
    CountCons(targets[0], Failed(targets[1..], oks[1..]), x);
    PrependNothing(Failed(targets[1..], oks[1..]));
  }

  /**
   A publish removes subscriptions just where a copy could not be queued: of a connection that
   stays, those at QoS 0 once its queue is full; of a connection that is gone, all that match.
   */
  lemma PublishPrunes(s: State, m: Message, retain: bool, x: Subscription)
    requires x.token in s.clients ==>
      Connection.Valid(s.clients[x.token]) && x.token in Publish(s, m, retain).clients
    ensures var own := OwnTried(s.subs, m.topic, x.token);
      Count(Publish(s, m, retain).subs, x) + Count(
        if x.token in s.clients then Refused(own, m.qos, Room(s.clients[x.token])) else own, x)
      == Count(s.subs, x)
  {
    var idxs, targets := Order(s.subs, m.topic), FlatScan.Tried(s.subs, m.topic);
    OrderIsFanout(s.subs, m.topic);
    FlatScan.PickedIsTried(s.subs, m.topic);
    OwnOfTried(s.subs, m.topic, x.token);
    if x.token in s.clients {
      FanIsTried(s.clients, s.subs, m);
      FanOutFails(s.clients, targets, m, x);
    } else {
      FanOutMisses(s.clients, targets, m, x);
    }
    SweepRemovesFailed(s.subs, idxs, SendAll(s.clients, targets, m).1, x);
  }
}
