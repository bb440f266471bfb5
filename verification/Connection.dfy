/**
 One connection of the broker as a value: what it is owed, the packet ids in flight in both
 directions, and what CONNECT said. Each operation of the protocol on one connection is a
 function from state to state.
 */
module Connection {
  import opened Bytes
  import opened Outbox
  import Wire

  const IN_FLIGHT_CAP := 256
  const QOS1_MAX_RETRIES := 3
  const MAX_PID := 65535

  /**
   An outbound message waiting for its acknowledgement. `qos2` entries first wait for PUBREC
   and then, with `awaitPubcomp`, for PUBCOMP.
   */
  datatype InFlight = InFlight(pkt: Bytes, retries: nat, qos2: bool, awaitPubcomp: bool)

  datatype Will = Will(topic: Bytes, message: Bytes, qos: Wire.QoS, retain: bool)

  datatype State = State(
    readBuf: Bytes,
    out: Outbox,
    nextPid: nat,
    inFlight: map<nat, InFlight>,
    received: set<nat>,
    clientId: Bytes,
    cleanSession: bool,
    cleanDisconnect: bool,
    will: Option<Will>)

  /** A connection as the accept loop sets it up. */
  const FRESH := State([], Outbox([], [], 0), 1, map[], {}, [], true, false, None)

  // ---- Packet ids

  /** The id the allocator tries when `next_pid` has this value. */
  function Candidate(next: nat): (pid: nat) {
    if next == 0 then 1 else next
  }

  /** The allocator's search from one turn to the last: the id and the new `next_pid`. */
  function SearchPid(used: set<nat>, next: nat, turn: nat, end: nat): (r: Option<(nat, nat)>)
    decreases end - turn
  {
    if turn >= end then None
    else
      var pid := Candidate(next);
      var next' := (pid + 1) % 65536;
      if pid !in used then Some((pid, next')) else SearchPid(used, next', turn + 1, end)
  }

  /** It takes 65536 turns, counted here from `next`. */
  function AllocPid(inFlight: map<nat, InFlight>, next: nat): (r: Option<(nat, nat)>) {
    if |inFlight| >= IN_FLIGHT_CAP then None else SearchPid(inFlight.Keys, next, next, next + 65536)
  }

  /** The id `k` places after `start` in the cyclic order 1, 2, .., 65535, 1, .. */
  function Cyclic(start: nat, k: nat): (pid: nat)
    requires 1 <= start <= MAX_PID
    ensures 1 <= pid <= MAX_PID
  {
    (start - 1 + k) % MAX_PID + 1
  }

  lemma CyclicNext(start: nat, k: nat)
    requires 1 <= start <= MAX_PID
    ensures Candidate((Cyclic(start, k) + 1) % 65536) == Cyclic(start, k + 1)
  {
    var a := start - 1 + k;
    assert (a + 1) % MAX_PID == if a % MAX_PID + 1 == MAX_PID then 0 else a % MAX_PID + 1;
  }

  lemma CyclicDistinct(start: nat, i: nat, j: nat)
    requires 1 <= start <= MAX_PID && i < j < MAX_PID
    ensures Cyclic(start, i) != Cyclic(start, j)
  {
  }

  /**
   Pigeonhole: after `k` ids in use, all different, an unused one is still ahead as long as
   fewer than `used` ids were seen. The search returns the first one.
   */
  lemma {:induction false} SearchFinds(
    used: set<nat>, start: nat, k: nat, seen: set<nat>, next: nat, turn: nat, end: nat)
    requires 1 <= start <= MAX_PID && k <= |used| < MAX_PID
    requires Candidate(next) == Cyclic(start, k) && end - turn > |used| - k
    requires seen <= used && |seen| == k
    requires forall pid :: pid in seen <==> exists j :: 0 <= j < k && Cyclic(start, j) == pid
    ensures var r := SearchPid(used, next, turn, end);
      && r.Some? && r.value.1 < 65536
      && exists m :: k <= m <= |used| && r.value.0 == Cyclic(start, m) && r.value.0 !in used
           && forall j :: 0 <= j < m ==> Cyclic(start, j) in used
    decreases |used| - k
  {
    var pid := Candidate(next);
    forall j | 0 <= j < k
      ensures Cyclic(start, j) in used
    {
      assert Cyclic(start, j) in seen;
    }
    if pid in used {
      if pid in seen {
        var j :| 0 <= j < k && Cyclic(start, j) == pid;
        CyclicDistinct(start, j, k);
      }
      var seen' := seen + {pid};
      SubsetSize(seen', used);
      CyclicNext(start, k);
      forall p
        ensures p in seen' <==> exists j :: 0 <= j < k + 1 && Cyclic(start, j) == p
      {
        if p == pid {
          assert Cyclic(start, k) == p;
        }
      }
      SearchFinds(used, start, k + 1, seen', (pid + 1) % 65536, turn + 1, end);
    }
  }

  lemma {:induction false} SubsetSize<T>(a: set<T>, b: set<T>)
    requires a <= b
    ensures |a| <= |b|
    decreases a
  {
    if a != {} {
      var x :| x in a;
      SubsetSize(a - {x}, b - {x});
    }
  }

  /**
   The allocator gives up exactly when the window is full. Otherwise it returns the first id,
   in cyclic order from `next_pid`, that is not in flight; and it is never 0.
   */
  lemma AllocPidExactly(inFlight: map<nat, InFlight>, next: nat)
    requires next <= MAX_PID
    ensures var r := AllocPid(inFlight, next);
      && (r.None? <==> |inFlight| >= IN_FLIGHT_CAP)
      && (r.Some? ==>
            && 1 <= r.value.0 <= MAX_PID && r.value.0 !in inFlight && r.value.1 <= MAX_PID
            && exists m :: 0 <= m <= |inFlight| && r.value.0 == Cyclic(Candidate(next), m)
                 && forall j :: 0 <= j < m ==> Cyclic(Candidate(next), j) in inFlight)
  {
    if |inFlight| < IN_FLIGHT_CAP {
      assert |inFlight.Keys| == |inFlight|;
      SearchFinds(inFlight.Keys, Candidate(next), 0, {}, next, next, next + 65536);
    }
  }

  // ---- Sending

  /**
   What `deliver_to` does to a connection. `Full` is the QoS 0 case: the message is lost and
   the caller is told so, but the connection stays. `Lost` means the connection is removed.
   */
  datatype Delivery = Delivered(c: State) | Full | Lost

  function Deliver(c: State, topic: Bytes, payload: Bytes, qos: Wire.QoS, retain: bool): (d: Delivery) {
    if qos == 0 then
      match Offer(c.out, Wire.BuildForward(topic, payload, 0, None, false, retain))
      case None => Full
      case Some(o) => Delivered(c.(out := o))
    else
      match AllocPid(c.inFlight, c.nextPid)
      case None => Lost
      case Some((pid, next)) =>
        var pkt := Wire.BuildForward(topic, payload, qos, Some(pid), false, retain);
        match Insist(c.out, pkt)
        case None => Lost
        case Some(o) =>
          Delivered(c.(out := o, nextPid := next, inFlight := c.inFlight[pid := InFlight(pkt, 0, qos == 2, false)]))
  }

  // ---- Acknowledgements from the client

  /** PUBACK and PUBCOMP both end whatever entry has the id. */
  function Acknowledged(c: State, pid: nat): (r: State) {
    c.(inFlight := c.inFlight - {pid})
  }

  predicate AwaitsPubrec(c: State, pid: nat) {
    pid in c.inFlight && c.inFlight[pid].qos2 && !c.inFlight[pid].awaitPubcomp
  }

  function Received(c: State, pid: nat): (r: State) {
    if AwaitsPubrec(c, pid) then
      c.(inFlight := c.inFlight[pid := c.inFlight[pid].(awaitPubcomp := true, retries := 0)],
         out := OfferOrDrop(c.out, Wire.BuildPubrel(pid, false)))
    else c
  }

  // ---- The receiving side of QoS 1 and 2

  /** The answer to a PUBLISH, and whether it is a repetition that must not be routed again. */
  function Answer(c: State, qos: Wire.QoS, pid: nat): (r: (State, bool)) {
    if qos == 1 then (c.(out := OfferOrDrop(c.out, Wire.BuildAck(Wire.PUBACK, pid))), false)
    else if qos == 2 then
      var out := OfferOrDrop(c.out, Wire.BuildAck(Wire.PUBREC, pid));
      (c.(received := c.received + {pid}, out := out), pid in c.received)
    else (c, false)
  }

  function Released(c: State, pid: nat): (r: State) {
    c.(received := c.received - {pid}, out := OfferOrDrop(c.out, Wire.BuildAck(Wire.PUBCOMP, pid)))
  }

  // ---- Retransmission

  function SetDup(pkt: Bytes): (r: Bytes) {
    if pkt == [] || pkt[0] / 8 % 2 == 1 then pkt else [(pkt[0] + 8) % 256] + pkt[1..]
  }

  /** What the tick sends again for an entry whose timer has expired. */
  function Retransmission(pid: nat, e: InFlight): (pkt: Bytes) {
    if e.qos2 && e.awaitPubcomp then Wire.BuildPubrel(pid, true) else SetDup(e.pkt)
  }

  /** One retry from the tick's list; `None` when the queue refuses it and the client goes. */
  function Retry(c: State, pid: nat, pkt: Bytes): (r: Option<State>) {
    match Insist(c.out, pkt)
    case None => None
    case Some(o) =>
      if pid in c.inFlight then
        Some(c.(out := o, inFlight := c.inFlight[pid := c.inFlight[pid].(retries := c.inFlight[pid].retries + 1)]))
      else Some(c.(out := o))
  }

  // ---- What always holds

  /** The entry holds the first transmission for its id: a PUBLISH without the DUP flag. */
  ghost predicate Original(pid: nat, e: InFlight) {
    exists topic, payload, qos: Wire.QoS, retain ::
      qos > 0 && e.qos2 == (qos == 2)
      && e.pkt == Wire.BuildForward(topic, payload, qos, Some(pid), false, retain)
  }

  ghost predicate EntryValid(pid: nat, e: InFlight) {
    && 1 <= pid <= MAX_PID
    && e.retries <= QOS1_MAX_RETRIES
    && (e.awaitPubcomp ==> e.qos2)
    && Original(pid, e)
  }

  /** What the broker queues as reliable: a forward, or the repetition of a PUBREL. */
  ghost predicate BrokerMade(pkt: Bytes) {
    IsForward(pkt) || exists pid: nat :: pkt == Wire.BuildPubrel(pid, true)
  }

  ghost predicate IsForward(pkt: Bytes) {
    exists topic, payload, qos: Wire.QoS, pid: nat, dup, retain ::
      qos > 0 && pkt == Wire.BuildForward(topic, payload, qos, Some(pid), dup, retain)
  }

  ghost predicate AllBrokerMade(queue: seq<Queued>) {
    forall i :: 0 <= i < |queue| && queue[i].reliable ==> BrokerMade(queue[i].pkt)
  }

  ghost predicate Valid(c: State) {
    && c.out.Valid()
    && AllBrokerMade(c.out.queue)
    && c.nextPid <= MAX_PID
    && |c.inFlight| <= IN_FLIGHT_CAP
    && forall pid :: pid in c.inFlight ==> EntryValid(pid, c.inFlight[pid])
  }

  lemma OfferKeepsBounds(o: Outbox, pkt: Bytes)
    requires o.Valid()
    ensures Offer(o, pkt).Some? ==> Offer(o, pkt).value.Valid()
    ensures OfferOrDrop(o, pkt).Valid()
    ensures AllBrokerMade(o.queue) ==> AllBrokerMade(OfferOrDrop(o, pkt).queue)
  {
  }

  lemma InsistKeepsBrokerMade(o: Outbox, pkt: Bytes)
    requires o.Valid() && AllBrokerMade(o.queue) && BrokerMade(pkt)
    ensures var r := Insist(o, pkt); r.Some? ==> r.value.Valid() && AllBrokerMade(r.value.queue)
  {
    MakeRoomOnce(o.queue);
  }

  /** What the tick sends again is the entry's forward with the DUP flag, or its PUBREL. */
  lemma RetransmissionIsBrokerMade(pid: nat, e: InFlight)
    requires Original(pid, e)
    ensures BrokerMade(Retransmission(pid, e))
  {
    if !(e.qos2 && e.awaitPubcomp) {
      var topic, payload, qos: Wire.QoS, retain :|
        qos > 0 && e.qos2 == (qos == 2)
        && e.pkt == Wire.BuildForward(topic, payload, qos, Some(pid), false, retain);
      ForwardAgain(topic, payload, qos, pid, retain);
    }
  }

  lemma ForwardAgain(topic: Bytes, payload: Bytes, qos: Wire.QoS, pid: nat, retain: bool)
    ensures SetDup(Wire.BuildForward(topic, payload, qos, Some(pid), false, retain))
      == Wire.BuildForward(topic, payload, qos, Some(pid), true, retain)
  {
    var first := Wire.PublishHeader(qos, false, retain);
    assert first / 8 % 2 == 0 && first + 8 == Wire.PublishHeader(qos, true, retain);
  }

  lemma OfferKeepsBoundsIfValid(c: State, pkt: Bytes)
    ensures Valid(c) ==> Valid(c.(out := OfferOrDrop(c.out, pkt)))
  {
  }

  lemma EntryKeepsValid(c: State, pid: nat, e: InFlight, o: Outbox, next: nat)
    requires Valid(c) && o.Valid() && AllBrokerMade(o.queue) && next <= MAX_PID
    requires pid !in c.inFlight && |c.inFlight| < IN_FLIGHT_CAP && EntryValid(pid, e)
    ensures Valid(c.(out := o, nextPid := next, inFlight := c.inFlight[pid := e]))
  {
  }

  /** A delivery adds at most one entry and leaves every other alone. */
  lemma DeliverKeepsValid(c: State, topic: Bytes, payload: Bytes, qos: Wire.QoS, retain: bool)
    requires Valid(c)
    ensures var d := Deliver(c, topic, payload, qos, retain);
      d.Delivered? ==>
        && Valid(d.c)
        && forall pid :: pid in c.inFlight ==> pid in d.c.inFlight && d.c.inFlight[pid] == c.inFlight[pid]
  {
    if qos == 0 {
      OfferKeepsBounds(c.out, Wire.BuildForward(topic, payload, 0, None, false, retain));
    } else {
      AllocPidExactly(c.inFlight, c.nextPid);
      var a := AllocPid(c.inFlight, c.nextPid);
      if a.Some? {
        var (pid, next) := a.value;
        var pkt := Wire.BuildForward(topic, payload, qos, Some(pid), false, retain);
        assert IsForward(pkt);
        InsistKeepsBrokerMade(c.out, pkt);
        var o := Insist(c.out, pkt);
        if o.Some? {
          var e := InFlight(pkt, 0, qos == 2, false);
          assert Original(pid, e);
          EntryKeepsValid(c, pid, e, o.value, next);
        }
      }
    }
  }

  lemma AcknowledgedKeepsValid(c: State, pid: nat)
    requires Valid(c)
    ensures Valid(Acknowledged(c, pid))
  {
    var r := Acknowledged(c, pid);
    SubsetSize(r.inFlight.Keys, c.inFlight.Keys);
    assert |r.inFlight.Keys| == |r.inFlight| && |c.inFlight.Keys| == |c.inFlight|;
  }

  lemma ReceivedKeepsValid(c: State, pid: nat)
    requires Valid(c)
    ensures Valid(Received(c, pid))
  {
    if AwaitsPubrec(c, pid) {
      var r := Received(c, pid);
      assert r.inFlight.Keys == c.inFlight.Keys;
      assert |r.inFlight.Keys| == |r.inFlight| && |c.inFlight.Keys| == |c.inFlight|;
      SameMessage(pid, c.inFlight[pid], r.inFlight[pid]);
    }
  }

  lemma SameMessage(pid: nat, e: InFlight, e': InFlight)
    requires Original(pid, e) && e'.pkt == e.pkt && e'.qos2 == e.qos2
    ensures Original(pid, e')
  {
  }

  lemma RetryKeepsValid(c: State, pid: nat, pkt: Bytes)
    requires Valid(c) && BrokerMade(pkt) && (pid in c.inFlight ==> c.inFlight[pid].retries < QOS1_MAX_RETRIES)
    ensures var r := Retry(c, pid, pkt); r.Some? ==> Valid(r.value)
  {
    InsistKeepsBrokerMade(c.out, pkt);
    var r := Retry(c, pid, pkt);
    if r.Some? && pid in c.inFlight {
      assert r.value.inFlight.Keys == c.inFlight.Keys;
      assert |r.value.inFlight.Keys| == |r.value.inFlight| && |c.inFlight.Keys| == |c.inFlight|;
      SameMessage(pid, c.inFlight[pid], r.value.inFlight[pid]);
    }
  }

  // ---- What a reader of the source might not expect

  /**
   A retransmission that was decided on before the acknowledgement is still sent after it,
   because the list the tick applies is not checked against the window. The only exception is a
   queue full of reliable packets, and then the client is dropped for a message it has
   acknowledged.
   */
  lemma StaleRetryIsSent(c: State, pid: nat, pkt: Bytes)
    requires Valid(c)
    ensures var r := Retry(Acknowledged(c, pid), pid, pkt);
      && (r.None? <==> Clogged(c.out.queue))
      && (r.Some? ==>
            && r.value == Acknowledged(c, pid).(out := r.value.out)
            && r.value.out == c.out.(queue := Trimmed(c.out.queue) + [Queued(true, pkt)]))
  {
    InsistRefusesOnlyReliable(c.out, pkt);
  }

  /**
   A delivery costs the connection exactly when it is above QoS 0 and the window is full, or the
   queue is full of reliable packets.
   */
  lemma LostExactly(c: State, topic: Bytes, payload: Bytes, qos: Wire.QoS, retain: bool)
    requires c.out.Valid() && c.nextPid <= MAX_PID
    ensures Deliver(c, topic, payload, qos, retain) == Lost
      <==> qos > 0 && (|c.inFlight| >= IN_FLIGHT_CAP || Clogged(c.out.queue))
  {
    AllocPidExactly(c.inFlight, c.nextPid);
    var a := AllocPid(c.inFlight, c.nextPid);
    if a.Some? {
      InsistRefusesOnlyReliable(c.out, Wire.BuildForward(topic, payload, qos, Some(a.value.0), false, retain));
    }
  }

  /**
   A QoS 0 delivery to a connection fails exactly when its queue is full, and then reports the
   failure although the connection stays; the fan-out takes that as a reason to remove the
   subscription.
   */
  lemma FullQueueIsReported(c: State, topic: Bytes, payload: Bytes, retain: bool)
    requires c.out.Valid()
    ensures Deliver(c, topic, payload, 0, retain) == Full <==> |c.out.queue| == WRITE_QUEUE_CAP
    ensures Deliver(c, topic, payload, 0, retain) != Lost
  {
  }
}
