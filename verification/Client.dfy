/**
 The broker's `Client` object. Its fields are updated in place; every method is proved
 against the function of the same operation in `Outbox`, `Connection` or `Framing`.
 */
module Clients {
  import opened Bytes
  import opened Outbox
  import opened Framing
  import Wire
  import Connection

  /** What `drain_client` and the first half of `handle_packets` make of one read. */
  datatype Reading = Refused | Read(pkts: seq<Packet>)

  /** What became of a message for this connection; see `Connection.Delivery`. */
  datatype Fate = Accepted | Dropped | GivenUp

  /** A retransmission the tick has decided on. */
  datatype Due = Due(pid: nat, pkt: Bytes)

  /**
   The lists the tick builds for one connection: of the entries whose timer has expired, those
   with retries left go to `retry` with the packet to send, the others to `giveUp`.
   */
  ghost predicate IsSnapshot(
    inFlight: map<nat, Connection.InFlight>, expired: set<nat>, retry: seq<Due>, giveUp: seq<nat>) {
    && (forall pid :: pid in giveUp <==>
          pid in inFlight && pid in expired && inFlight[pid].retries >= Connection.QOS1_MAX_RETRIES)
    && (forall d :: d in retry <==>
          && d.pid in inFlight && d.pid in expired && inFlight[d.pid].retries < Connection.QOS1_MAX_RETRIES
          && d.pkt == Connection.Retransmission(d.pid, inFlight[d.pid]))
    && (forall i, j :: 0 <= i < j < |retry| ==> retry[i].pid != retry[j].pid)
    && (forall i, j :: 0 <= i < j < |giveUp| ==> giveUp[i] != giveUp[j])
  }

  class Client {
    var readBuf: Bytes
    var writeQueue: seq<Queued>
    var writePending: Bytes
    var writeOff: nat
    var clientId: Bytes
    var nextPid: nat
    var inFlight: map<nat, Connection.InFlight>
    var receivedQos2: set<nat>
    var will: Option<Connection.Will>
    var cleanDisconnect: bool
    var cleanSession: bool

    function Out(): (o: Outbox)
      reads this
    {
      Outbox(writeQueue, writePending, writeOff)
    }

    function State(): (c: Connection.State)
      reads this
    {
      Connection.State(readBuf, Outbox(writeQueue, writePending, writeOff), nextPid, inFlight, receivedQos2,
        clientId, cleanSession, cleanDisconnect, will)
    }

    /** The accept loop's initial values. */
    constructor ()
      ensures State() == Connection.FRESH
    {
      readBuf, writeQueue, writePending, writeOff := [], [], [], 0;
      clientId, nextPid, inFlight, receivedQos2 := [], 1, map[], {};
      will, cleanDisconnect, cleanSession := None, false, true;
    }

    /**
     `clients.get_mut(&token)`: the broker's table owns its connections by value and lends one
     out at a time; whoever borrowed it puts `State()` back.
     */
    constructor Borrow(c: Connection.State)
      ensures State() == c
    {
      readBuf, writeQueue, writePending, writeOff := c.readBuf, c.out.queue, c.out.pending, c.out.off;
      clientId, nextPid, inFlight, receivedQos2 := c.clientId, c.nextPid, c.inFlight, c.received;
      will, cleanDisconnect, cleanSession := c.will, c.cleanDisconnect, c.cleanSession;
    }

    method QueueQos0(pkt: Bytes) returns (ok: bool)
      modifies this`writeQueue
      ensures ok == Offer(old(Out()), pkt).Some?
      ensures Out() == OfferOrDrop(old(Out()), pkt)
    {
      if |writeQueue| >= WRITE_QUEUE_CAP {
        return false;
      }
      writeQueue := writeQueue + [Queued(false, pkt)];
      ok := true;
    }

    /** On failure everything that could be evicted is gone. */
    method QueueQos1(pkt: Bytes) returns (ok: bool)
      modifies this`writeQueue
      ensures ok == Insist(old(Out()), pkt).Some?
      ensures ok ==> Out() == Insist(old(Out()), pkt).value
      ensures !ok ==> writeQueue == Trimmed(old(writeQueue))
    {
      while |writeQueue| >= WRITE_QUEUE_CAP
        invariant Trimmed(writeQueue) == Trimmed(old(writeQueue))
        decreases |writeQueue|
      {
        var idx := Position();
        if idx == |writeQueue| {
          return false;
        }
        writeQueue := Without(writeQueue, idx);
      }
      writeQueue := writeQueue + [Queued(true, pkt)];
      ok := true;
    }

    /** `iter().position(|(q1, _)| !q1)`, with the length standing for `None`. */
    method Position() returns (idx: nat)
      ensures idx == FirstUnreliable(writeQueue)
    {
      idx := 0;
      while idx < |writeQueue| && writeQueue[idx].reliable
        invariant idx <= FirstUnreliable(writeQueue)
      {
        idx := idx + 1;
      }
    }

    method AllocPid() returns (r: Option<nat>)
      modifies this`nextPid
      ensures var a := Connection.AllocPid(inFlight, old(nextPid));
        && r == (match a case None => None case Some((pid, _)) => Some(pid))
        && (a.Some? ==> nextPid == a.value.1)
      ensures |inFlight| >= Connection.IN_FLIGHT_CAP ==> nextPid == old(nextPid)
    {
      if |inFlight| >= Connection.IN_FLIGHT_CAP {
        return None;
      }
      for i := 0 to 65536
        invariant Connection.SearchPid(inFlight.Keys, old(nextPid), old(nextPid), old(nextPid) + 65536)
          == Connection.SearchPid(inFlight.Keys, nextPid, old(nextPid) + i, old(nextPid) + 65536)
      {
        if nextPid == 0 {
          nextPid := 1;
        }
        var pid := nextPid;
        nextPid := (nextPid + 1) % 65536;
        if pid !in inFlight {
          return Some(pid);
        }
      }
      r := None;
    }

    /** The part of `deliver_to` that works on the connection. */
    method Deliver(topic: Bytes, payload: Bytes, qos: Wire.QoS, retain: bool) returns (fate: Fate)
      modifies this
      ensures match Connection.Deliver(old(State()), topic, payload, qos, retain)
        case Delivered(c) => fate == Accepted && State() == c
        case Full => fate == Dropped && State() == old(State())
        case Lost => fate == GivenUp
    {
      if qos == 0 {
        var ok := QueueQos0(Wire.BuildForward(topic, payload, 0, None, false, retain));
        return if ok then Accepted else Dropped;
      }
      var pid := AllocPid();
      if pid.None? {
        return GivenUp;
      }
      var pkt := Wire.BuildForward(topic, payload, qos, pid, false, retain);
      var ok := QueueQos1(pkt);
      if !ok {
        return GivenUp;
      }
      inFlight := inFlight[pid.value := Connection.InFlight(pkt, 0, qos == 2, false)];
      fate := Accepted;
    }

    /** The write loop of `flush_writes`; `writes` are the results of the calls to `write`. */
    method FlushWrites(writes: seq<WriteResult>) returns (sent: Bytes, end: FlushEnd)
      requires writeOff <= |writePending|
      modifies this`writeQueue, this`writePending, this`writeOff
      ensures Flush(old(Out()), writes) == Flushed(Out(), sent, end)
    {
      sent, end := [], Done;
      var i := 0;
      AfterTwice([], [], Flush(Out(), writes));
      assert writes[0..] == writes;
      while true
        invariant i <= |writes| && writeOff <= |writePending|
        invariant Flush(old(Out()), writes) == After(sent, Flush(Out(), writes[i..]))
        decreases |writes| - i
      {
        ghost var before := Flush(Out(), writes[i..]);
        var taken, t := WriteOnce(writes, i);
        if t.Stop? {
          AfterTwice(sent, [], before);
          end := t.end;
          return;
        }
        DropDrop(writes, i, 1);
        AfterTwice(sent, taken, Flush(Out(), writes[i + 1..]));
        sent := sent + taken;
        i := i + 1;
      }
    }

    /** One turn of the loop: refill the batch if it is used up, then one call to `write`. */
    method WriteOnce(writes: seq<WriteResult>, i: nat) returns (taken: Bytes, t: Turn)
      requires writeOff <= |writePending| && i <= |writes|
      modifies this`writeQueue, this`writePending, this`writeOff
      ensures TakeTurn(old(Out()), writes[i..]) == Progress(Out(), taken, t)
    {
      taken := [];
      if writeOff == |writePending| {
        if writeQueue == [] {
          return [], Stop(Done);
        }
        FillBatch();
      }
      assert Out() == Refill(old(Out()));
      if i == |writes| || writes[i].WouldBlock? {
        return [], Stop(Blocked);
      }
      if writes[i].Failed? {
        return [], Stop(Dead);
      }
      var n := if writes[i].n <= |writePending| - writeOff then writes[i].n else |writePending| - writeOff;
      if n == 0 {
        return [], Stop(Blocked);
      }
      taken, t := writePending[writeOff..writeOff + n], Go(n);
      writeOff := writeOff + n;
    }

    /** Moves packets from the queue to an empty batch. */
    method FillBatch()
      modifies this`writeQueue, this`writePending, this`writeOff
      ensures writeOff == 0
      ensures (writePending, writeQueue) == Batch(old(writeQueue), [])
    {
      writePending, writeOff := [], 0;
      while |writePending| < BATCH_MAX && writeQueue != []
        invariant writeOff == 0
        invariant Batch(writeQueue, writePending) == Batch(old(writeQueue), [])
        decreases |writeQueue|
      {
        writePending, writeQueue := writePending + writeQueue[0].pkt, writeQueue[1..];
      }
    }

    /** Appends one chunk to the read buffer and takes the complete packets off it. */
    method Receive(chunk: Bytes) returns (r: Reading)
      modifies this`readBuf
      ensures var buf := old(readBuf) + chunk;
        && (r.Refused? <==> |buf| > READ_CAP || Frame(buf).bad)
        && (r.Read? ==> r.pkts == Frame(buf).pkts)
        && readBuf == if |buf| > READ_CAP then buf else Frame(buf).tail
    {
      readBuf := readBuf + chunk;
      if |readBuf| > READ_CAP {
        return Refused;
      }
      var buf := readBuf;
      readBuf := [];
      if buf == [] {
        return Read([]);
      }
      var slices, consumed, bad := SplitPackets(buf);
      if consumed < |buf| {
        readBuf := buf[consumed..];
      }
      if bad {
        return Refused;
      }
      r := Read(Packets(buf, slices));
    }

    // ---- The arms of the packet dispatch that touch only this connection

    method OnPuback(pid: nat)
      modifies this`inFlight
      ensures State() == Connection.Acknowledged(old(State()), pid)
    {
      inFlight := inFlight - {pid};
    }

    method OnPubrec(pid: nat)
      modifies this`inFlight, this`writeQueue
      ensures State() == Connection.Received(old(State()), pid)
    {
      var rel := false;
      if pid in inFlight {
        var inf := inFlight[pid];
        if inf.qos2 && !inf.awaitPubcomp {
          inFlight := inFlight[pid := inf.(awaitPubcomp := true, retries := 0)];
          rel := true;
        }
      }
      if rel {
        var _ := QueueQos0(Wire.BuildPubrel(pid, false));
      }
    }

    method OnPubrel(pid: nat)
      modifies this`receivedQos2, this`writeQueue
      ensures State() == Connection.Released(old(State()), pid)
    {
      receivedQos2 := receivedQos2 - {pid};
      var _ := QueueQos0(Wire.BuildAck(Wire.PUBCOMP, pid));
    }

    /** The acknowledgement of an inbound PUBLISH, and the duplicate check of QoS 2. */
    method AnswerPublish(qos: Wire.QoS, pid: nat) returns (dup: bool)
      modifies this`receivedQos2, this`writeQueue
      ensures (State(), dup) == Connection.Answer(old(State()), qos, pid)
    {
      dup := false;
      if qos == 1 {
        var _ := QueueQos0(Wire.BuildAck(Wire.PUBACK, pid));
      } else if qos == 2 {
        if pid in receivedQos2 {
          dup := true;
          assert receivedQos2 + {pid} == receivedQos2;
        } else {
          receivedQos2 := receivedQos2 + {pid};
        }
        var _ := QueueQos0(Wire.BuildAck(Wire.PUBREC, pid));
      }
    }

    // ---- The tick

    /** The scan of `in_flight`, in whatever order the table is iterated. */
    method DueNow(expired: set<nat>) returns (retry: seq<Due>, giveUp: seq<nat>)
      ensures IsSnapshot(inFlight, expired, retry, giveUp)
    {
      retry, giveUp := [], [];
      var todo := inFlight.Keys;
      while todo != {}
        invariant todo <= inFlight.Keys
        invariant IsSnapshot(inFlight - todo, expired, retry, giveUp)
        decreases todo
      {
        var pid :| pid in todo;
        var inf := inFlight[pid];
        ghost var done, done' := inFlight - todo, inFlight - (todo - {pid});
        assert done' == done[pid := inf];
        todo := todo - {pid};
        if pid !in expired {
          continue;
        }
        if inf.retries >= Connection.QOS1_MAX_RETRIES {
          giveUp := giveUp + [pid];
        } else {
          retry := retry + [Due(pid, Connection.Retransmission(pid, inf))];
        }
      }
      assert inFlight - todo == inFlight;
    }

    method ApplyRetry(pid: nat, pkt: Bytes) returns (ok: bool)
      modifies this`writeQueue, this`inFlight
      ensures ok == Connection.Retry(old(State()), pid, pkt).Some?
      ensures ok ==> State() == Connection.Retry(old(State()), pid, pkt).value
      ensures !ok ==> State() == old(State()).(out := old(Out()).(queue := Trimmed(old(writeQueue))))
    {
      ok := QueueQos1(pkt);
      if ok && pid in inFlight {
        inFlight := inFlight[pid := inFlight[pid].(retries := inFlight[pid].retries + 1)];
      }
    }
  }
}
