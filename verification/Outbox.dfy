/**
 The outgoing side of a connection: a bounded queue of packets, and the batch that is being
 written. `queue_qos0`, `queue_qos1` and the write loop of `flush_writes` are functions on
 it here; class `Client` has the same operations as methods, proved against these.
 */
module Outbox {
  import opened Bytes

  const WRITE_QUEUE_CAP := 8192
  const BATCH_MAX := 32768

  datatype Queued = Queued(reliable: bool, pkt: Bytes)

  datatype Outbox = Outbox(queue: seq<Queued>, pending: Bytes, off: nat) {
    predicate Valid() {
      |queue| <= WRITE_QUEUE_CAP && off <= |pending|
    }
  }

  function Payloads(queue: seq<Queued>): (r: Bytes) {
    if queue == [] then [] else queue[0].pkt + Payloads(queue[1..])
  }

  /** The bytes the connection still owes its client. */
  function Unsent(o: Outbox): (r: Bytes)
    requires o.off <= |o.pending|
  {
    o.pending[o.off..] + Payloads(o.queue)
  }

  // ---- Queueing

  /** `queue_qos0`: `None` when the packet is dropped because the queue is full. */
  function Offer(o: Outbox, pkt: Bytes): (r: Option<Outbox>) {
    if |o.queue| >= WRITE_QUEUE_CAP then None
    else Some(o.(queue := o.queue + [Queued(false, pkt)]))
  }

  /** `Offer` where the source ignores whether there was room. */
  function OfferOrDrop(o: Outbox, pkt: Bytes): (r: Outbox) {
    match Offer(o, pkt) case Some(o') => o' case None => o
  }

  function FirstUnreliable(queue: seq<Queued>): (k: nat)
    ensures k <= |queue|
    ensures k < |queue| ==> !queue[k].reliable
    ensures forall i :: 0 <= i < k ==> queue[i].reliable
  {
    if queue == [] || !queue[0].reliable then 0 else 1 + FirstUnreliable(queue[1..])
  }

  function Without<T>(s: seq<T>, k: nat): (r: seq<T>)
    requires k < |s|
    ensures |r| == |s| - 1
  {
    s[..k] + s[k + 1..]
  }

  /** A queue once its oldest unreliable packets are evicted until there is room or none is left. */
  function Trimmed(queue: seq<Queued>): (r: seq<Queued>)
    decreases |queue|
  {
    if |queue| < WRITE_QUEUE_CAP then queue
    else
      var k := FirstUnreliable(queue);
      if k == |queue| then queue else Trimmed(Without(queue, k))
  }

  /** Makes room for one more packet; `None` if evicting is not enough. */
  function MakeRoom(queue: seq<Queued>): (r: Option<seq<Queued>>) {
    var q := Trimmed(queue);
    if |q| < WRITE_QUEUE_CAP then Some(q) else None
  }

  /** `queue_qos1`: `None` when every queued packet is reliable and none can make room. */
  function Insist(o: Outbox, pkt: Bytes): (r: Option<Outbox>) {
    match MakeRoom(o.queue)
    case None => None
    case Some(q) => Some(o.(queue := q + [Queued(true, pkt)]))
  }

  /** The queue is full and nothing in it can be evicted. */
  predicate Clogged(queue: seq<Queued>) {
    |queue| == WRITE_QUEUE_CAP && forall i :: 0 <= i < |queue| ==> queue[i].reliable
  }

  /** Eviction takes no reliable packet. */
  lemma {:induction false} TrimmedKeepsReliable(queue: seq<Queued>, pkt: Bytes)
    requires Queued(true, pkt) in queue
    ensures Queued(true, pkt) in Trimmed(queue)
    decreases |queue|
  {
    var k := FirstUnreliable(queue);
    if |queue| >= WRITE_QUEUE_CAP && k < |queue| {
      var i :| 0 <= i < |queue| && queue[i] == Queued(true, pkt);
      var less := Without(queue, k);
      assert less[if i < k then i else i - 1] == queue[i];
      TrimmedKeepsReliable(less, pkt);
    }
  }

  /** A reliable packet is refused exactly when the queue holds nothing but reliable ones. */
  lemma InsistRefusesOnlyReliable(o: Outbox, pkt: Bytes)
    requires o.Valid()
    ensures Insist(o, pkt).None? <==> Clogged(o.queue)
    ensures Insist(o, pkt).Some? ==> Insist(o, pkt).value.Valid()
  {
    MakeRoomOnce(o.queue);
  }

  /** A queue within its bound gives up at most one packet: the oldest unreliable one. */
  lemma MakeRoomOnce(queue: seq<Queued>)
    requires |queue| <= WRITE_QUEUE_CAP
    ensures var k := FirstUnreliable(queue);
      MakeRoom(queue) ==
        if |queue| < WRITE_QUEUE_CAP then Some(queue)
        else if k == |queue| then None
        else Some(Without(queue, k))
    ensures Trimmed(queue) == queue || MakeRoom(queue) == Some(Trimmed(queue))
  {
  }

  // ---- Writing

  /** What one `write` on the socket does: take up to `n` bytes, block, or fail. */
  datatype WriteResult = Wrote(n: nat) | WouldBlock | Failed

  datatype FlushEnd = Done | Blocked | Dead

  /** Pops packets into the batch until it has BATCH_MAX bytes or the queue is empty. */
  function Batch(queue: seq<Queued>, batch: Bytes): (r: (Bytes, seq<Queued>)) {
    if |batch| < BATCH_MAX && queue != [] then Batch(queue[1..], batch + queue[0].pkt)
    else (batch, queue)
  }

  /** Refills the batch once it has been written out. */
  function Refill(o: Outbox): (r: Outbox)
    ensures o.off <= |o.pending| ==> r.off <= |r.pending|
  {
    if o.off == |o.pending| && o.queue != [] then
      var (batch, rest) := Batch(o.queue, []);
      Outbox(rest, batch, 0)
    else o
  }

  datatype Turn = Stop(end: FlushEnd) | Go(n: nat)

  /** The outcome of offering the rest of the batch to the socket. */
  function NextTurn(b: Outbox, writes: seq<WriteResult>): (t: Turn)
    requires b.off <= |b.pending|
    ensures t.Go? ==> 0 < t.n <= |b.pending| - b.off && writes != []
  {
    if writes == [] then Stop(Blocked)
    else
      match writes[0]
      case WouldBlock => Stop(Blocked)
      case Failed => Stop(Dead)
      case Wrote(n) =>
        var m := if n <= |b.pending| - b.off then n else |b.pending| - b.off;
        if m == 0 then Stop(Blocked) else Go(m)
  }

  datatype Progress = Progress(o: Outbox, taken: Bytes, turn: Turn)

  /** One turn of the write loop. */
  function TakeTurn(o: Outbox, writes: seq<WriteResult>): (p: Progress)
    requires o.off <= |o.pending|
    ensures p.o.off <= |p.o.pending|
    ensures p.turn.Go? ==> writes != []
  {
    if o.off == |o.pending| && o.queue == [] then Progress(o, [], Stop(Done))
    else
      var b := Refill(o);
      match NextTurn(b, writes)
      case Stop(end) => Progress(b, [], Stop(end))
      case Go(n) => Progress(b.(off := b.off + n), b.pending[b.off..b.off + n], Go(n))
  }

  datatype Flushed = Flushed(o: Outbox, sent: Bytes, end: FlushEnd)

  /** Some bytes, and then what more writing sends. */
  function After(sent: Bytes, f: Flushed): (r: Flushed) {
    f.(sent := sent + f.sent)
  }

  lemma AfterTwice(a: Bytes, b: Bytes, f: Flushed)
    ensures After(a, After(b, f)) == After(a + b, f)
    ensures f.sent == [] ==> After(a, f).sent == a
    ensures a == [] ==> After(a, f) == f
  {
    Assoc(a, b, f.sent);
  }

  /** The write loop, against the results the socket will give; no more results means it blocks. */
  function Flush(o: Outbox, writes: seq<WriteResult>): (f: Flushed)
    requires o.off <= |o.pending|
    decreases |writes|
  {
    var p := TakeTurn(o, writes);
    match p.turn
    case Stop(end) => Flushed(p.o, [], end)
    case Go(_) => After(p.taken, Flush(p.o, writes[1..]))
  }

  predicate IsSuffix<T(==)>(tail: seq<T>, s: seq<T>) {
    |tail| <= |s| && s[|s| - |tail|..] == tail
  }

  lemma SuffixTransitive<T>(a: seq<T>, b: seq<T>, c: seq<T>)
    requires IsSuffix(a, b) && IsSuffix(b, c)
    ensures IsSuffix(a, c)
  {
    DropDrop(c, |c| - |b|, |b| - |a|);
  }

  lemma {:induction false} BatchKeepsBytes(queue: seq<Queued>, batch: Bytes)
    ensures var (b, rest) := Batch(queue, batch);
      b + Payloads(rest) == batch + Payloads(queue) && IsSuffix(rest, queue)
  {
    if |batch| < BATCH_MAX && queue != [] {
      var (b, rest) := Batch(queue, batch);
      BatchKeepsBytes(queue[1..], batch + queue[0].pkt);
      Assoc(batch, queue[0].pkt, Payloads(queue[1..]));
      SuffixTransitive(rest, queue[1..], queue);
    } else {
      assert queue == queue[0..];
    }
  }

  lemma RefillKeepsBytes(o: Outbox)
    requires o.off <= |o.pending|
    ensures Refill(o).off <= |Refill(o).pending| && Unsent(Refill(o)) == Unsent(o)
    ensures IsSuffix(Refill(o).queue, o.queue)
  {
    BatchKeepsBytes(o.queue, []);
    if o.off == |o.pending| && o.queue != [] {
      assert o.pending[o.off..] == [];
      assert [] + Payloads(o.queue) == Payloads(o.queue);
      assert Refill(o).pending[0..] == Refill(o).pending;
    } else {
      assert o.queue == o.queue[0..];
    }
  }

  lemma WriteKeepsBytes(b: Outbox, n: nat)
    requires b.off + n <= |b.pending|
    ensures b.pending[b.off..b.off + n] + Unsent(b.(off := b.off + n)) == Unsent(b)
  {
    var head, tail := b.pending[b.off..b.off + n], b.pending[b.off + n..];
    assert b.pending[b.off..] == head + tail;
    Assoc(head, tail, Payloads(b.queue));
  }

  lemma TurnKeepsBytes(o: Outbox, writes: seq<WriteResult>)
    requires o.Valid()
    ensures var p := TakeTurn(o, writes);
      p.o.Valid() && p.taken + Unsent(p.o) == Unsent(o) && IsSuffix(p.o.queue, o.queue)
  {
    if o.off == |o.pending| && o.queue == [] {
      PrependNothing(Unsent(o));
    } else {
      var b := Refill(o);
      RefillKeepsBytes(o);
      PrependNothing(Unsent(b));
      var t := NextTurn(b, writes);
      if t.Go? {
        WriteKeepsBytes(b, t.n);
      }
    }
  }

  /** Whatever the socket does, what it took and what is still owed add up, in order. */
  lemma {:induction false} FlushKeepsBytes(o: Outbox, writes: seq<WriteResult>)
    requires o.Valid()
    ensures var f := Flush(o, writes);
      f.o.Valid() && f.sent + Unsent(f.o) == Unsent(o) && IsSuffix(f.o.queue, o.queue)
    decreases |writes|
  {
    var p := TakeTurn(o, writes);
    TurnKeepsBytes(o, writes);
    if p.turn.Go? {
      var rest := Flush(p.o, writes[1..]);
      FlushKeepsBytes(p.o, writes[1..]);
      Assoc(p.taken, rest.sent, Unsent(rest.o));
      SuffixTransitive(rest.o.queue, p.o.queue, o.queue);
    }
  }

  /** When the loop reports that everything was flushed, nothing is owed any more. */
  lemma {:induction false} FlushDoneMeansEmpty(o: Outbox, writes: seq<WriteResult>)
    requires o.Valid() && Flush(o, writes).end == Done
    ensures var o' := Flush(o, writes).o;
      o'.off <= |o'.pending| && Unsent(o') == []
    decreases |writes|
  {
    var p := TakeTurn(o, writes);
    TurnKeepsBytes(o, writes);
    if p.turn.Go? {
      FlushDoneMeansEmpty(p.o, writes[1..]);
    }
  }

  /** And then the queue is empty. */
  lemma {:induction false} FlushEmpties(o: Outbox, writes: seq<WriteResult>)
    requires o.off <= |o.pending| && Flush(o, writes).end == Done
    ensures Flush(o, writes).o.queue == []
    decreases |writes|
  {
    var p := TakeTurn(o, writes);
    if p.turn.Go? {
      FlushEmpties(p.o, writes[1..]);
    }
  }

  /**
   A batch is the shortest front of the queue, in whole packets, that has BATCH_MAX bytes; or the
   whole queue, if that has fewer.
   */
  lemma {:induction false} BatchIsShortest(queue: seq<Queued>, batch: Bytes) returns (k: nat)
    ensures k <= |queue| && Batch(queue, batch) == (batch + Payloads(queue[..k]), queue[k..])
    ensures k < |queue| ==> |batch + Payloads(queue[..k])| >= BATCH_MAX
    ensures k > 0 ==> |batch + Payloads(queue[..k - 1])| < BATCH_MAX
  {
    k := 0;
    if |batch| < BATCH_MAX && queue != [] {
      var more := batch + queue[0].pkt;
      var j := BatchIsShortest(queue[1..], more);
      k := j + 1;
      DropDrop(queue, 1, j);
      OneMorePayload(batch, queue, j);
      if j > 0 {
        OneMorePayload(batch, queue, j - 1);
      } else {
        AppendNothing(batch);
      }
    } else {
      AppendNothing(batch);
      assert queue[0..] == queue;
    }
  }

  lemma OneMorePayload(batch: Bytes, queue: seq<Queued>, j: nat)
    requires j < |queue|
    ensures batch + queue[0].pkt + Payloads(queue[1..][..j]) == batch + Payloads(queue[..j + 1])
  {
    assert queue[..j + 1][1..] == queue[1..][..j];
    Assoc(batch, queue[0].pkt, Payloads(queue[1..][..j]));
  }

  /** No packet is empty. */
  predicate Solid(queue: seq<Queued>) {
    forall i :: 0 <= i < |queue| ==> queue[i].pkt != []
  }

  /** The socket takes something. */
  predicate Advances(w: WriteResult) {
    w.Wrote? && w.n > 0
  }

  /** As long as something is owed, a turn offers some of it, and sends what the socket takes. */
  lemma TurnAdvances(o: Outbox, writes: seq<WriteResult>)
    requires o.Valid() && Solid(o.queue) && writes != []
    ensures var p := TakeTurn(o, writes);
      && p.o.Valid() && Solid(p.o.queue) && |Unsent(p.o)| + |p.taken| == |Unsent(o)|
      && (p.turn.Go? ==> |p.taken| > 0)
      && if o.off == |o.pending| && o.queue == [] then p.turn == Stop(Done)
         else if Advances(writes[0]) then p.turn == Go(|p.taken|)
         else p.turn == Stop(if writes[0].Failed? then Dead else Blocked)
  {
    TurnKeepsBytes(o, writes);
    if o.off == |o.pending| && o.queue != [] {
      var k := BatchIsShortest(o.queue, []);
      assert k > 0;
      assert Payloads(o.queue[..k]) == o.queue[0].pkt + Payloads(o.queue[..k][1..]);
    }
  }

  /** If the socket takes something each time, it gets everything that is owed, and the loop ends as done. */
  lemma {:induction false} FlushFinishes(o: Outbox, writes: seq<WriteResult>)
    requires o.Valid() && Solid(o.queue) && |writes| > |Unsent(o)|
    requires forall i :: 0 <= i < |writes| ==> Advances(writes[i])
    ensures Flush(o, writes).end == Done && Flush(o, writes).sent == Unsent(o)
    decreases |writes|
  {
    var p := TakeTurn(o, writes);
    TurnAdvances(o, writes);
    if p.turn.Go? {
      FlushFinishes(p.o, writes[1..]);
    }
    FlushKeepsBytes(o, writes);
    FlushDoneMeansEmpty(o, writes);
    AppendNothing(Flush(o, writes).sent);
  }

  /**
   The loop ends as dead exactly if the socket fails at a write that it comes to: the socket took
   something each time before, and something is still owed.
   */
  lemma {:induction false} FlushDiesExactly(o: Outbox, writes: seq<WriteResult>)
    requires o.Valid() && Solid(o.queue)
    ensures Flush(o, writes).end == Dead <==>
      exists k :: FailsAt(o, writes, k)
    decreases |writes|
  {
    if writes == [] {
      assert forall k :: !FailsAt(o, writes, k);
    } else {
      TurnAdvances(o, writes);
      var p := TakeTurn(o, writes);
      if p.turn.Go? {
        FlushDiesExactly(p.o, writes[1..]);
        if k :| FailsAt(p.o, writes[1..], k) {
          FailsFurtherOn(o, writes, k + 1);
        } else {
          forall k
            ensures !FailsAt(o, writes, k)
          {
            if k > 0 {
              FailsFurtherOn(o, writes, k);
            }
          }
        }
      } else if p.turn.end == Dead {
        assert Flush(o, writes[..0]).end != Done;
        assert FailsAt(o, writes, 0);
      } else {
        forall k
          ensures !FailsAt(o, writes, k)
        {
        }
      }
    }
  }

  predicate FailsAt(o: Outbox, writes: seq<WriteResult>, k: int)
    requires o.off <= |o.pending|
  {
    && 0 <= k < |writes| && writes[k].Failed? && Flush(o, writes[..k]).end != Done
    && forall i :: 0 <= i < k ==> Advances(writes[i])
  }

  lemma FailsFurtherOn(o: Outbox, writes: seq<WriteResult>, k: int)
    requires o.Valid() && Solid(o.queue) && writes != [] && TakeTurn(o, writes).turn.Go? && k > 0
    ensures TakeTurn(o, writes).o.off <= |TakeTurn(o, writes).o.pending|
    ensures FailsAt(o, writes, k) <==> FailsAt(TakeTurn(o, writes).o, writes[1..], k - 1)
  {
    TurnAdvances(o, writes);
    if k < |writes| {
      assert writes[..k][0] == writes[0];
      assert writes[..k][1..] == writes[1..][..k - 1];
      assert writes[1..][k - 1] == writes[k];
      assert forall i :: 0 <= i < k ==> (Advances(writes[i]) <==> i == 0 || Advances(writes[1..][i - 1]));
    }
  }

  // ---- Runs

  datatype Op = Put(reliable: bool, pkt: Bytes) | Write(writes: seq<WriteResult>)

  /** The outbox after some operations, all bytes the socket took, and all packets accepted. */
  datatype Trace = Trace(o: Outbox, sent: Bytes, accepted: seq<Queued>)

  function Step(t: Trace, op: Op): (r: Trace)
    requires t.o.off <= |t.o.pending|
  {
    match op
    case Put(reliable, pkt) =>
      (match if reliable then Insist(t.o, pkt) else Offer(t.o, pkt)
       case None => t
       case Some(o) => Trace(o, t.sent, t.accepted + [Queued(reliable, pkt)]))
    case Write(writes) =>
      var f := Flush(t.o, writes);
      Trace(f.o, t.sent + f.sent, t.accepted)
  }

  /** Those of the items that are kept. */
  function Unevicted(items: seq<Queued>, keep: seq<bool>): (r: seq<Queued>)
    requires |items| == |keep|
    ensures |r| <= |items|
  {
    if items == [] then []
    else Unevicted(items[..|items| - 1], keep[..|items| - 1]) + if keep[|items| - 1] then [items[|items| - 1]] else []
  }

  /**
   The account of a run: `keep` marks the accepted packets that were not evicted. What the
   socket took and what is still owed are those packets end to end; the queue is the last of
   them; and only unreliable packets are missing.
   */
  ghost predicate Account(t: Trace, keep: seq<bool>) {
    && t.o.Valid()
    && |keep| == |t.accepted|
    && (forall i :: 0 <= i < |keep| && !keep[i] ==> !t.accepted[i].reliable)
    && var kept := Unevicted(t.accepted, keep);
      && t.sent + Unsent(t.o) == Payloads(kept)
      && IsSuffix(t.o.queue, kept)
  }

  lemma {:induction false} PayloadsConcat(a: seq<Queued>, b: seq<Queued>)
    ensures Payloads(a + b) == Payloads(a) + Payloads(b)
  {
    if a == [] {
      assert a + b == b;
    } else {
      PayloadsConcat(a[1..], b);
      DropOfConcat(a, b, 1);
    }
  }

  lemma UnevictedSnoc(items: seq<Queued>, keep: seq<bool>, x: Queued)
    requires |items| == |keep|
    ensures Unevicted(items + [x], keep + [true]) == Unevicted(items, keep) + [x]
  {
    assert (items + [x])[..|items|] == items;
    assert (keep + [true])[..|items|] == keep;
  }

  /** The place among the items of the `m`-th kept one. */
  lemma {:induction false} Drop(items: seq<Queued>, keep: seq<bool>, m: nat) returns (i: nat)
    requires |items| == |keep| && m < |Unevicted(items, keep)|
    ensures i < |items| && keep[i] && items[i] == Unevicted(items, keep)[m]
    ensures Unevicted(items, keep[i := false]) == Without(Unevicted(items, keep), m)
  {
    var n := |items| - 1;
    var before := Unevicted(items[..n], keep[..n]);
    var last := if keep[n] then [items[n]] else [];
    assert Unevicted(items, keep) == before + last;
    if m < |before| {
      i := Drop(items[..n], keep[..n], m);
      assert keep[i := false][..n] == keep[..n][i := false];
      assert Without(before + last, m) == Without(before, m) + last;
    } else {
      i := n;
      assert keep[i := false][..n] == keep[..n];
      assert Without(before + [items[n]], |before|) == before;
    }
  }

  lemma AccountPut(t: Trace, keep: seq<bool>, reliable: bool, pkt: Bytes) returns (keep': seq<bool>)
    requires Account(t, keep)
    ensures Account(Step(t, Put(reliable, pkt)), keep')
  {
    var x := Queued(reliable, pkt);
    var r := if reliable then Insist(t.o, pkt) else Offer(t.o, pkt);
    MakeRoomOnce(t.o.queue);
    if r.None? {
      keep' := keep;
    } else if |t.o.queue| < WRITE_QUEUE_CAP {
      keep' := keep + [true];
      AccountAppend(t, keep, x);
    } else {
      var k := FirstUnreliable(t.o.queue);
      var keep1 := AccountEvict(t, keep, k);
      AccountAppend(t.(o := t.o.(queue := Without(t.o.queue, k))), keep1, x);
      keep' := keep1 + [true];
    }
  }

  lemma AccountAppend(t: Trace, keep: seq<bool>, x: Queued)
    requires Account(t, keep) && |t.o.queue| < WRITE_QUEUE_CAP
    ensures Account(Trace(t.o.(queue := t.o.queue + [x]), t.sent, t.accepted + [x]), keep + [true])
  {
    var kept := Unevicted(t.accepted, keep);
    UnevictedSnoc(t.accepted, keep, x);
    AppendedBytes(t.sent, t.o.pending[t.o.off..], kept, t.o.queue, x);
    AppendedSuffix(t.o.queue, kept, x);
  }

  lemma AppendedBytes(sent: Bytes, batch: Bytes, kept: seq<Queued>, queue: seq<Queued>, x: Queued)
    requires sent + (batch + Payloads(queue)) == Payloads(kept)
    ensures sent + (batch + Payloads(queue + [x])) == Payloads(kept + [x])
  {
    var more := Payloads([x]);
    PayloadsConcat(kept, [x]);
    PayloadsConcat(queue, [x]);
    Assoc(batch, Payloads(queue), more);
    Assoc(sent, batch + Payloads(queue), more);
  }

  lemma AppendedSuffix<T>(tail: seq<T>, s: seq<T>, x: T)
    requires IsSuffix(tail, s)
    ensures IsSuffix(tail + [x], s + [x])
  {
    DropOfConcat(s, [x], |s| - |tail|);
  }

  lemma AccountEvict(t: Trace, keep: seq<bool>, k: nat) returns (keep': seq<bool>)
    requires Account(t, keep) && k < |t.o.queue| && !t.o.queue[k].reliable
    ensures Account(t.(o := t.o.(queue := Without(t.o.queue, k))), keep')
  {
    ghost var done;
    keep', done := Evict(t.accepted, keep, t.o.queue, k);
    EvictedBytes(t.sent, t.o.pending[t.o.off..], done, t.o.queue, k);
  }

  /** Marks the `k`-th packet of the queue as evicted; `done` are the kept packets before the queue. */
  lemma Evict(accepted: seq<Queued>, keep: seq<bool>, queue: seq<Queued>, k: nat)
    returns (keep': seq<bool>, done: seq<Queued>)
    requires |keep| == |accepted| && IsSuffix(queue, Unevicted(accepted, keep)) && k < |queue|
    ensures |keep'| == |keep|
    ensures forall i :: 0 <= i < |keep| && !keep'[i] ==> !keep[i] || accepted[i] == queue[k]
    ensures Unevicted(accepted, keep) == done + queue && Unevicted(accepted, keep') == done + Without(queue, k)
    ensures IsSuffix(Without(queue, k), Unevicted(accepted, keep'))
  {
    var kept := Unevicted(accepted, keep);
    var n := |kept| - |queue|;
    done := kept[..n];
    assert kept[n + k] == kept[n..][k];
    var i := Drop(accepted, keep, n + k);
    keep' := keep[i := false];
    EvictedTail(kept, n, queue, k);
  }

  lemma EvictedTail(kept: seq<Queued>, n: nat, queue: seq<Queued>, k: nat)
    requires n <= |kept| && kept[n..] == queue && k < |queue|
    ensures Without(kept, n + k) == kept[..n] + Without(queue, k)
    ensures Without(kept, n + k)[n..] == Without(queue, k)
  {
    assert kept[n + k + 1..] == queue[k + 1..];
    assert kept[..n + k] == kept[..n] + queue[..k];
    Assoc(kept[..n], queue[..k], queue[k + 1..]);
  }

  lemma EvictedBytes(sent: Bytes, batch: Bytes, done: seq<Queued>, queue: seq<Queued>, k: nat)
    requires k < |queue| && sent + (batch + Payloads(queue)) == Payloads(done + queue)
    ensures sent + (batch + Payloads(Without(queue, k))) == Payloads(done + Without(queue, k))
  {
    PayloadsConcat(done, queue);
    PayloadsConcat(done, Without(queue, k));
    SentIsDone(sent, batch, Payloads(done), Payloads(queue));
    Assoc(sent, batch, Payloads(Without(queue, k)));
  }

  lemma SentIsDone(sent: Bytes, batch: Bytes, done: Bytes, queue: Bytes)
    requires sent + (batch + queue) == done + queue
    ensures sent + batch == done
  {
    Assoc(sent, batch, queue);
    assert (sent + batch + queue)[..|done|] == sent + batch;
    assert (done + queue)[..|done|] == done;
  }

  lemma AccountWrite(t: Trace, keep: seq<bool>, writes: seq<WriteResult>)
    requires Account(t, keep)
    ensures Account(Step(t, Write(writes)), keep)
  {
    var f := Flush(t.o, writes);
    FlushKeepsBytes(t.o, writes);
    Assoc(t.sent, f.sent, Unsent(f.o));
    var kept := Unevicted(t.accepted, keep);
    SuffixTransitive(f.o.queue, t.o.queue, kept);
  }

  function Run(ops: seq<Op>): (t: Trace)
    ensures t.o.Valid()
  {
    if ops == [] then Trace(Outbox([], [], 0), [], [])
    else
      var t := Run(ops[..|ops| - 1]);
      StepKeepsBounds(t, ops[|ops| - 1]);
      Step(t, ops[|ops| - 1])
  }

  /** The queue never exceeds its bound. */
  lemma StepKeepsBounds(t: Trace, op: Op)
    requires t.o.Valid()
    ensures Step(t, op).o.Valid()
  {
    match op
    case Put(reliable, pkt) => MakeRoomOnce(t.o.queue);
    case Write(writes) => FlushKeepsBytes(t.o, writes);
  }

  lemma AccountStep(t: Trace, keep: seq<bool>, op: Op) returns (keep': seq<bool>)
    requires Account(t, keep)
    ensures Account(Step(t, op), keep')
  {
    match op
    case Put(reliable, pkt) => keep' := AccountPut(t, keep, reliable, pkt);
    case Write(writes) =>
      AccountWrite(t, keep, writes);
      keep' := keep;
  }

  /** Conservation: every interleaving of queueing and writing has an account. */
  lemma {:induction false} EveryRunHasAnAccount(ops: seq<Op>) returns (keep: seq<bool>)
    ensures Account(Run(ops), keep)
  {
    if ops == [] {
      keep := [];
    } else {
      keep := EveryRunHasAnAccount(ops[..|ops| - 1]);
      keep := AccountStep(Run(ops[..|ops| - 1]), keep, ops[|ops| - 1]);
    }
  }
}
