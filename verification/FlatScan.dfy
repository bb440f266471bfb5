/**
 The threaded broker's fan-out: a scan of all subscriptions with bounded channels behind them.
 It is the simple thing the indexed fan-out speeds up.
 */
module FlatScan {
  import opened Bytes
  import opened Topics
  import opened FanOut
  import opened BrokerModel
  import Outbox
  import Wire
  import Connection

  /** What `try_send` says: the channel took the message, was full, or has lost its writer. */
  datatype Outcome = Sent | Full | Disconnected

  /** The subscriptions a scan reaches, in order. */
  ghost function Scan(subs: seq<Subscription>, topic: Bytes): (r: seq<Subscription>) {
    if subs == [] then []
    else
      var n := |subs| - 1;
      Scan(subs[..n], topic) + if Matches(subs[n].filter, topic) then [subs[n]] else []
  }

  /** The subscriptions the scan keeps: all but matching ones whose writer is gone. */
  ghost function Survivors(subs: seq<Subscription>, topic: Bytes, outcomes: seq<Outcome>): (r: seq<Subscription>)
    requires |outcomes| == |subs|
  {
    if subs == [] then []
    else
      var n := |subs| - 1;
      Survivors(subs[..n], topic, outcomes[..n])
      + if Matches(subs[n].filter, topic) && outcomes[n] == Disconnected then [] else [subs[n]]
  }

  /** How many matching subscriptions have this outcome. */
  ghost function Tally(subs: seq<Subscription>, topic: Bytes, outcomes: seq<Outcome>, o: Outcome): (k: nat)
    requires |outcomes| == |subs|
  {
    if subs == [] then 0
    else
      var n := |subs| - 1;
      Tally(subs[..n], topic, outcomes[..n], o) + if Matches(subs[n].filter, topic) && outcomes[n] == o then 1 else 0
  }

  class ThreadedBroker {
    var subs: seq<Subscription>
    var drops: nat
    var deadSubs: nat

    constructor ()
      ensures subs == [] && drops == 0 && deadSubs == 0
    {
      subs, drops, deadSubs := [], 0, 0;
    }

    method Subscribe(filter: Bytes, qos: Wire.QoS, token: nat)
      modifies this`subs
      ensures subs == old(subs) + [Subscription(filter, token, qos)]
    {
      subs := subs + [Subscription(filter, token, qos)];
    }

    method DisconnectClient(token: nat)
      modifies this`subs
      ensures subs == Others(old(subs), token)
      ensures forall x :: Count(subs, x) == if x.token == token then 0 else Count(old(subs), x)
      ensures IsSubsequence(subs, old(subs))
    {
      var kept: seq<Subscription> := [];
      for i := 0 to |subs|
        invariant kept == Others(subs[..i], token)
      {
        assert subs[..i + 1][..i] == subs[..i];
        if subs[i].token != token {
          kept := kept + [subs[i]];
        }
      }
      assert subs[..|subs|] == subs;
      OthersMeaning(subs, token);
      subs := kept;
    }

    method Unsubscribe(filter: Bytes, token: nat)
      modifies this`subs
      ensures subs == Unsubscribed(old(subs), token, [filter])
      ensures forall x :: Count(subs, x) == if x.token == token && x.filter == filter then 0 else Count(old(subs), x)
      ensures IsSubsequence(subs, old(subs))
    {
      var kept: seq<Subscription> := [];
      for i := 0 to |subs|
        invariant kept == Unsubscribed(subs[..i], token, [filter])
      {
        assert subs[..i + 1][..i] == subs[..i];
        if !(subs[i].filter == filter && subs[i].token == token) {
          kept := kept + [subs[i]];
        }
      }
      assert subs[..|subs|] == subs;
      UnsubscribedMeaning(subs, token, [filter]);
      subs := kept;
    }

    /** One pass over the subscriptions; `outcomes[i]` is what the channel of the `i`-th would say. */
    method Publish(topic: Bytes, outcomes: seq<Outcome>) returns (delivered: nat, dropped: nat)
      requires |outcomes| == |subs|
      modifies this
      ensures subs == Survivors(old(subs), topic, outcomes)
      ensures delivered == Tally(old(subs), topic, outcomes, Sent)
      ensures dropped == Tally(old(subs), topic, outcomes, Full)
      ensures drops == old(drops) + dropped
      ensures deadSubs == old(deadSubs) + Tally(old(subs), topic, outcomes, Disconnected)
    {
      var kept: seq<Subscription> := [];
      var dead := 0;
      delivered, dropped := 0, 0;
      for i := 0 to |subs|
        modifies {}
        invariant kept == Survivors(subs[..i], topic, outcomes[..i])
        invariant delivered == Tally(subs[..i], topic, outcomes[..i], Sent)
        invariant dropped == Tally(subs[..i], topic, outcomes[..i], Full)
        invariant dead == Tally(subs[..i], topic, outcomes[..i], Disconnected)
      {
        OneMoreScanned(subs, topic, outcomes, i);
        var hit := TopicMatches(subs[i].filter, topic);
        if hit && outcomes[i] == Disconnected {
          dead := dead + 1;
        } else {
          if hit {
            match outcomes[i]
            case Sent => delivered := delivered + 1;
            case Full => dropped := dropped + 1;
          }
          kept := kept + [subs[i]];
        }
      }
      assert subs[..|subs|] == subs && outcomes[..|subs|] == outcomes;
      subs := kept;
      drops := drops + dropped;
      deadSubs := deadSubs + dead;
    }
  }

  /** One more subscription of the pass. */
  lemma OneMoreScanned(subs: seq<Subscription>, topic: Bytes, outcomes: seq<Outcome>, i: nat)
    requires |outcomes| == |subs| && i < |subs|
    ensures var hit := Matches(subs[i].filter, topic);
      && (forall o :: Tally(subs[..i + 1], topic, outcomes[..i + 1], o)
            == Tally(subs[..i], topic, outcomes[..i], o) + if hit && outcomes[i] == o then 1 else 0)
      && Survivors(subs[..i + 1], topic, outcomes[..i + 1])
           == Survivors(subs[..i], topic, outcomes[..i]) + if hit && outcomes[i] == Disconnected then [] else [subs[i]]
  {
    assert subs[..i + 1][..i] == subs[..i] && outcomes[..i + 1][..i] == outcomes[..i];
  }

  /** Every matching subscription is accounted for once, and the dead ones are those that go. */
  lemma {:induction false} EveryMatchIsCounted(subs: seq<Subscription>, topic: Bytes, outcomes: seq<Outcome>)
    requires |outcomes| == |subs|
    ensures Tally(subs, topic, outcomes, Sent) + Tally(subs, topic, outcomes, Full)
      + Tally(subs, topic, outcomes, Disconnected)
      == |Scan(subs, topic)|
    ensures |Survivors(subs, topic, outcomes)| + Tally(subs, topic, outcomes, Disconnected) == |subs|
  {
    if subs != [] {
      EveryMatchIsCounted(subs[..|subs| - 1], topic, outcomes[..|subs| - 1]);
    }
  }

  lemma {:induction false} SurvivorsKeepOrder(subs: seq<Subscription>, topic: Bytes, outcomes: seq<Outcome>)
    requires |outcomes| == |subs|
    ensures IsSubsequence(Survivors(subs, topic, outcomes), subs)
  {
    if subs != [] {
      var n := |subs| - 1;
      SurvivorsKeepOrder(subs[..n], topic, outcomes[..n]);
      var before := Survivors(subs[..n], topic, outcomes[..n]);
      if Matches(subs[n].filter, topic) && outcomes[n] == Disconnected {
        assert Survivors(subs, topic, outcomes) == before;
      } else {
        assert (before + [subs[n]])[..|before|] == before;
      }
    }
  }

  // ---- The indexed fan-out against the scan

  /** What the indexed fan-out tries, in its order: the matching subscriptions from the last to the first. */
  ghost function Tried(subs: seq<Subscription>, topic: Bytes): (r: seq<Subscription>) {
    if subs == [] then []
    else
      var n := |subs| - 1;
      (if Matches(subs[n].filter, topic) then [subs[n]] else []) + Tried(subs[..n], topic)
  }

  lemma {:induction false} PickBelow(subs: seq<Subscription>, idxs: seq<nat>)
    requires subs != [] && Within(idxs, |subs| - 1)
    ensures Within(idxs, |subs|) && Pick(subs, idxs) == Pick(subs[..|subs| - 1], idxs)
    decreases |idxs|
  {
    if idxs != [] {
      PickBelow(subs, idxs[1..]);
    }
  }

  lemma {:induction false} PickedIsTried(subs: seq<Subscription>, topic: Bytes)
    ensures var idxs := Order(subs, topic);
      Within(idxs, |subs|) && Pick(subs, idxs) == Tried(subs, topic)
  {
    if subs != [] {
      var n := |subs| - 1;
      var rest := Order(subs[..n], topic);
      PickedIsTried(subs[..n], topic);
      PickBelow(subs, rest);
      if Matches(subs[n].filter, topic) {
        assert Order(subs, topic)[1..] == rest;
      } else {
        assert Order(subs, topic) == rest;
      }
    }
  }

  /** The index hands the fan-out the same subscriptions as the scan finds, each as often. */
  lemma {:induction false} TriedIsScanned(subs: seq<Subscription>, topic: Bytes, x: Subscription)
    ensures Count(Tried(subs, topic), x) == Count(Scan(subs, topic), x)
  {
    if subs != [] {
      var n := |subs| - 1;
      TriedIsScanned(subs[..n], topic, x);
      if Matches(subs[n].filter, topic) {
        CountConcat([subs[n]], Tried(subs[..n], topic), x);
        CountSnoc(Scan(subs[..n], topic), subs[n], x);
        CountOne(subs[n], x);
      } else {
        assert Scan(subs, topic) == Scan(subs[..n], topic) && Tried(subs, topic) == Tried(subs[..n], topic);
      }
    }
  }

  lemma CountOne<T>(v: T, x: T)
    ensures Count([v], x) == if v == x then 1 else 0
  {
    CountSnoc([], v, x);
    assert [] + [v] == [v];
  }

  /** How many of the subscriptions are this connection's. */
  function ForToken(targets: seq<Subscription>, token: nat): (k: nat) {
    if targets == [] then 0 else (if targets[0].token == token then 1 else 0) + ForToken(targets[1..], token)
  }

  function FailedFor(targets: seq<Subscription>, oks: seq<bool>, token: nat): (k: nat)
    requires |targets| == |oks|
  {
    if targets == [] then 0
    else (if targets[0].token == token && !oks[0] then 1 else 0) + FailedFor(targets[1..], oks[1..], token)
  }

  function Copies(pkt: Bytes, n: nat): (r: seq<Outbox.Queued>) {
    if n == 0 then [] else [Outbox.Queued(false, pkt)] + Copies(pkt, n - 1)
  }

  /** A connection with `n` more copies of a packet in its queue. */
  function Holding(c: Connection.State, pkt: Bytes, n: nat): (c': Connection.State) {
    c.(out := c.out.(queue := c.out.queue + Copies(pkt, n)))
  }

  lemma HoldingMore(c: Connection.State, pkt: Bytes, n: nat)
    ensures Holding(c, pkt, 0) == c
    ensures Holding(Holding(c, pkt, 1), pkt, n) == Holding(c, pkt, n + 1)
  {
    var one := Outbox.Queued(false, pkt);
    assert Copies(pkt, 1) == [one] + Copies(pkt, 0) == [one];
    Assoc(c.out.queue, [one], Copies(pkt, n));
    assert c.out.queue + [] == c.out.queue;
  }

  /** Of `n` copies a connection takes as many as its queue has room for. */
  function Taken(c: Connection.State, n: nat): (k: nat)
    requires |c.out.queue| <= Outbox.WRITE_QUEUE_CAP
    ensures k <= n
  {
    if |c.out.queue| + n <= Outbox.WRITE_QUEUE_CAP then n else Outbox.WRITE_QUEUE_CAP - |c.out.queue|
  }

  ghost predicate QueuesBounded(cs: map<nat, Connection.State>) {
    forall t :: t in cs ==> |cs[t].out.queue| <= Outbox.WRITE_QUEUE_CAP
  }

  /** One QoS 0 copy is queued exactly when the connection is there and has room. */
  lemma Qos0Step(cs: map<nat, Connection.State>, s: Subscription, m: Message, pkt: Bytes)
    requires m.qos == 0 && pkt == Wire.BuildForward(m.topic, m.payload, 0, None, false, false)
    ensures SendOne(cs, s, m) ==
      if s.token in cs && |cs[s.token].out.queue| < Outbox.WRITE_QUEUE_CAP
      then (cs[s.token := Holding(cs[s.token], pkt, 1)], true) else (cs, false)
  {
    var one := Outbox.Queued(false, pkt);
    assert Copies(pkt, 1) == [one] + Copies(pkt, 0) == [one];
  }

  /**
   A QoS 0 fan-out gives each connection one copy for each of its subscriptions, as long as its
   queue has room; exactly the subscriptions beyond that, and those without a connection, fail.
   */
  lemma {:induction false} Qos0Exactly(
    cs: map<nat, Connection.State>, targets: seq<Subscription>, m: Message, pkt: Bytes, t: nat)
    requires m.qos == 0 && pkt == Wire.BuildForward(m.topic, m.payload, 0, None, false, false)
    requires t in cs ==> |cs[t].out.queue| <= Outbox.WRITE_QUEUE_CAP
    ensures var (cs', oks) := SendAll(cs, targets, m);
      && (t in cs' <==> t in cs)
      && (t in cs ==> cs'[t] == Holding(cs[t], pkt, Taken(cs[t], ForToken(targets, t))))
      && FailedFor(targets, oks, t) == ForToken(targets, t) - if t in cs then Taken(cs[t], ForToken(targets, t)) else 0
    decreases |targets|
  {
    if t in cs {
      HoldingMore(cs[t], pkt, 0);
    }
    if targets != [] {
      var cs1 := SendOne(cs, targets[0], m).0;
      Qos0Step(cs, targets[0], m, pkt);
      Qos0Exactly(cs1, targets[1..], m, pkt, t);
      if t in cs && cs1[t] != cs[t] {
        HoldingMore(cs[t], pkt, Taken(cs1[t], ForToken(targets[1..], t)));
      }
    }
  }

  /** Every target's connection is there and has room for its own copies. */
  ghost predicate Roomy(cs: map<nat, Connection.State>, targets: seq<Subscription>) {
    forall i :: 0 <= i < |targets| ==> RoomFor(cs, targets, targets[i].token)
  }

  predicate RoomFor(cs: map<nat, Connection.State>, targets: seq<Subscription>, t: nat) {
    t in cs && |cs[t].out.queue| + ForToken(targets, t) <= Outbox.WRITE_QUEUE_CAP
  }

  lemma {:induction false} ForTokenCounts(targets: seq<Subscription>, oks: seq<bool>, i: nat)
    requires |targets| == |oks| && i < |targets|
    ensures ForToken(targets, targets[i].token) > 0
    ensures !oks[i] ==> FailedFor(targets, oks, targets[i].token) > 0
  {
    if i > 0 {
      ForTokenCounts(targets[1..], oks[1..], i - 1);
    }
  }

  lemma {:induction false} NoneFailedFor(targets: seq<Subscription>, oks: seq<bool>, t: nat)
    requires |targets| == |oks| && AllTrue(oks)
    ensures FailedFor(targets, oks, t) == 0
  {
    if targets != [] {
      NoneFailedFor(targets[1..], oks[1..], t);
    }
  }

  /** No copy for a connection fails exactly when there is room for all of them. */
  lemma RoomForExactly(cs: map<nat, Connection.State>, targets: seq<Subscription>, m: Message, t: nat)
    requires m.qos == 0 && QueuesBounded(cs) && ForToken(targets, t) > 0
    ensures FailedFor(targets, SendAll(cs, targets, m).1, t) == 0 <==> RoomFor(cs, targets, t)
  {
    Qos0Exactly(cs, targets, m, Wire.BuildForward(m.topic, m.payload, 0, None, false, false), t);
  }

  ghost predicate AllTrue(oks: seq<bool>) {
    forall i :: 0 <= i < |oks| ==> oks[i]
  }

  lemma AllTrueExactly(targets: seq<Subscription>, oks: seq<bool>)
    requires |targets| == |oks|
    ensures AllTrue(oks) <==> forall i :: 0 <= i < |targets| ==> FailedFor(targets, oks, targets[i].token) == 0
  {
    forall i | 0 <= i < |targets|
      ensures AllTrue(oks) ==> FailedFor(targets, oks, targets[i].token) == 0
      ensures !oks[i] ==> FailedFor(targets, oks, targets[i].token) > 0
    {
      ForTokenCounts(targets, oks, i);
      if AllTrue(oks) {
        NoneFailedFor(targets, oks, targets[i].token);
      }
    }
  }

  /** Every copy is queued exactly when there is room for all of them. */
  lemma Qos0ReachesAll(cs: map<nat, Connection.State>, targets: seq<Subscription>, m: Message, oks: seq<bool>)
    requires m.qos == 0 && QueuesBounded(cs) && oks == SendAll(cs, targets, m).1
    ensures AllTrue(oks) <==> Roomy(cs, targets)
  {
    AllTrueExactly(targets, oks);
    forall i | 0 <= i < |targets|
      ensures FailedFor(targets, oks, targets[i].token) == 0 <==> RoomFor(cs, targets, targets[i].token)
    {
      ForTokenCounts(targets, oks, i);
      RoomForExactly(cs, targets, m, targets[i].token);
    }
  }

  lemma {:induction false} ForTokenConcat(a: seq<Subscription>, b: seq<Subscription>, t: nat)
    ensures ForToken(a + b, t) == ForToken(a, t) + ForToken(b, t)
  {
    if a == [] {
      assert a + b == b;
    } else {
      ForTokenConcat(a[1..], b, t);
      DropOfConcat(a, b, 1);
    }
  }

  lemma ForTokenOne(x: Subscription, t: nat)
    ensures ForToken([x], t) == if x.token == t then 1 else 0
  {
    assert ForToken([x][1..], t) == 0;
  }

  lemma {:induction false} ForTokenUpdate(s: seq<Subscription>, i: nat, v: Subscription, t: nat)
    requires i < |s|
    ensures ForToken(s[i := v], t) + (if s[i].token == t then 1 else 0)
      == ForToken(s, t) + if v.token == t then 1 else 0
  {
    if i == 0 {
      assert s[0 := v][1..] == s[1..];
    } else {
      ForTokenUpdate(s[1..], i - 1, v, t);
      assert s[i := v][1..] == s[1..][i - 1 := v];
    }
  }

  lemma SwapRemoveForToken(s: seq<Subscription>, i: nat, t: nat)
    requires i < |s|
    ensures ForToken(SwapRemove(s, i), t) + (if s[i].token == t then 1 else 0) == ForToken(s, t)
  {
    var last := s[|s| - 1];
    var moved := s[i := last];
    ForTokenUpdate(s, i, last, t);
    SplitLast(moved);
    ForTokenConcat(SwapRemove(s, i), [last], t);
    ForTokenOne(last, t);
  }

  /** What a fan-out prunes of one connection's subscriptions is what failed. */
  lemma {:induction false} SweepForToken(subs: seq<Subscription>, idxs: seq<nat>, oks: seq<bool>, t: nat)
    requires |idxs| == |oks| && Descending(idxs) && Within(idxs, |subs|)
    ensures ForToken(Sweep(subs, idxs, oks), t) + FailedFor(Pick(subs, idxs), oks, t) == ForToken(subs, t)
    decreases |idxs|
  {
    if idxs != [] {
      DescendingTail(idxs);
      assert Pick(subs, idxs)[1..] == Pick(subs, idxs[1..]);
      if oks[0] {
        SweepForToken(subs, idxs[1..], oks[1..], t);
      } else {
        PickAfterRemove(subs, idxs[0], idxs[1..]);
        SwapRemoveForToken(subs, idxs[0], t);
        SweepForToken(SwapRemove(subs, idxs[0]), idxs[1..], oks[1..], t);
      }
    }
  }

  lemma {:induction false} SweepNothing(subs: seq<Subscription>, idxs: seq<nat>, oks: seq<bool>)
    requires |idxs| == |oks| && Descending(idxs) && Within(idxs, |subs|)
    requires AllTrue(oks)
    ensures Sweep(subs, idxs, oks) == subs
    decreases |idxs|
  {
    if idxs != [] {
      DescendingTail(idxs);
      SweepNothing(subs, idxs[1..], oks[1..]);
    }
  }

  /** A slow QoS 0 subscriber: it gets what its queue has room for, and loses its other matching subscriptions. */
  lemma SlowSubscriberIsPruned(cs: map<nat, Connection.State>, subs: seq<Subscription>, m: Message, t: nat)
    requires m.qos == 0 && t in cs && |cs[t].out.queue| <= Outbox.WRITE_QUEUE_CAP
    ensures var (cs', subs') := Fan(cs, subs, m);
      var pkt := Wire.BuildForward(m.topic, m.payload, 0, None, false, false);
      var n := ForToken(Tried(subs, m.topic), t);
      && t in cs' && cs'[t] == Holding(cs[t], pkt, Taken(cs[t], n))
      && ForToken(subs', t) == ForToken(subs, t) - (n - Taken(cs[t], n))
  {
    var idxs := Order(subs, m.topic);
    OrderIsFanout(subs, m.topic);
    PickedIsTried(subs, m.topic);
    var oks := SendAll(cs, Tried(subs, m.topic), m).1;
    Qos0Exactly(cs, Tried(subs, m.topic), m, Wire.BuildForward(m.topic, m.payload, 0, None, false, false), t);
    SweepForToken(subs, idxs, oks, t);
  }

  /**
   The indexed broker tries exactly what the scan reaches, each as often; and a QoS 0 publish
   prunes nothing exactly when every such connection is there with room for its own copies.
   */
  lemma IndexedFanOutRefinesScan(cs: map<nat, Connection.State>, subs: seq<Subscription>, m: Message, x: Subscription)
    requires m.qos == 0 && QueuesBounded(cs)
    ensures Fan(cs, subs, m).0 == SendAll(cs, Tried(subs, m.topic), m).0
    ensures Count(Tried(subs, m.topic), x) == Count(Scan(subs, m.topic), x)
    ensures Fan(cs, subs, m).1 == subs <==> Roomy(cs, Tried(subs, m.topic))
  {
    var tried, idxs := Tried(subs, m.topic), Order(subs, m.topic);
    var oks := SendAll(cs, tried, m).1;
    OrderIsFanout(subs, m.topic);
    PickedIsTried(subs, m.topic);
    TriedIsScanned(subs, m.topic, x);
    Qos0ReachesAll(cs, tried, m, oks);
    SweptIsWhole(subs, idxs, oks);
  }

  /** Nothing is pruned exactly when nothing failed. */
  lemma SweptIsWhole(subs: seq<Subscription>, idxs: seq<nat>, oks: seq<bool>)
    requires |idxs| == |oks| && Descending(idxs) && Within(idxs, |subs|)
    ensures Sweep(subs, idxs, oks) == subs <==> AllTrue(oks)
  {
    if AllTrue(oks) {
      SweepNothing(subs, idxs, oks);
    } else {
      var i :| 0 <= i < |oks| && !oks[i];
      var picked := Pick(subs, idxs);
      ForTokenCounts(picked, oks, i);
      SweepForToken(subs, idxs, oks, picked[i].token);
    }
  }
}
