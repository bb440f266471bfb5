/**
 What a persistent client's leaving does to its messages: what is kept for it, what is lost, and
 when the session that is kept can be taken up again.
 */
module Leaving {
  import opened Bytes
  import opened FanOut
  import opened BrokerModel
  import opened Serving
  import opened Runs
  import opened Sessions
  import opened Leftovers
  import FlatScan
  import Outbox
  import Wire
  import Connection

  // ---- What is kept

  /**
   A persistent client whose unsent reliable packets, once its will is published, are short
   forwards leaves all of them to its session, after what was there, up to the cap, and all its
   subscriptions.
   */
  lemma LeavingKeepsEverything(s: State, token: nat, items: seq<Item>)
    requires var s1 := AfterWill(s, token);
      Persistent(s1, token) && s1.clients[token].out.queue == Written(items)
      && |SessionOf(s1, token).offline| <= OFFLINE_CAP
    requires AllShort(items)
    ensures Remove(s, token).Some?
    ensures var s1, now := AfterWill(s, token), KeptFor(s, token);
      && var was := SessionOf(s1, token);
      && now.offline == was.offline + Fitting(ReliableMessages(items), was.offline)
      && was.subs <= now.subs
      && forall w :: w in now.subs <==> w in was.subs || Subscription(w.filter, token, w.qos) in s1.subs
  {
    SaveKeepsEverything(AfterWill(s, token), token, items);
  }

  /** The session a persistent client leaves behind. */
  ghost function KeptFor(s: State, token: nat): (r: Stored)
    requires Persistent(AfterWill(s, token), token) && Remove(s, token).Some?
  {
    Remove(s, token).value.sessions[AfterWill(s, token).clients[token].clientId]
  }

  // ---- What is lost

  /** The message an entry in flight was made from. */
  ghost predicate IsMessageOf(m: Message, pid: nat, e: Connection.InFlight) {
    exists retain :: e.pkt == Wire.BuildForward(m.topic, m.payload, m.qos, Some(pid), false, retain)
  }

  /** The messages the client has not taken over yet: no PUBACK, and for QoS 2 no PUBREC. */
  ghost predicate AreUntaken(c: Connection.State, untaken: map<nat, Message>) {
    && (forall pid :: pid in untaken <==> pid in c.inFlight && !c.inFlight[pid].awaitPubcomp)
    && (forall pid :: pid in untaken ==> IsMessageOf(untaken[pid], pid, c.inFlight[pid]))
  }

  /** A place among the messages for each id, with that id's message, and no place for two. */
  ghost predicate IsPlacing(untaken: map<nat, Message>, ms: seq<Message>, at: map<nat, nat>) {
    && at.Keys == untaken.Keys
    && (forall pid :: pid in at ==> at[pid] < |ms| && ms[at[pid]] == untaken[pid])
    && Injective(at)
  }

  ghost predicate Injective(at: map<nat, nat>) {
    forall p, q :: p in at && q in at && p != q ==> at[p] != at[q]
  }

  /** There is a copy for each id, also where several ids have the same message. */
  ghost predicate HoldsEach(ms: seq<Message>, untaken: map<nat, Message>) {
    exists at :: IsPlacing(untaken, ms, at)
  }

  /** What leaving adds to the session. */
  ghost function Added(s: State, token: nat): (r: seq<Message>)
    requires Persistent(AfterWill(s, token), token) && Remove(s, token).Some?
    requires |SessionOf(AfterWill(s, token), token).offline| <= |KeptFor(s, token).offline|
  {
    KeptFor(s, token).offline[|SessionOf(AfterWill(s, token), token).offline|..]
  }

  /**
   Leaving saves the queue, not the window. So of the messages the client has not taken over none
   is lost exactly when there is a copy for each among those in the queue that fit the session.
   What was written, or is in the batch being written, is lost.
   */
  lemma LosesNothingExactly(s: State, token: nat, items: seq<Item>, untaken: map<nat, Message>)
    requires var s1 := AfterWill(s, token);
      Persistent(s1, token) && s1.clients[token].out.queue == Written(items)
      && |SessionOf(s1, token).offline| <= OFFLINE_CAP && AreUntaken(s1.clients[token], untaken)
    requires AllShort(items)
    ensures Remove(s, token).Some?
    ensures var was := SessionOf(AfterWill(s, token), token).offline;
      && was <= KeptFor(s, token).offline
      && (HoldsEach(Added(s, token), untaken) <==> HoldsEach(Fitting(ReliableMessages(items), was), untaken))
  {
    LeavingKeepsEverything(s, token, items);
    var was := SessionOf(AfterWill(s, token), token).offline;
    assert KeptFor(s, token).offline[|was|..] == Fitting(ReliableMessages(items), was);
  }

  /** The queue's forwards are first transmissions of untaken messages: none is acknowledged, none is there twice. */
  ghost predicate Tidy(items: seq<Item>, untaken: map<nat, Message>) {
    && (forall i :: 0 <= i < |items| && items[i].Forward? ==>
          items[i].pid in untaken && untaken[items[i].pid] == items[i].m)
    && (forall i, j :: 0 <= i < j < |items| && items[i].Forward? && items[j].Forward? ==> items[i].pid != items[j].pid)
  }

  /** The ids of the forwards, in the order of their messages. */
  function Ids(items: seq<Item>): (r: seq<nat>) {
    if items == [] then []
    else
      var last := items[|items| - 1];
      Ids(items[..|items| - 1]) + if last.Forward? then [last.pid] else []
  }

  ghost predicate Distinct(ids: seq<nat>) {
    forall i, j :: 0 <= i < j < |ids| ==> ids[i] != ids[j]
  }

  ghost predicate Holds(items: seq<Item>, pid: nat) {
    exists i :: 0 <= i < |items| && items[i].Forward? && items[i].pid == pid
  }

  lemma HoldsSnoc(items: seq<Item>, pid: nat)
    requires items != []
    ensures var front, last := items[..|items| - 1], items[|items| - 1];
      Holds(items, pid) <==> Holds(front, pid) || (last.Forward? && last.pid == pid)
  {
    var n := |items| - 1;
    if Holds(items[..n], pid) {
      var i :| 0 <= i < n && items[..n][i].Forward? && items[..n][i].pid == pid;
      assert items[i] == items[..n][i];
    }
    if i :| 0 <= i < |items| && items[i].Forward? && items[i].pid == pid {
      assert i < n ==> items[..n][i] == items[i];
    }
  }

  lemma TidyFront(items: seq<Item>, untaken: map<nat, Message>)
    requires Tidy(items, untaken) && items != []
    ensures var n := |items| - 1;
      && Tidy(items[..n], untaken)
      && (items[n].Forward? ==>
            && items[n].pid in untaken && untaken[items[n].pid] == items[n].m && !Holds(items[..n], items[n].pid))
  {
    var n := |items| - 1;
    assert forall i :: 0 <= i < n ==> items[..n][i] == items[i];
  }

  lemma {:induction false} IdsMatch(items: seq<Item>, untaken: map<nat, Message>)
    requires Tidy(items, untaken)
    ensures |Ids(items)| == |ReliableMessages(items)| && Distinct(Ids(items))
    ensures forall k :: 0 <= k < |Ids(items)| ==>
      Ids(items)[k] in untaken && untaken[Ids(items)[k]] == ReliableMessages(items)[k]
    ensures forall k :: 0 <= k < |Ids(items)| ==> Holds(items, Ids(items)[k])
  {
    if items != [] {
      var front := items[..|items| - 1];
      TidyFront(items, untaken);
      IdsMatch(front, untaken);
      forall pid
        ensures var last := items[|items| - 1];
          Holds(items, pid) <==> Holds(front, pid) || (last.Forward? && last.pid == pid)
      {
        HoldsSnoc(items, pid);
      }
    }
  }

  /** Where each of some distinct ids is. */
  function IndexOf(ids: seq<nat>): (at: map<nat, nat>) {
    if ids == [] then map[] else IndexOf(ids[..|ids| - 1])[ids[|ids| - 1] := |ids| - 1]
  }

  lemma {:induction false} IndexIs(ids: seq<nat>)
    requires Distinct(ids)
    ensures |IndexOf(ids)| == |ids|
    ensures forall pid :: pid in IndexOf(ids) ==> IndexOf(ids)[pid] < |ids| && ids[IndexOf(ids)[pid]] == pid
  {
    if ids != [] {
      var n := |ids| - 1;
      IndexIs(ids[..n]);
      assert ids[n] !in IndexOf(ids[..n]);
    }
  }

  /** Pigeonhole: no more ids than places. */
  lemma {:induction false} PlacesSuffice(at: map<nat, nat>, n: nat)
    requires Injective(at) && forall pid :: pid in at ==> at[pid] < n
    ensures |at| <= n
  {
    if n == 0 {
      assert at == map[];
    } else if pid :| pid in at && at[pid] == n - 1 {
      var less := at - {pid};
      PlacesSuffice(less, n - 1);
      assert at == less[pid := n - 1];
    } else {
      PlacesSuffice(at, n - 1);
    }
  }

  lemma {:induction false} SameSize<T>(a: set<T>, b: set<T>)
    requires a <= b && |b| <= |a|
    ensures a == b
    decreases a
  {
    if a == {} {
      assert b == {};
    } else {
      var x :| x in a;
      SameSize(a - {x}, b - {x});
    }
  }

  /** A tidy queue covers the untaken messages exactly if it has as many as there are. */
  lemma TidyHoldsEach(items: seq<Item>, untaken: map<nat, Message>, ms: seq<Message>)
    requires Tidy(items, untaken) && ms <= ReliableMessages(items)
    ensures HoldsEach(ms, untaken) <==> |untaken| <= |ms|
  {
    assert |untaken.Keys| == |untaken|;
    if |untaken| <= |ms| {
      IdsMatch(items, untaken);
      IdsCover(Ids(items)[..|ms|], untaken, ms);
    }
    if at :| IsPlacing(untaken, ms, at) {
      PlacesSuffice(at, |ms|);
      assert |at.Keys| == |at|;
    }
  }

  lemma IdsCover(ids: seq<nat>, untaken: map<nat, Message>, ms: seq<Message>)
    requires |ids| == |ms| && Distinct(ids) && |untaken| <= |ids|
    requires forall k :: 0 <= k < |ids| ==> ids[k] in untaken && untaken[ids[k]] == ms[k]
    ensures HoldsEach(ms, untaken)
  {
    var at := IndexOf(ids);
    IndexIs(ids);
    assert |at.Keys| == |at| && |untaken.Keys| == |untaken|;
    assert at.Keys <= untaken.Keys;
    SameSize(at.Keys, untaken.Keys);
    assert IsPlacing(untaken, ms, at);
  }

  /**
   From a queue that holds no acknowledged and no repeated message, nothing is lost exactly when
   everything untaken is still in the queue and the session has room for it: a comparison of three
   numbers.
   */
  lemma LosesNothingByNumbers(s: State, token: nat, items: seq<Item>, untaken: map<nat, Message>)
    requires var s1 := AfterWill(s, token);
      Persistent(s1, token) && s1.clients[token].out.queue == Written(items)
      && |SessionOf(s1, token).offline| <= OFFLINE_CAP && AreUntaken(s1.clients[token], untaken)
    requires AllShort(items) && Tidy(items, untaken)
    ensures Remove(s, token).Some?
    ensures var was := SessionOf(AfterWill(s, token), token).offline;
      && was <= KeptFor(s, token).offline
      && (HoldsEach(Added(s, token), untaken)
          <==> |untaken| <= |ReliableMessages(items)| && |was| + |untaken| <= OFFLINE_CAP)
  {
    LosesNothingExactly(s, token, items, untaken);
    var was := SessionOf(AfterWill(s, token), token).offline;
    TidyHoldsEach(items, untaken, Fitting(ReliableMessages(items), was));
  }

  // ---- What a client leaves when everything is written

  /** When the write loop is done, no reliable packet waits. */
  lemma DoneLeavesNoneReliable(o: Outbox.Outbox, writes: seq<Outbox.WriteResult>)
    requires o.off <= |o.pending| && Outbox.Flush(o, writes).end == Outbox.Done
    ensures ReliableIn(Outbox.Flush(o, writes).o.queue) == 0
  {
    Outbox.FlushEmpties(o, writes);
  }

  lemma {:induction false} ReadBackSize(queue: seq<Outbox.Queued>)
    requires ReadBack(queue).Some?
    ensures |ReadBack(queue).value| == ReliableIn(queue)
  {
    if queue != [] {
      ReadBackSize(queue[..|queue| - 1]);
    }
  }

  /** How many copies of its own will, above QoS 0, a client gets itself when it leaves. */
  ghost function WillCopies(s: State, token: nat): (n: nat) {
    if WillDue(s, token) then
      var w := s.clients[token].will.value;
      CopiesAbove(FlatScan.Tried(s.subs, w.topic), Message(w.topic, w.message, w.qos), token)
    else 0
  }

  /** The client after its will: gone, or with the will's copies in its queue. */
  lemma AfterWillCounts(s: State, token: nat)
    requires token in s.clients && Connection.Valid(s.clients[token])
    ensures var s1, c, n := AfterWill(s, token), s.clients[token], WillCopies(s, token);
      && (token !in s1.clients <==> Overfills(c, n))
      && (token in s1.clients ==>
            && Kept(c, s1.clients[token])
            && ReliableIn(s1.clients[token].out.queue) == ReliableIn(c.out.queue) + n)
  {
    WillDueMeaning(s, token);
    if WillDue(s, token) {
      var w := s.clients[token].will.value;
      var m := Message(w.topic, w.message, w.qos);
      PublishDropsExactly(s, m, w.retain, token);
      PublishServes(s, m, w.retain);
      FanIsTried(s.clients, s.subs, m);
      if token in Publish(s, m, w.retain).clients {
        FanOutAdds(s.clients, FlatScan.Tried(s.subs, m.topic), m, token);
      }
    }
  }

  /**
   A persistent client that leaves when everything reliable was written loses all of it, whatever
   it has not acknowledged: its session gains just the copies of its own will that it would get
   itself above QoS 0, as far as there is room. It gains nothing at all if it said DISCONNECT, has
   no will, or does not subscribe to it above QoS 0; and if those copies do not fit its window, the
   session is not even saved.
   */
  lemma WrittenIsLost(s: State, token: nat)
    requires Persistent(s, token) && Connection.Valid(s.clients[token]) && Remove(s, token).Some?
    requires ReliableIn(s.clients[token].out.queue) == 0
    ensures var s1, n := AfterWill(s, token), WillCopies(s, token);
      if Overfills(s.clients[token], n) then
        token !in s1.clients && Remove(s, token).value.sessions == s1.sessions
      else
        && Persistent(s1, token)
        && var was, now := SessionOf(s1, token).offline, KeptFor(s, token).offline;
        |was| <= OFFLINE_CAP ==>
          was <= now && |now| == |was| + if n <= OFFLINE_CAP - |was| then n else OFFLINE_CAP - |was|
  {
    AfterWillCounts(s, token);
    var s1 := AfterWill(s, token);
    if token in s1.clients {
      var was, queue := SessionOf(s1, token).offline, s1.clients[token].out.queue;
      ReadBackSize(queue);
      if |was| <= OFFLINE_CAP {
        AppendCappedMeaning(was, ReadBack(queue).value);
      }
    }
  }

  // ---- Sessions that can never be taken up again

  /** How many of the stored messages match a stored subscription and go out above QoS 0 for it. */
  ghost function MatchedAbove(subs: seq<Wish>, queue: seq<Message>): (n: nat) {
    if queue == [] then 0
    else
      var m := queue[|queue| - 1];
      var first := FirstMatch(subs, m.topic);
      MatchedAbove(subs, queue[..|queue| - 1]) + if first.Some? && Wire.MinQoS(m.qos, first.value) > 0 then 1 else 0
  }

  lemma {:induction false} ReliableSplit(subs: seq<Wish>, a: seq<Message>, b: seq<Message>)
    ensures Reliable(subs, a + b) == Reliable(subs, a) + Reliable(subs, b)
  {
    if a == [] {
      PrependNothing(b);
    } else {
      DropOfConcat(a, b, 1);
      ReliableSplit(subs, a[1..], b);
    }
  }

  lemma {:induction false} MatchedIsReliable(subs: seq<Wish>, queue: seq<Message>)
    ensures MatchedAbove(subs, queue) <= Reliable(subs, queue)
  {
    if queue != [] {
      var front, last := queue[..|queue| - 1], [queue[|queue| - 1]];
      MatchedIsReliable(subs, front);
      SplitLast(queue);
      ReliableSplit(subs, front, last);
      assert Reliable(subs, last[1..]) == 0;
    }
  }

  /** A first match stays the first match when subscriptions are added behind it. */
  lemma {:induction false} FirstMatchStays(a: seq<Wish>, b: seq<Wish>, topic: Bytes)
    requires a <= b && FirstMatch(a, topic).Some?
    ensures FirstMatch(b, topic) == FirstMatch(a, topic)
  {
    assert b[0] == a[0] && a[1..] <= b[1..];
    if FirstMatch(a, topic) != Some(a[0].qos) || FirstMatch(a[1..], topic).Some? {
      if FirstMatch(a[1..], topic).Some? {
        FirstMatchStays(a[1..], b[1..], topic);
      }
    }
  }

  lemma {:induction false} MatchedGrows(a: seq<Wish>, b: seq<Wish>, queue: seq<Message>, more: seq<Message>)
    requires a <= b && queue <= more
    ensures MatchedAbove(a, queue) <= MatchedAbove(b, more)
    decreases |more|
  {
    if more != [] {
      var n, m := |more| - 1, more[|more| - 1];
      if |queue| == |more| {
        assert queue == more;
        MatchedGrows(a, b, queue[..n], more[..n]);
        if FirstMatch(a, m.topic).Some? {
          FirstMatchStays(a, b, m.topic);
        }
      } else {
        MatchedGrows(a, b, queue, more[..n]);
      }
    }
  }

  /** What a resumption sends above QoS 0 fits the window, if it succeeds. */
  lemma {:induction false} ResendFits(cs: map<nat, Connection.State>, token: nat, subs: seq<Wish>, queue: seq<Message>)
    requires token in cs && Connection.Valid(cs[token]) && Resend(cs, token, subs, queue).1
    ensures |cs[token].inFlight| + Reliable(subs, queue) <= Connection.IN_FLIGHT_CAP
    decreases |queue|
  {
    if queue != [] {
      var m, c := queue[0], cs[token];
      var qos := ResendQoS(subs, m);
      DeliverCounts(c, m.topic, m.payload, qos, false);
      Connection.DeliverKeepsValid(c, m.topic, m.payload, qos, false);
      ResendFits(Send(cs, token, m.topic, m.payload, qos, false).0, token, subs, queue[1..]);
    }
  }

  /** More messages than a window holds match the session's own subscriptions above QoS 0. */
  ghost predicate Stuck(sessions: map<Bytes, Stored>, cid: Bytes) {
    cid in sessions && MatchedAbove(sessions[cid].subs, sessions[cid].offline) > Connection.IN_FLIGHT_CAP
  }

  /** No connection, fresh or not, can take up such a session; and the attempt leaves it as it is. */
  lemma StuckConnectFails(s: State, token: nat, h: Hello)
    requires Stuck(s.sessions, h.clientId) && !h.cleanSession
    requires token in s.clients && Connection.Valid(s.clients[token])
    ensures !Connect(s, token, h).1 && Connect(s, token, h).0.sessions == s.sessions
  {
    var stored, c := s.sessions[h.clientId], Greeted(s.clients[token], h);
    Connection.OfferKeepsBoundsIfValid(s.clients[token], Wire.BuildConnack());
    MatchedIsReliable(stored.subs, stored.offline);
    if Connect(s, token, h).1 {
      ResendFits(s.clients[token := c], token, stored.subs, stored.offline);
    }
  }

  lemma ExtendsKeepsStuck(a: map<Bytes, Stored>, b: map<Bytes, Stored>, cid: Bytes)
    requires Stuck(a, cid) && Extends(a, b)
    ensures Stuck(b, cid)
  {
    MatchedGrows(a[cid].subs, b[cid].subs, a[cid].offline, b[cid].offline);
  }

  /** A CONNECT that gives the session up: the same client id, with a clean session. */
  predicate GivesUp(e: Event, cid: Bytes) {
    e.Greeting? && e.h.clientId == cid && e.h.cleanSession
  }

  lemma StuckStep(y: Sys, e: Event, cid: Bytes, y': Sys)
    requires Inv(y) && Stuck(y.s.sessions, cid) && !GivesUp(e, cid) && Step(y, e) == Some(y')
    ensures Stuck(y'.s.sessions, cid)
  {
    StoreOverStep(y, e);
    if !e.Greeting? {
      ExtendsKeepsStuck(y.s.sessions, y'.s.sessions, cid);
    } else if e.h.clientId != cid {
      ExtendsKeepsStuck(y.s.sessions - {e.h.clientId}, y'.s.sessions, cid);
    } else {
      assert Connection.Valid(y.s.clients[e.token]);
      StuckConnectFails(y.s, e.token, e.h);
    }
  }

  /**
   Over every run without a clean CONNECT for its client id, a session with more than IN_FLIGHT_CAP
   messages that match its own subscriptions above QoS 0 stays, and every CONNECT that wants to
   take it up fails.
   */
  lemma {:induction false} NeverTakenUp(y: Sys, events: seq<Event>, y': Sys, cid: Bytes)
    requires Inv(y) && Stuck(y.s.sessions, cid) && Run(y, events) == Some(y')
    requires forall i :: 0 <= i < |events| ==> !GivesUp(events[i], cid)
    ensures Stuck(y'.s.sessions, cid)
    ensures forall token, h: Hello :: token in y'.s.clients && h.clientId == cid && !h.cleanSession ==>
      !Connect(y'.s, token, h).1
  {
    RunKeepsInv(y, events);
    if events != [] {
      var front, last := events[..|events| - 1], events[|events| - 1];
      var y1 := Run(y, front).value;
      NeverTakenUp(y, front, y1, cid);
      RunKeepsInv(y, front);
      StuckStep(y1, last, cid, y');
    }
    forall token, h: Hello | token in y'.s.clients && h.clientId == cid && !h.cleanSession
      ensures !Connect(y'.s, token, h).1
    {
      assert Connection.Valid(y'.s.clients[token]);
      StuckConnectFails(y'.s, token, h);
    }
  }
}
