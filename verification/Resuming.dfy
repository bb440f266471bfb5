/** What leaving takes away, and what a persistent client finds when it comes back. */
module Resuming {
  import opened Bytes
  import opened FanOut
  import opened BrokerModel
  import opened Runs
  import opened Sessions
  import opened Forwarding
  import opened Answering
  import Leaving
  import Connection

  /**
   `remove_client` takes away the connection, and exactly its own subscriptions: all others stay,
   each as often, in their order. It changes no stored session but that of the client, and that
   one only if the client has an id and no clean session. All else it leaves as the will left it.
   */
  lemma LeavingTakesItsOwn(s: State, token: nat)
    requires Remove(s, token).Some?
    ensures var s1, s' := AfterWill(s, token), Remove(s, token).value;
      && s' == s1.(clients := s1.clients - {token}, subs := s'.subs, sessions := s'.sessions)
      && (forall x :: Count(s'.subs, x) == if x.token == token then 0 else Count(s1.subs, x))
      && IsSubsequence(s'.subs, s1.subs)
      && if token in s1.clients && !s1.clients[token].cleanSession && s1.clients[token].clientId != [] then
           var cid := s1.clients[token].clientId;
           cid in s'.sessions && s'.sessions - {cid} == s1.sessions - {cid}
         else s'.sessions == s1.sessions
  {
    OthersMeaning(AfterWill(s, token).subs, token);
  }

  /** The client id of a connection that is about to leave. */
  function IdOf(s: State, token: nat): (cid: Bytes)
    requires token in s.clients
  {
    s.clients[token].clientId
  }

  /** What is stored for a client when it has left: its subscriptions behind those that were there. */
  lemma StoredOnLeaving(s: State, token: nat)
    requires Persistent(AfterWill(s, token), token) && Remove(s, token).Some?
    ensures var s1, now := AfterWill(s, token), Leaving.KeptFor(s, token);
      && var was := SessionOf(s1, token);
      && was.subs <= now.subs && was.offline <= now.offline
      && forall w :: w in now.subs <==> w in was.subs || Subscription(w.filter, token, w.qos) in s1.subs
  {
    var s1 := AfterWill(s, token);
    MergeMeaning(SessionOf(s1, token).subs, Mine(s1.subs, token));
    MineHas(s1.subs, token);
    AppendCappedGrows(SessionOf(s1, token).offline, ReadBack(s1.clients[token].out.queue).value);
  }

  /**
   A persistent client that leaves, and connects again without a clean session, has the very
   subscriptions it had, each at its QoS, and those stored for its id by then; whether or not the
   stored messages fit.
   */
  lemma ReturnRestoresExactly(s: State, token: nat, t: nat, h: Hello)
    requires Persistent(AfterWill(s, token), token) && Remove(s, token).Some?
    requires var s' := Remove(s, token).value;
      && t in s'.clients && Connection.Valid(s'.clients[t])
      && (forall i :: 0 <= i < |s'.subs| ==> s'.subs[i].token != t)
    requires h.clientId == IdOf(AfterWill(s, token), token) && !h.cleanSession
    ensures var s1, r := AfterWill(s, token), ConnectArm(Remove(s, token).value, t, h);
      && !r.Panic?
      && forall w: Wish ::
           Subscription(w.filter, t, w.qos) in r.s.subs
           <==> Subscription(w.filter, token, w.qos) in s1.subs || w in SessionOf(s1, token).subs
  {
    StoredOnLeaving(s, token);
    ConnectHas(Remove(s, token).value, t, h);
  }

  lemma ConnectHas(s: State, t: nat, h: Hello)
    requires t in s.clients && Connection.Valid(s.clients[t]) && !h.cleanSession && h.clientId in s.sessions
    requires forall i :: 0 <= i < |s.subs| ==> s.subs[i].token != t
    ensures !ConnectArm(s, t, h).Panic?
    ensures forall w: Wish ::
      Subscription(w.filter, t, w.qos) in ConnectArm(s, t, h).s.subs <==> w in s.sessions[h.clientId].subs
  {
    var _ := ConnectTakesUp(s, t, h);
    RestoredHas(s.subs, ConnectArm(s, t, h).s.subs, s.sessions[h.clientId].subs, t);
  }

  /** A token that had no subscription has just those that were put behind the others for it. */
  lemma RestoredHas(before: seq<Subscription>, after: seq<Subscription>, wishes: seq<Wish>, t: nat)
    requires IsRestored(before, after, wishes, t)
    requires forall i :: 0 <= i < |before| ==> before[i].token != t
    ensures forall w: Wish :: Subscription(w.filter, t, w.qos) in after <==> w in wishes
  {
    forall w: Wish
      ensures Subscription(w.filter, t, w.qos) in after <==> w in wishes
    {
      if Subscription(w.filter, t, w.qos) in after {
        var i :| 0 <= i < |after| && after[i] == Subscription(w.filter, t, w.qos);
        assert before[..] == after[..|before|];
        assert i >= |before|;
        assert wishes[i - |before|] == w;
      }
      if w in wishes {
        RestoredAt(before, after, wishes, t, w);
      }
    }
  }

  lemma RestoredAt(before: seq<Subscription>, after: seq<Subscription>, wishes: seq<Wish>, t: nat, w: Wish)
    requires IsRestored(before, after, wishes, t) && w in wishes
    ensures Subscription(w.filter, t, w.qos) in after
  {
    var i :| 0 <= i < |wishes| && wishes[i] == w;
    assert after[|before| + i] == Subscription(w.filter, t, w.qos);
  }

  /** Without a CONNECT for its client id, a stored session keeps what it has, in front. */
  lemma {:induction false} SessionStays(y: Sys, events: seq<Event>, y': Sys, cid: Bytes)
    requires cid in y.s.sessions && Run(y, events) == Some(y')
    requires forall i :: 0 <= i < |events| ==> !(events[i].Greeting? && events[i].h.clientId == cid)
    ensures cid in y'.s.sessions
    ensures y.s.sessions[cid].subs <= y'.s.sessions[cid].subs
    ensures y.s.sessions[cid].offline <= y'.s.sessions[cid].offline
  {
    if events != [] {
      var front, last := events[..|events| - 1], events[|events| - 1];
      var y1 := Run(y, front).value;
      SessionStays(y, front, y1, cid);
      StoreOverStep(y1, last);
      if last.Greeting? {
        assert cid in y1.s.sessions - {last.h.clientId};
      }
    }
  }

  /** A session that is stored for the client when it connects, and has at least this in front. */
  ghost predicate StoredBehind(s: State, cid: Bytes, left: Stored) {
    cid in s.sessions && left.subs <= s.sessions[cid].subs && left.offline <= s.sessions[cid].offline
  }

  /**
   What CONNECT gives back of it: each subscription at its QoS, and, if there is room for them, all
   the messages, in their order and in front of any others.
   */
  ghost predicate GivesBack(s: State, t: nat, h: Hello, left: Stored)
    requires t in s.clients && h.clientId in s.sessions
  {
    var r, ms := ConnectArm(s, t, h), StoredFor(s, h);
    && !r.Panic?
    && (forall w :: w in left.subs ==> Subscription(w.filter, t, w.qos) in r.s.subs)
    && |left.offline| <= |ms|
    && (forall i :: 0 <= i < |left.offline| ==>
          ms[i].topic == left.offline[i].topic && ms[i].payload == left.offline[i].payload)
    && (r.Fine? ==> t in r.s.clients && Took(Greeted(s.clients[t], h), r.s.clients[t], ms, false))
  }

  lemma ConnectGivesBack(s: State, t: nat, h: Hello, left: Stored)
    requires t in s.clients && Connection.Valid(s.clients[t]) && !h.cleanSession && StoredBehind(s, h.clientId, left)
    ensures GivesBack(s, t, h, left)
  {
    var _ := ConnectTakesUp(s, t, h);
    var stored, r := s.sessions[h.clientId], ConnectArm(s, t, h);
    ResentAt(stored.subs, stored.offline);
    forall w | w in left.subs
      ensures Subscription(w.filter, t, w.qos) in r.s.subs
    {
      assert w in stored.subs;
      RestoredAt(s.subs, r.s.subs, stored.subs, t, w);
    }
  }

  /**
   So it is after any run in between, as long as nobody connects with its client id: what the
   client left to its session comes back, and that includes all its subscriptions.
   */
  lemma ReturnAfterARun(y: Sys, token: nat, y1: Sys, events: seq<Event>, y2: Sys, t: nat, h: Hello)
    requires Step(y, Dropping(token)) == Some(y1) && Persistent(AfterWill(y.s, token), token)
    requires Run(y1, events) == Some(y2) && t in y2.s.clients && Connection.Valid(y2.s.clients[t])
    requires forall i :: 0 <= i < |events| ==> !(events[i].Greeting? && events[i].h.clientId == h.clientId)
    requires h.clientId == IdOf(AfterWill(y.s, token), token) && !h.cleanSession
    ensures Remove(y.s, token).Some? && h.clientId in y2.s.sessions
    ensures var s1, left := AfterWill(y.s, token), Leaving.KeptFor(y.s, token);
      && (forall w: Wish :: Subscription(w.filter, token, w.qos) in s1.subs ==> w in left.subs)
      && GivesBack(y2.s, t, h, left)
  {
    StoredOnLeaving(y.s, token);
    SessionStays(y1, events, y2, h.clientId);
    ConnectGivesBack(y2.s, t, h, Leaving.KeptFor(y.s, token));
  }

  lemma {:induction false} ResentAt(subs: seq<Wish>, queue: seq<Message>)
    ensures forall i :: 0 <= i < |queue| ==>
      Resent(subs, queue)[i].topic == queue[i].topic && Resent(subs, queue)[i].payload == queue[i].payload
  {
    if queue != [] {
      ResentAt(subs, queue[1..]);
      forall i | 0 < i < |queue|
        ensures Resent(subs, queue)[i] == Resent(subs, queue[1..])[i - 1] && queue[i] == queue[1..][i - 1]
      {
      }
    }
  }
}
