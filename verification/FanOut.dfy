/**
 Which subscriptions a topic reaches, how the two-tier index finds them, and how the fan-out
 loop removes failed ones while it walks.
 */
module FanOut {
  import opened Bytes
  import opened Topics
  import opened SubscriptionTrie
  import Wire

  datatype Subscription = Subscription(filter: Bytes, token: nat, qos: Wire.QoS)

  // ---- What the index holds for a list of subscriptions

  /** The trie's insertions: the wildcard filters, in order of their indices. */
  function WildEntries(subs: seq<Subscription>): (r: seq<Entry>) {
    if subs == [] then []
    else
      var n := |subs| - 1;
      WildEntries(subs[..n]) + if IsWild(subs[n].filter) then [EntryFor(n, Split(subs[n].filter))] else []
  }

  /** The table entry for an exact filter. */
  function ExactAt(subs: seq<Subscription>, filter: Bytes): (r: seq<nat>) {
    if subs == [] then []
    else
      var n := |subs| - 1;
      ExactAt(subs[..n], filter) + if !IsWild(subs[n].filter) && subs[n].filter == filter then [n] else []
  }

  /** The indices a publish starts from. */
  function Candidates(subs: seq<Subscription>, topic: Bytes): (r: seq<nat>) {
    ExactAt(subs, topic) + Gathered(WildEntries(subs), Root, Split(topic))
  }

  ghost predicate Hit(subs: seq<Subscription>, topic: Bytes, i: nat) {
    i < |subs| && Matches(subs[i].filter, topic)
  }

  lemma {:induction false} ExactOnce(subs: seq<Subscription>, topic: Bytes, i: nat)
    ensures Count(ExactAt(subs, topic), i) == if Hit(subs, topic, i) && !IsWild(subs[i].filter) then 1 else 0
  {
    if subs != [] {
      var n := |subs| - 1;
      var last := subs[n].filter;
      ExactOnce(subs[..n], topic, i);
      HitFront(subs, topic, i);
      if !IsWild(last) && last == topic {
        CountSnoc(ExactAt(subs[..n], topic), n, i);
      } else {
        AppendNothing(ExactAt(subs[..n], topic));
      }
      if !IsWild(last) {
        ExactMatchesOnlyItself(last, topic);
      }
    }
  }

  /** Whether an index is a hit does not depend on the later subscriptions. */
  lemma HitFront(subs: seq<Subscription>, topic: Bytes, i: nat)
    requires subs != []
    ensures var n := |subs| - 1;
      && (Hit(subs[..n], topic, i) <==> Hit(subs, topic, i) && i != n)
      && (i < n ==> subs[..n][i] == subs[i])
      && (Hit(subs, topic, n) <==> Matches(subs[n].filter, topic))
  {
  }

  lemma {:induction false} WildOnce(subs: seq<Subscription>, topic: Bytes, i: nat)
    ensures Hits(WildEntries(subs), Root, Split(topic), i)
      == if Hit(subs, topic, i) && IsWild(subs[i].filter) then 1 else 0
  {
    if subs != [] {
      var n := |subs| - 1;
      var filter, before := subs[n].filter, WildEntries(subs[..n]);
      WildOnce(subs[..n], topic, i);
      HitFront(subs, topic, i);
      if IsWild(filter) {
        var e := EntryFor(n, Split(filter));
        EntryMeaning(n, Split(filter), Split(topic));
        HitsSnoc(before, e, Split(topic), i);
      } else {
        AppendNothing(before);
      }
    }
  }

  lemma HitsSnoc(entries: seq<Entry>, e: Entry, topic: seq<Level>, i: nat)
    ensures Hits(entries + [e], Root, topic, i)
      == Hits(entries, Root, topic, i) + if e.idx == i && e.Reaches(Root, topic) then 1 else 0
  {
    assert (entries + [e])[..|entries|] == entries;
  }

  /**
   The index agrees with a scan of all subscriptions: for every topic, each subscription whose
   filter matches is a candidate exactly once, and nothing else is a candidate.
   */
  lemma IndexIsExact(subs: seq<Subscription>, topic: Bytes, i: nat)
    ensures Count(Candidates(subs, topic), i) == if Hit(subs, topic, i) then 1 else 0
  {
    var exact, wild := ExactAt(subs, topic), Gathered(WildEntries(subs), Root, Split(topic));
    CountConcat(exact, wild, i);
    ExactOnce(subs, topic, i);
    GatheredExactly(WildEntries(subs), Root, Split(topic), i);
    WildOnce(subs, topic, i);
  }

  // ---- The order of the fan-out

  /** The matching indices from the highest down. */
  ghost function Order(subs: seq<Subscription>, topic: Bytes): (r: seq<nat>) {
    if subs == [] then []
    else
      var n := |subs| - 1;
      (if Matches(subs[n].filter, topic) then [n] else []) + Order(subs[..n], topic)
  }

  ghost predicate Descending(s: seq<nat>) {
    forall i, j :: 0 <= i < j < |s| ==> s[i] > s[j]
  }

  ghost predicate AllHits(subs: seq<Subscription>, topic: Bytes, idxs: seq<nat>) {
    && (forall k :: 0 <= k < |idxs| ==> Hit(subs, topic, idxs[k]))
    && (forall i: nat :: Hit(subs, topic, i) ==> i in idxs)
  }

  lemma {:induction false} OrderIsFanout(subs: seq<Subscription>, topic: Bytes)
    ensures var idxs := Order(subs, topic);
      Descending(idxs) && AllHits(subs, topic, idxs)
  {
    if subs != [] {
      var n := |subs| - 1;
      OrderIsFanout(subs[..n], topic);
      var rest, all := Order(subs[..n], topic), Order(subs, topic);
      forall i: nat | Hit(subs, topic, i)
        ensures i in all
      {
        assert i < n ==> Hit(subs[..n], topic, i);
      }
      forall k | 0 <= k < |all|
        ensures Hit(subs, topic, all[k]) && (all[k] == n ==> k == 0)
      {
        assert all[k] != n ==> all[k] in rest;
        assert all[k] in rest ==> Hit(subs[..n], topic, all[k]);
      }
    }
  }

  /** Without the last subscription, the list loses its first index, if that was the last one. */
  lemma HitsBelow(subs: seq<Subscription>, topic: Bytes, idxs: seq<nat>)
    requires subs != [] && Descending(idxs) && AllHits(subs, topic, idxs)
    ensures var n := |subs| - 1;
      if Matches(subs[n].filter, topic) then idxs != [] && idxs[0] == n && AllHits(subs[..n], topic, idxs[1..])
      else AllHits(subs[..n], topic, idxs)
  {
    var n := |subs| - 1;
    var last := Matches(subs[n].filter, topic);
    if last {
      assert Hit(subs, topic, n);
      assert Hit(subs, topic, idxs[0]);
    }
    var rest := if last then idxs[1..] else idxs;
    forall k | 0 <= k < |rest|
      ensures Hit(subs[..n], topic, rest[k])
    {
      assert Hit(subs, topic, rest[k]);
    }
    forall i: nat | Hit(subs[..n], topic, i)
      ensures i in rest
    {
      assert Hit(subs, topic, i);
      var k :| 0 <= k < |idxs| && idxs[k] == i;
      assert last ==> idxs[1..][k - 1] == i;
    }
  }

  /** There is only one descending list of the matching indices. */
  lemma {:induction false} OrderIsUnique(subs: seq<Subscription>, topic: Bytes, idxs: seq<nat>)
    requires Descending(idxs) && AllHits(subs, topic, idxs)
    ensures idxs == Order(subs, topic)
  {
    if subs == [] {
      assert |idxs| > 0 ==> Hit(subs, topic, idxs[0]);
    } else {
      var n := |subs| - 1;
      HitsBelow(subs, topic, idxs);
      if Matches(subs[n].filter, topic) {
        OrderIsUnique(subs[..n], topic, idxs[1..]);
        OrderOfLast(subs, topic, idxs);
      } else {
        OrderIsUnique(subs[..n], topic, idxs);
        assert [] + idxs == idxs;
      }
    }
  }

  lemma OrderOfLast(subs: seq<Subscription>, topic: Bytes, idxs: seq<nat>)
    requires subs != [] && Matches(subs[|subs| - 1].filter, topic)
    requires idxs != [] && idxs[0] == |subs| - 1 && idxs[1..] == Order(subs[..|subs| - 1], topic)
    ensures idxs == Order(subs, topic)
  {
    assert idxs == [idxs[0]] + idxs[1..];
  }

  // ---- Removing while walking

  /** `Vec::swap_remove`: the last element takes the removed one's place. */
  function SwapRemove<T>(s: seq<T>, i: nat): (r: seq<T>)
    requires i < |s|
    ensures |r| == |s| - 1
  {
    s[i := s[|s| - 1]][..|s| - 1]
  }

  lemma {:induction false} SwapRemoveCount<T>(s: seq<T>, i: nat, x: T)
    requires i < |s|
    ensures Count(SwapRemove(s, i), x) + (if s[i] == x then 1 else 0) == Count(s, x)
  {
    var n := |s| - 1;
    if i < n {
      CountUpdate(s[..n], i, s[n], x);
      assert SwapRemove(s, i) == s[..n][i := s[n]];
    }
  }

  lemma {:induction false} CountUpdate<T>(s: seq<T>, i: nat, v: T, x: T)
    requires i < |s|
    ensures Count(s[i := v], x) + (if s[i] == x then 1 else 0) == Count(s, x) + if v == x then 1 else 0
  {
    var n := |s| - 1;
    if i < n {
      CountUpdate(s[..n], i, v, x);
      assert s[i := v][..n] == s[..n][i := v];
    } else {
      assert s[i := v][..n] == s[..n];
    }
  }

  ghost predicate Within(idxs: seq<nat>, n: nat) {
    forall k :: 0 <= k < |idxs| ==> idxs[k] < n
  }

  /** The subscriptions at some indices. */
  ghost function Pick(subs: seq<Subscription>, idxs: seq<nat>): (r: seq<Subscription>)
    requires Within(idxs, |subs|)
    ensures |r| == |idxs|
    decreases |idxs|
  {
    if idxs == [] then [] else [subs[idxs[0]]] + Pick(subs, idxs[1..])
  }

  /** What is left after the failed ones of a descending list of indices are swap-removed in turn. */
  ghost function Sweep(subs: seq<Subscription>, idxs: seq<nat>, oks: seq<bool>): (r: seq<Subscription>)
    requires |idxs| == |oks| && Descending(idxs) && Within(idxs, |subs|)
    decreases |idxs|
  {
    if idxs == [] then subs
    else Sweep(if oks[0] then subs else SwapRemove(subs, idxs[0]), idxs[1..], oks[1..])
  }

  /** Those of the picked that failed. */
  function Failed(picked: seq<Subscription>, oks: seq<bool>): (r: seq<Subscription>)
    requires |picked| == |oks|
  {
    if picked == [] then [] else (if oks[0] then [] else [picked[0]]) + Failed(picked[1..], oks[1..])
  }

  /**
   A removal at an index leaves the lower ones in bounds and naming what they named: the
   element that is moved comes from the end.
   */
  lemma {:induction false} PickAfterRemove(subs: seq<Subscription>, i: nat, idxs: seq<nat>)
    requires i < |subs| && Within(idxs, i)
    ensures Within(idxs, |subs| - 1) && Pick(SwapRemove(subs, i), idxs) == Pick(subs, idxs)
    decreases |idxs|
  {
    if idxs != [] {
      PickAfterRemove(subs, i, idxs[1..]);
    }
  }

  lemma DescendingTail(idxs: seq<nat>)
    requires idxs != [] && Descending(idxs)
    ensures Descending(idxs[1..]) && Within(idxs[1..], idxs[0])
  {
  }

  /** Exactly the failed subscriptions are removed; the others stay, in some order. */
  lemma {:induction false} SweepRemovesFailed(subs: seq<Subscription>, idxs: seq<nat>, oks: seq<bool>, x: Subscription)
    requires |idxs| == |oks| && Descending(idxs) && Within(idxs, |subs|)
    ensures Count(Sweep(subs, idxs, oks), x) + Count(Failed(Pick(subs, idxs), oks), x) == Count(subs, x)
    decreases |idxs|
  {
    if idxs != [] {
      DescendingTail(idxs);
      var i, picked := idxs[0], Pick(subs, idxs);
      var later := Failed(picked[1..], oks[1..]);
      if oks[0] {
        SweepRemovesFailed(subs, idxs[1..], oks[1..], x);
        assert [] + later == later;
      } else {
        SwapRemoveCount(subs, i, x);
        PickAfterRemove(subs, i, idxs[1..]);
        SweepRemovesFailed(SwapRemove(subs, i), idxs[1..], oks[1..], x);
        CountConcat([subs[i]], later, x);
        CountSnoc([], subs[i], x);
        assert [] + [subs[i]] == [subs[i]];
      }
    }
  }

  // ---- Sorting the candidates

  function InsertDown(x: nat, s: seq<nat>): (r: seq<nat>) {
    if s == [] then [x]
    else if s[|s| - 1] >= x then s + [x]
    else InsertDown(x, s[..|s| - 1]) + [s[|s| - 1]]
  }

  /** `sort_unstable_by(|a, b| b.cmp(a))` */
  function SortDown(s: seq<nat>): (r: seq<nat>) {
    if s == [] then [] else InsertDown(s[|s| - 1], SortDown(s[..|s| - 1]))
  }

  ghost predicate Sorted(s: seq<nat>) {
    forall i, j :: 0 <= i < j < |s| ==> s[i] >= s[j]
  }

  lemma {:induction false} InsertDownAbove(x: nat, s: seq<nat>, z: nat)
    requires x >= z && forall k :: 0 <= k < |s| ==> s[k] >= z
    ensures forall k :: 0 <= k < |InsertDown(x, s)| ==> InsertDown(x, s)[k] >= z
  {
    if s != [] && s[|s| - 1] < x {
      InsertDownAbove(x, s[..|s| - 1], z);
    }
  }

  lemma {:induction false} InsertDownSorts(x: nat, s: seq<nat>)
    requires Sorted(s)
    ensures Sorted(InsertDown(x, s))
  {
    if s != [] && s[|s| - 1] < x {
      InsertDownSorts(x, s[..|s| - 1]);
      InsertDownAbove(x, s[..|s| - 1], s[|s| - 1]);
    }
  }

  lemma {:induction false} InsertDownCounts(x: nat, s: seq<nat>, y: nat)
    ensures Count(InsertDown(x, s), y) == Count(s, y) + if x == y then 1 else 0
  {
    if s == [] {
      CountSnoc([], x, y);
      assert [] + [x] == [x];
    } else if s[|s| - 1] >= x {
      CountSnoc(s, x, y);
    } else {
      InsertDownCounts(x, s[..|s| - 1], y);
      CountSnoc(InsertDown(x, s[..|s| - 1]), s[|s| - 1], y);
    }
  }

  lemma {:induction false} SortDownSorts(s: seq<nat>)
    ensures Sorted(SortDown(s))
    ensures forall y :: Count(SortDown(s), y) == Count(s, y)
  {
    if s != [] {
      SortDownSorts(s[..|s| - 1]);
      InsertDownSorts(s[|s| - 1], SortDown(s[..|s| - 1]));
      forall y
        ensures Count(SortDown(s), y) == Count(s, y)
      {
        InsertDownCounts(s[|s| - 1], SortDown(s[..|s| - 1]), y);
      }
    }
  }

  lemma {:induction false} CountPositive<T>(s: seq<T>, x: T)
    ensures Count(s, x) > 0 <==> x in s
  {
    if s != [] {
      CountPositive(s[..|s| - 1], x);
      assert s == s[..|s| - 1] + [s[|s| - 1]];
    }
  }

  lemma CountTwice<T>(s: seq<T>, i: nat, j: nat)
    requires i < j < |s| && s[i] == s[j]
    ensures Count(s, s[i]) >= 2
  {
    CountPositive(s[..j], s[i]);
    assert s[..j][i] == s[i];
    assert s == s[..j] + s[j..];
    CountConcat(s[..j], s[j..], s[i]);
    CountPositive(s[j..], s[i]);
    assert s[j..][0] == s[j];
  }

  /** Sorting the candidates gives the fan-out order. */
  lemma SortedCandidates(subs: seq<Subscription>, topic: Bytes)
    ensures SortDown(Candidates(subs, topic)) == Order(subs, topic)
  {
    var cands := Candidates(subs, topic);
    var idxs := SortDown(cands);
    SortDownSorts(cands);
    forall i: nat
      ensures i in idxs <==> Hit(subs, topic, i)
      ensures Count(idxs, i) <= 1
    {
      IndexIsExact(subs, topic, i);
      CountPositive(idxs, i);
    }
    forall i, j | 0 <= i < j < |idxs|
      ensures idxs[i] > idxs[j]
    {
      if idxs[i] == idxs[j] {
        CountTwice(idxs, i, j);
      }
    }
    assert forall k :: 0 <= k < |idxs| ==> idxs[k] in idxs;
    OrderIsUnique(subs, topic, idxs);
  }

  /** No candidate is a false positive, so the final check of each removes none. */
  lemma CandidatesMatch(subs: seq<Subscription>, topic: Bytes)
    ensures forall k :: 0 <= k < |Candidates(subs, topic)| ==> Hit(subs, topic, Candidates(subs, topic)[k])
  {
    var cands := Candidates(subs, topic);
    forall k | 0 <= k < |cands|
      ensures Hit(subs, topic, cands[k])
    {
      IndexIsExact(subs, topic, cands[k]);
      CountPositive(cands, cands[k]);
    }
  }
}
