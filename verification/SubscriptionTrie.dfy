/**
 The wildcard half of the subscription index: a mutable trie over topic levels.

 The trie's abstract value is `entries`, the log of insertions. `Valid` ties every node's
 two lists to that log, through a ghost map from paths to nodes in which no node occurs
 twice. What `Collect` returns is stated on the log alone.
 */
module SubscriptionTrie {
  import opened Bytes
  import opened Topics

  /** The way from the root to a node. The `plus` link of a node is its child `PLUS`. */
  datatype Path = Root | Child(parent: Path, level: Level)

  predicate Above(p: Path, q: Path) {
    p == q || (q.Child? && Above(p, q.parent))
  }

  /** The levels between a path and one below it. */
  function Between(p: Path, q: Path): (levels: seq<Level>)
    requires Above(p, q)
    ensures p == q <==> levels == []
  {
    if p == q then [] else Between(p, q.parent) + [q.level]
  }

  lemma {:induction false} AboveChild(p: Path, l: Level, q: Path)
    ensures Above(Child(p, l), q) <==> Above(p, q) && p != q && Between(p, q)[0] == l
    ensures Above(Child(p, l), q) ==> Between(p, q) == [l] + Between(Child(p, l), q)
    decreases q
  {
    NotBelowItself(p, l);
    if q == Child(p, l) {
      assert Between(p, q) == Between(p, p) + [l];
    } else if q.Child? {
      AboveChild(p, l, q.parent);
      if Above(p, q.parent) && p != q {
        assert Between(p, q) == Between(p, q.parent) + [q.level];
      }
    }
  }

  function Depth(p: Path): (d: nat) {
    match p
    case Root => 0
    case Child(q, _) => Depth(q) + 1
  }

  lemma {:induction false} AboveIsShallower(p: Path, q: Path)
    requires Above(p, q)
    ensures Depth(p) <= Depth(q)
    decreases q
  {
    if p != q {
      AboveIsShallower(p, q.parent);
    }
  }

  lemma NotBelowItself(p: Path, l: Level)
    ensures !Above(Child(p, l), p)
  {
    if Above(Child(p, l), p) {
      AboveIsShallower(Child(p, l), p);
    }
  }

  function PathOf(levels: seq<Level>): (p: Path) {
    if levels == [] then Root
    else Child(PathOf(levels[..|levels| - 1]), levels[|levels| - 1])
  }

  lemma {:induction false} BetweenPathOf(levels: seq<Level>)
    ensures Above(Root, PathOf(levels)) && Between(Root, PathOf(levels)) == levels
  {
    if levels != [] {
      BetweenPathOf(levels[..|levels| - 1]);
    }
  }

  lemma PathStep(levels: seq<Level>, n: nat)
    requires n < |levels|
    ensures PathOf(levels[..n + 1]) == Child(PathOf(levels[..n]), levels[n])
  {
    assert levels[..n + 1][..n] == levels[..n];
  }

  /**
   One insertion: a subscription index, the node it is stored at, which is named by the
   filter's levels in front of the first `#`, and whether there is a `#`.
   */
  datatype Entry = Entry(idx: nat, key: Path, hash: bool) {
    /** The filter continues path `p`, and what follows covers the levels `rest`. */
    ghost predicate Reaches(p: Path, rest: seq<Level>) {
      Above(p, key) && Covers(Between(p, key), hash, rest)
    }

    /** What one entry contributes to the four places a lookup at path `p` looks into. */
    lemma ReachesOneWay(p: Path, rest: seq<Level>)
      ensures rest == [] ==>
        (Reaches(p, rest) <==> key == p)
      ensures rest != [] ==>
        (Reaches(p, rest) <==>
          || (key == p && hash)
          || Reaches(Child(p, PLUS), rest[1..])
          || Reaches(Child(p, rest[0]), rest[1..]))
      ensures rest != [] && key == p ==>
        !Reaches(Child(p, PLUS), rest[1..]) && !Reaches(Child(p, rest[0]), rest[1..])
      ensures rest != [] && rest[0] != PLUS ==>
        !(Reaches(Child(p, PLUS), rest[1..]) && Reaches(Child(p, rest[0]), rest[1..]))
    {
      AboveChild(p, PLUS, key);
      if rest != [] {
        AboveChild(p, rest[0], key);
        if Above(p, key) && p != key {
          var l := Between(p, key)[0];
          AboveChild(p, l, key);
          CoversStep(l, Between(Child(p, l), key), hash, rest);
        }
      }
    }
  }

  function EntryFor(idx: nat, levels: seq<Level>): (e: Entry) {
    Entry(idx, PathOf(levels[..HashAt(levels)]), HashAt(levels) < |levels|)
  }

  /** Seen from the root, an entry reaches exactly the topics its filter matches. */
  lemma EntryMeaning(idx: nat, filter: seq<Level>, topic: seq<Level>)
    ensures EntryFor(idx, filter).Reaches(Root, topic) <==> LevelsMatch(filter, topic)
  {
    BetweenPathOf(filter[..HashAt(filter)]);
  }

  /** Indices of the entries stored at path `p`, in insertion order. */
  function IndicesAt(entries: seq<Entry>, p: Path, hash: bool): (r: seq<nat>) {
    if entries == [] then []
    else
      var e := entries[|entries| - 1];
      IndicesAt(entries[..|entries| - 1], p, hash)
      + if e.key == p && e.hash == hash then [e.idx] else []
  }

  /** What a lookup for the levels `rest` reports below path `p`, in the order it reports it. */
  function Gathered(entries: seq<Entry>, p: Path, rest: seq<Level>): (r: seq<nat>)
    decreases |rest|
  {
    IndicesAt(entries, p, true)
    + if rest == [] then IndicesAt(entries, p, false)
      else
        Gathered(entries, Child(p, PLUS), rest[1..])
        + if rest[0] == PLUS then [] else Gathered(entries, Child(p, rest[0]), rest[1..])
  }

  /** How many entries for subscription `idx` reach the levels `rest` from path `p`. */
  ghost function Hits(entries: seq<Entry>, p: Path, rest: seq<Level>, idx: nat): (n: nat) {
    if entries == [] then 0
    else
      var e := entries[|entries| - 1];
      Hits(entries[..|entries| - 1], p, rest, idx) + if e.idx == idx && e.Reaches(p, rest) then 1 else 0
  }

  lemma StoredCount(entries: seq<Entry>, p: Path, hash: bool, idx: nat)
    requires entries != []
    ensures var e := entries[|entries| - 1];
      Count(IndicesAt(entries, p, hash), idx) == Count(IndicesAt(entries[..|entries| - 1], p, hash), idx)
        + if e.key == p && e.hash == hash && e.idx == idx then 1 else 0
  {
    var last := entries[|entries| - 1].idx;
    CountConcat(IndicesAt(entries[..|entries| - 1], p, hash), [last], idx);
    assert IndicesAt(entries[..|entries| - 1], p, hash) + [] == IndicesAt(entries[..|entries| - 1], p, hash);
    assert Count([last], idx) == Count<nat>([], idx) + if last == idx then 1 else 0;
  }

  lemma {:induction false} HitsAtEnd(entries: seq<Entry>, p: Path, idx: nat)
    ensures Hits(entries, p, [], idx)
      == Count(IndicesAt(entries, p, true), idx) + Count(IndicesAt(entries, p, false), idx)
  {
    if entries != [] {
      HitsAtEnd(entries[..|entries| - 1], p, idx);
      entries[|entries| - 1].ReachesOneWay(p, []);
      StoredCount(entries, p, true, idx);
      StoredCount(entries, p, false, idx);
    }
  }

  lemma {:induction false} HitsSplit(entries: seq<Entry>, p: Path, rest: seq<Level>, idx: nat)
    requires rest != []
    ensures Hits(entries, p, rest, idx)
      == Count(IndicesAt(entries, p, true), idx)
       + Hits(entries, Child(p, PLUS), rest[1..], idx)
       + if rest[0] == PLUS then 0 else Hits(entries, Child(p, rest[0]), rest[1..], idx)
  {
    if entries != [] {
      HitsSplit(entries[..|entries| - 1], p, rest, idx);
      entries[|entries| - 1].ReachesOneWay(p, rest);
      StoredCount(entries, p, true, idx);
    }
  }

  /**
   A lookup reports every entry whose filter matches exactly once, and no other: the
   candidates the source calls a superset are already the answer.
   */
  lemma {:induction false} GatheredExactly(entries: seq<Entry>, p: Path, rest: seq<Level>, idx: nat)
    ensures Count(Gathered(entries, p, rest), idx) == Hits(entries, p, rest, idx)
    decreases |rest|
  {
    var here := IndicesAt(entries, p, true);
    if rest == [] {
      HitsAtEnd(entries, p, idx);
      CountConcat(here, IndicesAt(entries, p, false), idx);
    } else {
      HitsSplit(entries, p, rest, idx);
      GatheredExactly(entries, Child(p, PLUS), rest[1..], idx);
      var below := Gathered(entries, Child(p, PLUS), rest[1..]);
      var side := if rest[0] == PLUS then [] else Gathered(entries, Child(p, rest[0]), rest[1..]);
      if rest[0] != PLUS {
        GatheredExactly(entries, Child(p, rest[0]), rest[1..], idx);
      }
      CountConcat(below, side, idx);
      CountConcat(here, below + side, idx);
    }
  }

  predicate Unused(entries: seq<Entry>, p: Path) {
    forall i :: 0 <= i < |entries| ==> !Above(p, entries[i].key)
  }

  lemma {:induction false} UnusedStoresNothing(entries: seq<Entry>, p: Path, hash: bool)
    requires Unused(entries, p)
    ensures IndicesAt(entries, p, hash) == []
  {
    if entries != [] {
      UnusedStoresNothing(entries[..|entries| - 1], p, hash);
    }
  }

  /** Where no key passes through, there is nothing to find. */
  lemma {:induction false} UnusedIsEmpty(entries: seq<Entry>, p: Path, rest: seq<Level>)
    requires Unused(entries, p)
    ensures Gathered(entries, p, rest) == []
    decreases |rest|
  {
    UnusedStoresNothing(entries, p, true);
    UnusedStoresNothing(entries, p, false);
    if rest != [] {
      UnusedBelow(entries, p, PLUS);
      UnusedBelow(entries, p, rest[0]);
      UnusedIsEmpty(entries, Child(p, PLUS), rest[1..]);
      UnusedIsEmpty(entries, Child(p, rest[0]), rest[1..]);
    }
  }

  lemma UnusedBelow(entries: seq<Entry>, p: Path, l: Level)
    requires Unused(entries, p)
    ensures Unused(entries, Child(p, l))
  {
    forall i | 0 <= i < |entries|
      ensures !Above(Child(p, l), entries[i].key)
    {
      AboveChild(p, l, entries[i].key);
    }
  }

  class TrieNode {
    var children: map<Level, TrieNode>
    var plus: TrieNode?
    var ends: seq<nat>
    var hashSubs: seq<nat>
    ghost const path: Path
    ghost const up: TrieNode?

    constructor (ghost path: Path, ghost up: TrieNode?)
      ensures children == map[] && plus == null && ends == [] && hashSubs == []
      ensures this.path == path && this.up == up
    {
      children, plus, ends, hashSubs := map[], null, [], [];
      this.path, this.up := path, up;
    }
  }

  class Trie {
    var root: TrieNode
    ghost var Repr: set<TrieNode>
    ghost var entries: seq<Entry>
    ghost var homes: seq<TrieNode>

    /** Every node is reached by the one path it carries, and no two nodes carry the same. */
    ghost predicate Linked()
      reads this, Repr
    {
      && root in Repr && root.path == Root
      && (forall n, m {:trigger n in Repr, m in Repr} :: n in Repr && m in Repr && n.path == m.path ==> n == m)
      && (forall n {:trigger n.plus} :: n in Repr && n.plus != null ==>
            n.plus in Repr && n.plus.path == Child(n.path, PLUS))
      && (forall n, l {:trigger l in n.children} :: n in Repr && l in n.children ==>
            l != PLUS && n.children[l] in Repr && n.children[l].path == Child(n.path, l))
      && (forall n {:trigger n.up} :: n in Repr && n.path.Child? ==>
            && n.up != null && n.up in Repr && n.up.path == n.path.parent
            && if n.path.level == PLUS then n.up.plus == n
               else n.path.level in n.up.children && n.up.children[n.path.level] == n)
    }

    ghost predicate Valid()
      reads this, Repr
    {
      && Linked()
      && |homes| == |entries|
      && (forall i :: 0 <= i < |entries| ==> homes[i] in Repr && homes[i].path == entries[i].key)
      && (forall n {:trigger n.ends} :: n in Repr ==> n.ends == IndicesAt(entries, n.path, false))
      && (forall n {:trigger n.hashSubs} :: n in Repr ==> n.hashSubs == IndicesAt(entries, n.path, true))
    }

    constructor ()
      ensures Valid() && entries == [] && fresh(Repr)
    {
      root := new TrieNode(Root, null);
      new;
      Repr, entries, homes := {root}, [], [];
    }

    method Clear()
      modifies this
      ensures Valid() && entries == [] && fresh(Repr)
    {
      root := new TrieNode(Root, null);
      Repr, entries, homes := {root}, [], [];
    }

    /** The node at a path above a given node. */
    lemma {:induction false} NodeAbove(p: Path, n: TrieNode) returns (m: TrieNode)
      requires Linked() && n in Repr && Above(p, n.path)
      ensures m in Repr && m.path == p
      decreases n.path
    {
      if p == n.path {
        m := n;
      } else {
        m := NodeAbove(p, n.up);
      }
    }

    /** A link that is missing leads to a path no entry uses. */
    lemma MissingMeansUnused(n: TrieNode, l: Level)
      requires Valid() && n in Repr
      requires if l == PLUS then n.plus == null else l !in n.children
      ensures forall m :: m in Repr ==> m.path != Child(n.path, l)
      ensures Unused(entries, Child(n.path, l))
    {
      var p := Child(n.path, l);
      forall m | m in Repr
        ensures m.path != p
      {
        ghost var parent := m.up;
      }
      forall i | 0 <= i < |entries|
        ensures !Above(p, entries[i].key)
      {
        if Above(p, entries[i].key) {
          var m := NodeAbove(p, homes[i]);
        }
      }
    }

    /** `node.plus.get_or_insert_with(Box::default)` on a node that has no `plus` yet. */
    method AddPlus(node: TrieNode) returns (child: TrieNode)
      requires Valid() && node in Repr && node.plus == null
      modifies this`Repr, node`plus
      ensures Valid() && fresh(child) && Repr == old(Repr) + {child}
      ensures child.path == Child(node.path, PLUS)
    {
      MissingMeansUnused(node, PLUS);
      UnusedStoresNothing(entries, Child(node.path, PLUS), true);
      UnusedStoresNothing(entries, Child(node.path, PLUS), false);
      child := new TrieNode(Child(node.path, PLUS), node);
      node.plus := child;
      Repr := Repr + {child};
    }

    /** `node.children.entry(lvl).or_default()` on a node that has no such child yet. */
    method AddChild(node: TrieNode, l: Level) returns (child: TrieNode)
      requires Valid() && node in Repr && l != PLUS && l !in node.children
      modifies this`Repr, node`children
      ensures Valid() && fresh(child) && Repr == old(Repr) + {child}
      ensures child.path == Child(node.path, l)
    {
      MissingMeansUnused(node, l);
      UnusedStoresNothing(entries, Child(node.path, l), true);
      UnusedStoresNothing(entries, Child(node.path, l), false);
      child := new TrieNode(Child(node.path, l), node);
      node.children := node.children[l := child];
      Repr := Repr + {child};
    }

    /** Registers a filter: its index goes to the node its key names, and nowhere else. */
    method Insert(idx: nat, levels: seq<Level>)
      requires Valid()
      modifies this, Repr
      ensures Valid() && entries == old(entries) + [EntryFor(idx, levels)]
      ensures fresh(Repr - old(Repr))
    {
      var node := root;
      var i := 0;
      while i < |levels|
        invariant i <= HashAt(levels)
        invariant Valid() && entries == old(entries)
        invariant node in Repr && node.path == PathOf(levels[..i])
        invariant fresh(Repr - old(Repr))
      {
        var lvl := levels[i];
        if lvl == HASH {
          PushHash(node, EntryFor(idx, levels), idx);
          return;
        }
        PathStep(levels, i);
        if lvl == PLUS {
          if node.plus == null {
            node := AddPlus(node);
          } else {
            node := node.plus;
          }
        } else if lvl !in node.children {
          node := AddChild(node, lvl);
        } else {
          node := node.children[lvl];
        }
        i := i + 1;
      }
      assert levels[..i] == levels;
      PushEnd(node, EntryFor(idx, levels), idx);
    }

    /** `node.hash_subs.push(idx)` */
    method PushHash(node: TrieNode, ghost e: Entry, idx: nat)
      requires Valid() && node in Repr && e == Entry(idx, node.path, true)
      modifies this`entries, this`homes, node`hashSubs
      ensures Valid() && entries == old(entries) + [e]
    {
      node.hashSubs := node.hashSubs + [idx];
      entries, homes := entries + [e], homes + [node];
      assert entries[..|entries| - 1] == old(entries);
    }

    /** `node.ends.push(idx)` */
    method PushEnd(node: TrieNode, ghost e: Entry, idx: nat)
      requires Valid() && node in Repr && e == Entry(idx, node.path, false)
      modifies this`entries, this`homes, node`ends
      ensures Valid() && entries == old(entries) + [e]
    {
      node.ends := node.ends + [idx];
      entries, homes := entries + [e], homes + [node];
      assert entries[..|entries| - 1] == old(entries);
    }

    /**
     Appends to `out` what the topic's levels reach; see `GatheredExactly` for what that is.
     `calls` grows by the number of indices reported.
     */
    method Collect(topic: Bytes, out: seq<nat>, calls: nat) returns (out': seq<nat>, calls': nat)
      requires Valid()
      ensures out' == out + Gathered(entries, Root, Split(topic))
      ensures calls' - calls == |out'| - |out|
    {
      var levels := Split(topic);
      out', calls' := CollectNode(root, levels, 0, out, calls);
      assert levels[0..] == levels;
    }

    /** Nothing is gathered where there is no node. */
    lemma MissingGathersNothing(n: TrieNode, l: Level, rest: seq<Level>)
      requires Valid() && n in Repr
      requires if l == PLUS then n.plus == null else l !in n.children
      ensures Gathered(entries, Child(n.path, l), rest) == []
    {
      MissingMeansUnused(n, l);
      UnusedIsEmpty(entries, Child(n.path, l), rest);
    }

    method CollectNode(node: TrieNode, levels: seq<Level>, t: nat, out: seq<nat>, calls: nat)
      returns (out': seq<nat>, calls': nat)
      requires Valid() && node in Repr && t <= |levels|
      ensures out' == out + Gathered(entries, node.path, levels[t..])
      ensures calls' - calls == |out'| - |out|
      decreases |levels| - t
    {
      out', calls' := out, calls;
      if node.hashSubs != [] {
        out' := out' + node.hashSubs;
        calls' := calls' + |node.hashSubs|;
      }
      AppendNothing(out);
      if t >= |levels| {
        Assoc(out, node.hashSubs, node.ends);
        AppendNothing(out');
        if node.ends != [] {
          out' := out' + node.ends;
          calls' := calls' + |node.ends|;
        }
        return;
      }
      ghost var rest := levels[t + 1..];
      DropDrop(levels, t, 1);
      ghost var below := Gathered(entries, Child(node.path, PLUS), rest);
      AppendNothing(out');
      if node.plus != null {
        out', calls' := CollectNode(node.plus, levels, t + 1, out', calls');
      } else {
        MissingGathersNothing(node, PLUS, rest);
      }
      AppendNothing(out');
      ghost var side := if levels[t] == PLUS then [] else Gathered(entries, Child(node.path, levels[t]), rest);
      if levels[t] in node.children {
        out', calls' := CollectNode(node.children[levels[t]], levels, t + 1, out', calls');
      } else if levels[t] != PLUS {
        MissingGathersNothing(node, levels[t], rest);
      }
      AppendInTurn(out, node.hashSubs, below, side);
    }
  }

  lemma AppendInTurn<T>(out: seq<T>, a: seq<T>, b: seq<T>, c: seq<T>)
    ensures out + a + b + c == out + (a + (b + c))
  {
  }
}
