/**
 Topic names and topic filters. A topic is a byte string; its levels are the pieces
 between slashes. `TopicMatches` is the broker's matcher; `Matches` says what it computes
 the way section 4.7.1 of MQTT Version 3.1.1 does, level by level.
 */
module Topics {
  import opened Bytes

  type Level = Bytes

  const SLASH: byte := 47
  const PLUS_BYTE: byte := 43
  const HASH_BYTE: byte := 35

  const PLUS: Level := [PLUS_BYTE]
  const HASH: Level := [HASH_BYTE]

  /** `s.split('/')`: never empty, and one piece more than there are slashes. */
  function Split(s: Bytes): (r: seq<Level>)
    ensures |r| > 0
  {
    if s == [] then [[]]
    else
      var rest := Split(s[1..]);
      if s[0] == SLASH then [[]] + rest else [[s[0]] + rest[0]] + rest[1..]
  }

  function Join(levels: seq<Level>): (r: Bytes)
    requires |levels| > 0
  {
    if |levels| == 1 then levels[0] else levels[0] + [SLASH] + Join(levels[1..])
  }

  lemma {:induction false} JoinSplit(s: Bytes)
    ensures Join(Split(s)) == s
  {
    if s != [] {
      JoinSplit(s[1..]);
      var rest := Split(s[1..]);
      if s[0] == SLASH {
        assert ([[]] + rest)[1..] == rest;
        assert Join([[]] + rest) == [] + [SLASH] + Join(rest);
      } else {
        var r := [[s[0]] + rest[0]] + rest[1..];
        assert r[1..] == rest[1..];
        assert s == [s[0]] + s[1..];
      }
    }
  }

  /** Two topic strings with the same levels are the same string. */
  lemma SplitInjective(a: Bytes, b: Bytes)
    requires Split(a) == Split(b)
    ensures a == b
  {
    JoinSplit(a);
    JoinSplit(b);
  }

  /** A single level of a filter accepts a single level of a topic. */
  predicate LevelAccepts(f: Level, t: Level) {
    f == PLUS || f == t
  }

  /** The position of the first level that is exactly `#`, or the number of levels. */
  function HashAt(f: seq<Level>): (k: nat)
    ensures k <= |f|
    ensures k < |f| ==> f[k] == HASH
    ensures forall i :: 0 <= i < k ==> f[i] != HASH
  {
    if f == [] || f[0] == HASH then 0 else 1 + HashAt(f[1..])
  }

  /**
   The levels `f`, none of them `#`, cover the topic levels `t`: each accepts the topic's
   level at the same place, and the topic has more levels only if a `#` follows `f`. A
   trailing `#` thus also covers its parent level.
   */
  ghost predicate Covers(f: seq<Level>, hash: bool, t: seq<Level>) {
    && (if hash then |f| <= |t| else |f| == |t|)
    && forall i :: 0 <= i < |f| ==> LevelAccepts(f[i], t[i])
  }

  /** The meaning of a filter: what is in front of its first `#`, and whether there is one. */
  ghost predicate LevelsMatch(f: seq<Level>, t: seq<Level>) {
    Covers(f[..HashAt(f)], HashAt(f) < |f|, t)
  }

  lemma LevelsMatchMeaning(f: seq<Level>, t: seq<Level>)
    ensures LevelsMatch(f, t) <==>
      && HashAt(f) <= |t|
      && (HashAt(f) == |f| ==> |t| == |f|)
      && forall i :: 0 <= i < HashAt(f) ==> LevelAccepts(f[i], t[i])
  {
    if LevelsMatch(f, t) {
      forall i | 0 <= i < HashAt(f)
        ensures LevelAccepts(f[i], t[i])
      {
        assert LevelAccepts(f[..HashAt(f)][i], t[i]);
      }
    }
  }

  ghost predicate Matches(filter: Bytes, topic: Bytes) {
    LevelsMatch(Split(filter), Split(topic))
  }

  /** The broker's matcher, as both brokers have it. */
  method TopicMatches(filter: Bytes, topic: Bytes) returns (r: bool)
    ensures r <==> Matches(filter, topic)
  {
    var f, t := Split(filter), Split(topic);
    LevelsMatchMeaning(f, t);
    var i := 0;
    while i < |f|
      invariant i <= |f| && i <= |t|
      invariant i <= HashAt(f)
      invariant forall j :: 0 <= j < i ==> LevelAccepts(f[j], t[j])
    {
      if f[i] == HASH {
        return true;
      }
      if i >= |t| {
        return false;
      }
      if f[i] != PLUS && f[i] != t[i] {
        assert !LevelAccepts(f[i], t[i]);
        return false;
      }
      i := i + 1;
    }
    return i == |t|;
  }

  lemma CoversStep(l: Level, f: seq<Level>, hash: bool, t: seq<Level>)
    requires t != []
    ensures Covers([l] + f, hash, t) <==> LevelAccepts(l, t[0]) && Covers(f, hash, t[1..])
  {
    if Covers([l] + f, hash, t) {
      assert LevelAccepts(([l] + f)[0], t[0]);
      assert forall i :: 1 <= i < |f| + 1 ==> LevelAccepts(([l] + f)[i], t[i]);
    }
  }

  /** `filter.contains('+') || filter.contains('#')` */
  predicate IsWild(filter: Bytes) {
    PLUS_BYTE in filter || HASH_BYTE in filter
  }

  lemma {:induction false} LevelBytes(s: Bytes, i: nat, b: byte)
    requires i < |Split(s)| && b in Split(s)[i]
    ensures b in s
  {
    if s != [] {
      var rest := Split(s[1..]);
      if s[0] == SLASH {
        if i > 0 {
          LevelBytes(s[1..], i - 1, b);
        }
      } else if i > 0 {
        LevelBytes(s[1..], i, b);
      } else if b != s[0] {
        LevelBytes(s[1..], 0, b);
      }
    }
  }

  /** A filter without wildcard characters matches exactly the topic it spells. */
  lemma ExactMatchesOnlyItself(filter: Bytes, topic: Bytes)
    requires !IsWild(filter)
    ensures Matches(filter, topic) <==> filter == topic
  {
    var f, t := Split(filter), Split(topic);
    forall i | 0 <= i < |f|
      ensures f[i] != PLUS && f[i] != HASH
    {
      if f[i] == PLUS {
        assert PLUS_BYTE in f[i];
        LevelBytes(filter, i, PLUS_BYTE);
      }
      if f[i] == HASH {
        assert HASH_BYTE in f[i];
        LevelBytes(filter, i, HASH_BYTE);
      }
    }
    assert HashAt(f) == |f|;
    if Matches(filter, topic) {
      assert forall i :: 0 <= i < |f| ==> LevelAccepts(f[i], t[i]);
      assert f == t;
      SplitInjective(filter, topic);
    }
  }
}
