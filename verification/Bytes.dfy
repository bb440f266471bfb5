/** Bytes, 16-bit fields and sequences of byte strings, shared by every other module. */
module Bytes {
  type byte = x: int | 0 <= x < 256
  type Bytes = seq<byte>

  const U16_MAX := 65535

  datatype Option<+T> = None | Some(value: T)

  /** `v as u16` in network byte order; the cast keeps the low 16 bits. */
  function Be16(v: nat): (r: Bytes) {
    [v / 256 % 256, v % 256]
  }

  function FromBe16(hi: byte, lo: byte): (r: nat) {
    256 * hi + lo
  }

  lemma Be16RoundTrip(v: nat)
    requires v <= U16_MAX
    ensures |Be16(v)| == 2 && FromBe16(Be16(v)[0], Be16(v)[1]) == v
  {
    assert v / 256 % 256 == v / 256;
  }

  lemma Be16Unique(hi: byte, lo: byte)
    ensures Be16(FromBe16(hi, lo)) == [hi, lo]
  {
  }

  /** `v as u16` in little-endian byte order. */
  function Le16(v: nat): (r: Bytes) {
    [v % 256, v / 256 % 256]
  }

  /** All parts, end to end. */
  function Flatten<T>(parts: seq<seq<T>>): (r: seq<T>) {
    if parts == [] then [] else parts[0] + Flatten(parts[1..])
  }

  lemma {:induction false} FlattenConcat<T>(a: seq<seq<T>>, b: seq<seq<T>>)
    ensures Flatten(a + b) == Flatten(a) + Flatten(b)
  {
    if a == [] {
      assert a + b == b;
    } else {
      FlattenConcat(a[1..], b);
      DropOfConcat(a, b, 1);
      Assoc(a[0], Flatten(a[1..]), Flatten(b));
    }
  }

  lemma Assoc<T>(a: seq<T>, b: seq<T>, c: seq<T>)
    ensures a + b + c == a + (b + c)
  {
  }

  lemma SliceOfDrop<T>(s: seq<T>, at: nat, i: nat, j: nat)
    requires i <= j && at + j <= |s|
    ensures s[at..][i..j] == s[at + i..at + j]
  {
  }

  lemma SplitLast<T>(s: seq<T>)
    requires s != []
    ensures s == s[..|s| - 1] + [s[|s| - 1]]
  {
  }

  lemma AppendNothing<T>(s: seq<T>)
    ensures s + [] == s
  {
  }

  lemma PrependNothing<T>(s: seq<T>)
    ensures [] + s == s
  {
  }

  lemma SplitAt<T>(s: seq<T>, k: nat)
    requires k <= |s|
    ensures s == s[..k] + s[k..]
  {
  }

  /** The two bytes at a place are the 16-bit field they are read as. */
  lemma Be16At(s: Bytes, i: nat)
    requires i + 2 <= |s|
    ensures s[i..][..2] == Be16(FromBe16(s[i], s[i + 1]))
  {
    Be16Unique(s[i], s[i + 1]);
  }

  lemma DropDrop<T>(s: seq<T>, a: nat, b: nat)
    requires a + b <= |s|
    ensures s[a..][b..] == s[a + b..]
  {
  }

  lemma TakeCons<T>(s: seq<T>, k: nat)
    requires 0 < k <= |s|
    ensures s[..k] == [s[0]] + s[1..][..k - 1]
  {
    assert forall i :: 0 < i < k ==> s[1..][..k - 1][i - 1] == s[i];
  }

  lemma DropOfConcat<T>(a: seq<T>, b: seq<T>, n: nat)
    requires n <= |a|
    ensures (a + b)[n..] == a[n..] + b
  {
  }

  /** How often `x` occurs in `s`. */
  function Count<T(==)>(s: seq<T>, x: T): (n: nat) {
    if s == [] then 0 else Count(s[..|s| - 1], x) + if s[|s| - 1] == x then 1 else 0
  }

  lemma {:induction false} CountConcat<T>(a: seq<T>, b: seq<T>, x: T)
    ensures Count(a + b, x) == Count(a, x) + Count(b, x)
  {
    if b == [] {
      assert a + b == a;
    } else {
      CountConcat(a, b[..|b| - 1], x);
      assert (a + b)[..|a + b| - 1] == a + b[..|b| - 1];
    }
  }

  lemma CountSnoc<T>(s: seq<T>, v: T, x: T)
    ensures Count(s + [v], x) == Count(s, x) + if v == x then 1 else 0
  {
    assert (s + [v])[..|s|] == s;
  }

  /** One sequence can be got from another by leaving elements out. */
  predicate IsSubsequence<T(==)>(a: seq<T>, b: seq<T>) {
    if a == [] then true
    else if b == [] then false
    else if a[|a| - 1] == b[|b| - 1] && IsSubsequence(a[..|a| - 1], b[..|b| - 1]) then true
    else IsSubsequence(a, b[..|b| - 1])
  }

  /** One more element in both, or only in the second. */
  lemma SubsequenceSnoc<T>(a: seq<T>, b: seq<T>, x: T)
    requires IsSubsequence(a, b)
    ensures IsSubsequence(a, b + [x]) && IsSubsequence(a + [x], b + [x])
  {
    assert (a + [x])[..|a|] == a && (b + [x])[..|b|] == b;
  }
}
