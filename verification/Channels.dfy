/**
 * Sequences as channels and as runs: taking one message out wherever it stands, adding up the tokens
 * that the messages carry, and the last state of a run.
 */
module Channels {
  import opened Frames

  function Last<T>(s: seq<T>): T
    requires |s| > 0
  {
    s[|s| - 1]
  }

  function Front<T>(s: seq<T>): seq<T>
    requires |s| > 0
  {
    s[..|s| - 1]
  }

  function Without<T>(s: seq<T>, i: nat): seq<T>
    requires i < |s|
  {
    s[..i] + s[i + 1..]
  }

  /** The message that a poll takes out of a channel, if it takes one. */
  function Pick<T>(ch: seq<T>, i: Option<nat>): Option<T>
    requires i.Some? ==> i.value < |ch|
  {
    if i.Some? then Some(ch[i.value]) else None
  }

  function Removed<T>(ch: seq<T>, i: Option<nat>): seq<T>
    requires i.Some? ==> i.value < |ch|
  {
    if i.Some? then Without(ch, i.value) else ch
  }

  function Sum<T, K>(f: T -> multiset<K>, s: seq<T>): multiset<K> {
    if s == [] then multiset{} else Sum(f, s[..|s| - 1]) + f(s[|s| - 1])
  }

  lemma {:induction false} SumAppend<T, K>(f: T -> multiset<K>, s: seq<T>, t: seq<T>)
    ensures Sum(f, s + t) == Sum(f, s) + Sum(f, t)
  {
    if t == [] {
      assert s + t == s;
    } else {
      var t' := t[..|t| - 1];
      assert (s + t)[..|s + t| - 1] == s + t';
      SumAppend(f, s, t');
    }
  }

  /** Replacing one element of a channel by others changes the sum by exactly their difference. */
  lemma {:induction false} SumStep<T, K>(f: T -> multiset<K>, s: seq<T>, i: nat, t: seq<T>)
    requires i < |s|
    ensures Sum(f, Without(s, i) + t) + f(s[i]) == Sum(f, s) + Sum(f, t)
  {
    assert s == (s[..i] + [s[i]]) + s[i + 1..];
    SumAppend(f, s[..i] + [s[i]], s[i + 1..]);
    SumAppend(f, s[..i], [s[i]]);
    SumAppend(f, s[..i], s[i + 1..]);
    SumAppend(f, Without(s, i), t);
    assert [s[i]][..0] == [];
  }

  lemma SumOne<T, K>(f: T -> multiset<K>, x: T)
    ensures Sum(f, [x]) == f(x)
  {
    assert [x][..0] == [];
  }

  lemma SumPush<T, K>(f: T -> multiset<K>, s: seq<T>, x: T)
    ensures Sum(f, s + [x]) == Sum(f, s) + f(x)
  {
    assert (s + [x])[..|s|] == s;
  }

  lemma SumPull<T, K>(f: T -> multiset<K>, s: seq<T>, i: nat)
    requires i < |s|
    ensures Sum(f, Without(s, i)) + f(s[i]) == Sum(f, s)
  {
    SumStep(f, s, i, []);
    assert Without(s, i) + [] == Without(s, i);
    var none: seq<T> := [];
    assert Sum(f, s) + Sum(f, none) == Sum(f, s);
  }

  lemma WithoutMembers<T>(s: seq<T>, i: nat)
    requires i < |s|
    ensures forall x :: x in Without(s, i) ==> x in s
  {
  }

  lemma SumTwo<T, K>(f: T -> multiset<K>, s: seq<T>, i: nat, j: nat)
    requires i < j < |s|
    ensures f(s[i]) + f(s[j]) <= Sum(f, s)
  {
    hide Sum;
    SumPull(f, s, j);
    SumPull(f, Without(s, j), i);
    assert Without(s, j)[i] == s[i];
  }

  lemma SmallerBag<T>(a: multiset<T>, b: multiset<T>)
    requires a <= b
    ensures |a| <= |b| && (|a| == |b| ==> a == b)
  {
    assert b == a + (b - a);
  }

  /** Joining two accounts of a queue: who left it and who stayed, against who was in it and who came. */
  lemma Rejoined<T>(a: seq<T>, b: seq<T>, c: seq<T>, d: seq<T>, q: seq<T>, x: seq<T>, y: seq<T>)
    requires a + b == q + x && c + d == b + y
    ensures (a + c) + d == q + (x + y)
  {
    assert (a + c) + d == a + (c + d);
    assert a + (b + y) == (a + b) + y;
    assert (q + x) + y == q + (x + y);
  }
}
