/** Generic sequence helpers: distinctness, reversal, and the `join`/`split`
    pair of JavaScript's `Array.prototype.join` and `String.prototype.split`. */
module Seqs {

  /** No element occurs twice. */
  predicate Distinct<T(==)>(xs: seq<T>) {
    forall i, j :: 0 <= i < j < |xs| ==> xs[i] != xs[j]
  }

  /** A list is duplicate-free when some key function recovers each element's position. */
  lemma DistinctByPosition<T>(xs: seq<T>, key: T -> int)
    requires forall i :: 0 <= i < |xs| ==> key(xs[i]) == i
    ensures Distinct(xs)
  {
  }

  /** `xs` ends with `suffix`. */
  predicate EndsWith<T(==)>(xs: seq<T>, suffix: seq<T>) {
    |suffix| <= |xs| && xs[|xs| - |suffix|..] == suffix
  }

  lemma EndsWithTrans<T>(xs: seq<T>, ys: seq<T>, zs: seq<T>)
    requires EndsWith(xs, ys) && EndsWith(ys, zs)
    ensures EndsWith(xs, zs)
  {
  }

  /** The elements of `xs` in the opposite order. */
  function Reverse<T>(xs: seq<T>): (r: seq<T>)
    ensures |r| == |xs|
    ensures forall i :: 0 <= i < |xs| ==> r[i] == xs[|xs| - 1 - i]
  {
    if |xs| == 0 then [] else Reverse(xs[1..]) + [xs[0]]
  }

  /** `xs.join(sep)`: the parts with one separator between neighbours;
      the empty list joins to the empty sequence. */
  function Join<T>(xs: seq<seq<T>>, sep: T): seq<T>
    decreases |xs|
  {
    if |xs| == 0 then []
    else if |xs| == 1 then xs[0]
    else xs[0] + [sep] + Join(xs[1..], sep)
  }

  /** `s.split(sep)`: the maximal separator-free pieces, in order; the empty
      sequence splits into one empty piece. */
  function Split<T(==)>(s: seq<T>, sep: T): (r: seq<seq<T>>)
    ensures |r| >= 1
    decreases |s|
  {
    if |s| == 0 then [[]]
    else
      var rest := Split(s[1..], sep);
      if s[0] == sep then [[]] + rest else [[s[0]] + rest[0]] + rest[1..]
  }

  /** Joining a non-empty list onto a head part puts exactly one separator between them. */
  lemma JoinCons<T>(x: seq<T>, xs: seq<seq<T>>, sep: T)
    requires |xs| >= 1
    ensures Join([x] + xs, sep) == x + [sep] + Join(xs, sep)
  {
  }

  /** A value other than the separator occurs in a join only if it occurs in one of the parts. */
  lemma {:induction false} NotInJoin<T>(xs: seq<seq<T>>, sep: T, v: T)
    requires v != sep
    requires forall i :: 0 <= i < |xs| ==> v !in xs[i]
    ensures v !in Join(xs, sep)
    decreases |xs|
  {
    if |xs| > 1 {
      NotInJoin(xs[1..], sep, v);
    }
  }

  /** A separator-free sequence splits into itself alone. */
  lemma {:induction false} SplitWithoutSeparator<T>(a: seq<T>, sep: T)
    requires sep !in a
    ensures Split(a, sep) == [a]
    decreases |a|
  {
    if |a| > 0 {
      SplitWithoutSeparator(a[1..], sep);
      assert [a[0]] + a[1..] == a;
    }
  }

  /** Splitting at the first separator peels off the separator-free prefix. */
  lemma {:induction false} SplitAtFirstSeparator<T>(a: seq<T>, sep: T, b: seq<T>)
    requires sep !in a
    ensures Split(a + [sep] + b, sep) == [a] + Split(b, sep)
    decreases |a|
  {
    if |a| == 0 {
      assert a + [sep] + b == [sep] + b;
      assert ([sep] + b)[1..] == b;
    } else {
      SplitAtFirstSeparator(a[1..], sep, b);
      assert (a + [sep] + b)[1..] == a[1..] + [sep] + b;
      assert [a[0]] + a[1..] == a;
    }
  }

  /** Split undoes Join when no part contains the separator. */
  lemma {:induction false} SplitJoin<T>(xs: seq<seq<T>>, sep: T)
    requires |xs| >= 1
    requires forall i :: 0 <= i < |xs| ==> sep !in xs[i]
    ensures Split(Join(xs, sep), sep) == xs
    decreases |xs|
  {
    if |xs| == 1 {
      SplitWithoutSeparator(xs[0], sep);
    } else {
      SplitJoin(xs[1..], sep);
      SplitAtFirstSeparator(xs[0], sep, Join(xs[1..], sep));
      assert [xs[0]] + xs[1..] == xs;
    }
  }
}
