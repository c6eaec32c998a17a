/** Counting the set positions of a flag array, and adding up a number array. */
module Counting {

  function Count(s: seq<bool>): (n: nat)
    ensures n <= |s|
  {
    if s == [] then 0 else Count(s[..|s| - 1]) + if s[|s| - 1] then 1 else 0
  }

  /** The prefix one longer counts at most one more. */
  lemma CountStep(s: seq<bool>, k: nat)
    requires k < |s|
    ensures Count(s[..k + 1]) == Count(s[..k]) + if s[k] then 1 else 0
  {
    assert s[..k + 1][..k] == s[..k];
  }

  lemma {:induction false} CountUpdate(s: seq<bool>, i: nat, v: bool)
    requires i < |s|
    ensures Count(s[i := v]) == Count(s) - (if s[i] then 1 else 0) + if v then 1 else 0
  {
    var n := |s| - 1;
    if i == n {
      assert s[i := v][..n] == s[..n];
    } else {
      assert s[i := v][..n] == s[..n][i := v];
      CountUpdate(s[..n], i, v);
    }
  }

  /** Fewer flags, smaller count. */
  lemma {:induction false} CountMonotone(s: seq<bool>, t: seq<bool>)
    requires |s| == |t| && forall i :: 0 <= i < |s| && s[i] ==> t[i]
    ensures Count(s) <= Count(t)
    decreases |s|
  {
    if s != [] {
      CountMonotone(s[..|s| - 1], t[..|t| - 1]);
    }
  }

  lemma {:induction false} CountExtremes(s: seq<bool>)
    ensures Count(s) == |s| <==> forall i :: 0 <= i < |s| ==> s[i]
    ensures Count(s) == 0 <==> forall i :: 0 <= i < |s| ==> !s[i]
  {
    if s != [] {
      var n := |s| - 1;
      CountExtremes(s[..n]);
      assert forall i :: 0 <= i < n ==> s[..n][i] == s[i];
      assert Count(s) == |s| ==> Count(s[..n]) == n && s[n];
      assert Count(s) == 0 ==> Count(s[..n]) == 0 && !s[n];
    }
  }

  function Sum(s: seq<nat>): nat {
    if s == [] then 0 else Sum(s[..|s| - 1]) + s[|s| - 1]
  }

  lemma {:induction false} SumUpdate(s: seq<nat>, i: nat, v: nat)
    requires i < |s|
    ensures Sum(s[i := v]) == Sum(s) - s[i] + v
  {
    var n := |s| - 1;
    if i == n {
      assert s[i := v][..n] == s[..n];
    } else {
      assert s[i := v][..n] == s[..n][i := v];
      SumUpdate(s[..n], i, v);
    }
  }

  lemma {:induction false} SumPositive(s: seq<nat>, i: nat)
    requires i < |s|
    ensures s[i] <= Sum(s)
  {
    if i < |s| - 1 {
      SumPositive(s[..|s| - 1], i);
    }
  }

  lemma {:induction false} SubsetSize<T>(a: set<T>, b: set<T>)
    requires a <= b
    ensures |a| <= |b|
  {
    if a != {} {
      var x :| x in a;
      SubsetSize(a - {x}, b - {x});
    }
  }

  function Below(n: nat): (r: set<nat>)
    ensures |r| == n && forall k: nat :: k in r <==> k < n
  {
    if n == 0 then {} else Below(n - 1) + {n - 1}
  }

  /** A sequence without repetitions has as many elements as positions. */
  lemma {:induction false} DistinctSize(s: seq<nat>, n: nat)
    requires forall i :: 0 <= i < |s| ==> s[i] < n
    requires forall i, j :: 0 <= i < j < |s| ==> s[i] != s[j]
    ensures |s| <= n
  {
    var elements := set x | x in s;
    DistinctElements(s, elements);
    SubsetSize(elements, Below(n));
  }

  lemma {:induction false} DistinctElements(s: seq<nat>, elements: set<nat>)
    requires elements == set x | x in s
    requires forall i, j :: 0 <= i < j < |s| ==> s[i] != s[j]
    ensures |elements| == |s|
  {
    if s != [] {
      var n := |s| - 1;
      var rest := set x | x in s[..n];
      assert elements == rest + {s[n]};
      DistinctElements(s[..n], rest);
    }
  }

  /** Two arrangements of the same elements stay so without one of them. */
  lemma SameWithoutOne<T>(a: seq<T>, b: seq<T>, i: nat)
    requires multiset(a) == multiset(b) && a != [] && i < |b| && b[i] == a[|a| - 1]
    ensures multiset(a[..|a| - 1]) == multiset(b[..i] + b[i + 1..])
  {
    var n := |a| - 1;
    assert a == a[..n] + [a[n]];
    assert b == b[..i] + [b[i]] + b[i + 1..];
    assert multiset(a[..n]) == multiset(a) - multiset{a[n]};
    assert multiset(b[..i] + b[i + 1..]) == multiset(b) - multiset{b[i]};
  }

  /** Where the last element of one arrangement stands in another. */
  lemma LastElsewhere<T>(a: seq<T>, b: seq<T>) returns (i: nat)
    requires multiset(a) == multiset(b) && a != []
    ensures i < |b| && b[i] == a[|a| - 1] && |a| == |b|
  {
    assert |multiset(a)| == |a| && |multiset(b)| == |b|;
    assert a[|a| - 1] in multiset(b);
    i :| i < |b| && b[i] == a[|a| - 1];
  }
}
