/** The table of source totals of one analyzer and its three best. HW4/analyzer.c:75-124. */
module SourceTables {
  import opened Counting

  const MAX_SOURCES: nat := 256

  /** One call of update_source_hits. */
  datatype Update = Update(source: string, hits: int)

  /** What a source has been credited with. */
  function Credited(log: seq<Update>, source: string): int {
    if log == [] then 0
    else Credited(log[..|log| - 1], source) + if log[|log| - 1].source == source then log[|log| - 1].hits else 0
  }

  /** The sources in order of first appearance. */
  function Firsts(log: seq<Update>): seq<string> {
    if log == [] then []
    else
      var before := Firsts(log[..|log| - 1]);
      if log[|log| - 1].source in before then before else before + [log[|log| - 1].source]
  }

  ghost predicate Distinct(s: seq<string>) {
    forall i, j :: 0 <= i < j < |s| ==> s[i] != s[j]
  }

  ghost predicate Appears(log: seq<Update>, source: string) {
    exists i :: 0 <= i < |log| && log[i].source == source
  }

  lemma AppearsSnoc(log: seq<Update>, source: string)
    requires log != []
    ensures Appears(log, source) <==> Appears(log[..|log| - 1], source) || log[|log| - 1].source == source
  {
    var n := |log| - 1;
    assert log == log[..n] + [log[n]];
    if i :| 0 <= i < n && log[i].source == source {
      assert log[..n][i].source == source;
    }
  }

  lemma {:induction false} FirstsDistinct(log: seq<Update>)
    ensures Distinct(Firsts(log))
    ensures forall x :: x in Firsts(log) <==> Appears(log, x)
  {
    if log != [] {
      FirstsDistinct(log[..|log| - 1]);
      forall x
        ensures x in Firsts(log) <==> Appears(log, x)
      {
        AppearsSnoc(log, x);
      }
    }
  }

  /** at tells, in ascending order, where each of the names is first updated. */
  ghost predicate FirstUpdates(log: seq<Update>, names: seq<string>, at: seq<nat>) {
    && |at| == |names| && (forall i :: 0 <= i < |at| ==> at[i] < |log| && log[at[i]].source == names[i])
    && (forall i, k :: 0 <= i < |at| && 0 <= k < at[i] ==> log[k].source != names[i])
    && forall i, j :: 0 <= i < j < |at| ==> at[i] < at[j]
  }

  lemma FirstUpdatesStay(log: seq<Update>, x: Update, names: seq<string>, at: seq<nat>)
    requires FirstUpdates(log, names, at)
    ensures FirstUpdates(log + [x], names, at)
  {
    forall i, k | 0 <= i < |at| && 0 <= k < at[i]
      ensures (log + [x])[k].source != names[i]
    {
      assert (log + [x])[k] == log[k];
    }
  }

  lemma FirstUpdateNew(log: seq<Update>, x: Update, names: seq<string>, at: seq<nat>)
    requires FirstUpdates(log, names, at) && !Appears(log, x.source)
    ensures FirstUpdates(log + [x], names + [x.source], at + [|log|])
  {
    FirstUpdatesStay(log, x, names, at);
    forall k | 0 <= k < |log|
      ensures (log + [x])[k].source != x.source
    {
      assert (log + [x])[k] == log[k];
    }
  }

  /** Each source stands in the list by the place of its first update. */
  lemma {:induction false} FirstsInOrder(log: seq<Update>) returns (at: seq<nat>)
    ensures FirstUpdates(log, Firsts(log), at)
  {
    at := [];
    if log != [] {
      var n := |log| - 1;
      at := FirstsInOrder(log[..n]);
      FirstsDistinct(log[..n]);
      assert log == log[..n] + [log[n]];
      if log[n].source in Firsts(log[..n]) {
        FirstUpdatesStay(log[..n], log[n], Firsts(log[..n]), at);
      } else {
        FirstUpdateNew(log[..n], log[n], Firsts(log[..n]), at);
        at := at + [n];
      }
    }
  }

  /** Every listed source has a positive total when every update is positive. */
  lemma {:induction false} CreditedPositive(log: seq<Update>, source: string)
    requires forall i :: 0 <= i < |log| ==> log[i].hits > 0
    ensures Credited(log, source) >= 0
    ensures source in Firsts(log) ==> Credited(log, source) > 0
  {
    if log != [] {
      CreditedPositive(log[..|log| - 1], source);
    }
  }

  /** A source that has never been credited has nothing. */
  lemma {:induction false} Uncredited(log: seq<Update>, source: string)
    requires source !in Firsts(log)
    ensures Credited(log, source) == 0
  {
    if log != [] {
      Uncredited(log[..|log| - 1], source);
    }
  }

  lemma CreditedWithoutOne(b: seq<Update>, i: nat, source: string)
    requires i < |b|
    ensures Credited(b, source) == Credited(b[..i] + b[i + 1..], source) + if b[i].source == source then b[i].hits else 0
  {
    assert b == b[..i] + [b[i]] + b[i + 1..];
    CreditedJoin(b[..i] + [b[i]], b[i + 1..], source);
    CreditedJoin(b[..i], b[i + 1..], source);
    assert (b[..i] + [b[i]])[..i] == b[..i];
  }

  /** Totals do not depend on the order in which the workers' updates reach the table. */
  lemma {:induction false} CreditedByContents(a: seq<Update>, b: seq<Update>, source: string)
    requires multiset(a) == multiset(b)
    ensures Credited(a, source) == Credited(b, source)
  {
    if a == [] {
      assert |multiset(b)| == |b|;
    } else {
      var i := LastElsewhere(a, b);
      SameWithoutOne(a, b, i);
      CreditedWithoutOne(b, i, source);
      CreditedByContents(a[..|a| - 1], b[..i] + b[i + 1..], source);
    }
  }

  lemma {:induction false} CreditedJoin(a: seq<Update>, b: seq<Update>, source: string)
    ensures Credited(a + b, source) == Credited(a, source) + Credited(b, source)
  {
    if b == [] {
      assert a + b == a;
    } else {
      var n := |b| - 1;
      assert (a + b)[..|a| + n] == a + b[..n];
      CreditedJoin(a, b[..n], source);
    }
  }

  /** The table keeps the first 256 sources. */
  function Listed(log: seq<Update>): (names: seq<string>)
    ensures |names| <= MAX_SOURCES
  {
    if |Firsts(log)| <= MAX_SOURCES then Firsts(log) else Firsts(log)[..MAX_SOURCES]
  }

  /** Index a comes before index b: more hits, or as many and entered earlier. */
  predicate Before(hits: seq<int>, a: nat, b: nat) {
    a < |hits| && b < |hits| && (hits[a] > hits[b] || (hits[a] == hits[b] && a < b))
  }

  /** chosen lists, best first, the best three of the indices below n (all of them when there are fewer). */
  ghost predicate Best(hits: seq<int>, n: nat, chosen: seq<nat>) {
    && n <= |hits| && |chosen| == (if n < 3 then n else 3)
    && (forall j :: 0 <= j < |chosen| ==> chosen[j] < n)
    && (forall j, k :: 0 <= j < k < |chosen| ==> Before(hits, chosen[j], chosen[k]))
    && forall i: nat :: i < n && i !in chosen ==> |chosen| == 3 && Before(hits, chosen[2], i)
  }

  /** There is only one such list. */
  lemma {:induction false} BestUnique(hits: seq<int>, n: nat, a: seq<nat>, b: seq<nat>, j: nat)
    requires Best(hits, n, a) && Best(hits, n, b) && j <= |a|
    ensures |a| == |b| && forall k :: 0 <= k < j ==> a[k] == b[k]
  {
    if j > 0 {
      BestUnique(hits, n, a, b, j - 1);
      NotBefore(hits, n, a, b, j - 1);
      NotBefore(hits, n, b, a, j - 1);
    }
  }

  lemma NotBefore(hits: seq<int>, n: nat, a: seq<nat>, b: seq<nat>, j: nat)
    requires Best(hits, n, a) && Best(hits, n, b) && j < |a| && forall k :: 0 <= k < j ==> a[k] == b[k]
    ensures a[j] == b[j] || Before(hits, b[j], a[j])
  {
    if a[j] in b {
      var k :| 0 <= k < |b| && b[k] == a[j];
      if k < j {
        assert false;
      }
    } else {
      assert j < 2 ==> Before(hits, b[j], b[2]);
    }
  }

  class SourceTable {
    const names: array<string>
    const hits: array<int>
    var count: nat

    /** The table stands for this sequence of updates. */
    ghost predicate Holds(log: seq<Update>)
      reads this, names, hits
    {
      && names.Length == hits.Length == MAX_SOURCES && count <= MAX_SOURCES
      && names[..count] == Listed(log)
      && forall i :: 0 <= i < count ==> hits[i] == Credited(log, names[i])
    }

    constructor ()
      ensures Holds([]) && fresh(names) && fresh(hits)
    {
      names := new string[MAX_SOURCES](_ => "");
      hits := new int[MAX_SOURCES](_ => 0);
      count := 0;
    }

    method UpdateHits(source: string, more: int, ghost log: seq<Update>)
      requires Holds(log)
      modifies this`count, names, hits
      ensures Holds(log + [Update(source, more)])
    {
      ghost var log' := log + [Update(source, more)];
      assert log'[..|log|] == log;
      FirstsDistinct(log);
      var i := 0;
      while i < count
        invariant i <= count && forall k :: 0 <= k < i ==> names[k] != source
      {
        if names[i] == source {
          assert Firsts(log)[i] == source;
          assert Listed(log') == Listed(log);
          hits[i] := hits[i] + more;
          return;
        }
        i := i + 1;
      }
      if count < MAX_SOURCES {
        assert source !in Listed(log);
        Uncredited(log, source);
        names[count] := source;
        hits[count] := more;
        count := count + 1;
      } else {
        assert Listed(log') == Listed(log);
        forall k | 0 <= k < count
          ensures names[k] != source
        {
        }
      }
    }

    /** The three best entries by hits, ties by position; empty places have no name and no hits. */
    method Top3(ghost log: seq<Update>) returns (bestNames: array<string>, bestHits: array<int>, ghost chosen: seq<nat>)
      requires Holds(log) && forall i :: 0 <= i < |log| ==> log[i].hits > 0
      ensures fresh(bestNames) && fresh(bestHits)
      ensures Best(hits[..], count, chosen) && Shows(bestNames[..], bestHits[..], names[..], hits[..], chosen)
      ensures |chosen| == (if count < 3 then count else 3) && forall j :: 0 <= j < |chosen| ==> chosen[j] < count
      ensures forall j, k :: 0 <= j < k < |chosen| ==>
                hits[chosen[j]] > hits[chosen[k]] || (hits[chosen[j]] == hits[chosen[k]] && chosen[j] < chosen[k])
      ensures forall i: nat :: i < count && i !in chosen ==>
                |chosen| == 3 && (hits[chosen[2]] > hits[i] || (hits[chosen[2]] == hits[i] && chosen[2] < i))
    {
      bestNames := new string[3](_ => "");
      bestHits := new int[3](_ => 0);
      chosen := [];
      var i := 0;
      forall k | 0 <= k < count
        ensures hits[k] > 0
      {
        assert names[..count][k] in Firsts(log);
        CreditedPositive(log, names[k]);
      }
      while i < count
        invariant i <= count && Best(hits[..], i, chosen)
        invariant Shows(bestNames[..], bestHits[..], names[..], hits[..], chosen)
      {
        chosen := Insert(i, bestNames, bestHits, chosen);
        i := i + 1;
      }
    }

    /** One round: entry i is put in its place among the best, and those behind it move down. */
    method Insert(i: nat, bestNames: array<string>, bestHits: array<int>, ghost chosen: seq<nat>) returns (ghost next: seq<nat>)
      requires names.Length == hits.Length == MAX_SOURCES && i < count <= MAX_SOURCES && hits[i] > 0
      requires bestNames.Length == bestHits.Length == 3
      requires bestNames != names && bestHits != hits
      requires Best(hits[..], i, chosen) && Shows(bestNames[..], bestHits[..], names[..], hits[..], chosen)
      modifies bestNames, bestHits
      ensures Best(hits[..], i + 1, next) && Shows(bestNames[..], bestHits[..], names[..], hits[..], next)
    {
      var j := 0;
      while j < 3 && hits[i] <= bestHits[j]
        invariant j <= 3 && forall k :: 0 <= k < j ==> hits[i] <= bestHits[k]
      {
        j := j + 1;
      }
      PlaceFound(bestNames[..], bestHits[..], names[..], hits[..], chosen, i, j);
      if j == 3 {
        next := chosen;
      } else {
        next := Inserted(chosen, j, i);
        ghost var oldNames, oldHits := bestNames[..], bestHits[..];
        MakeRoom(j, bestNames, bestHits);
        bestHits[j] := hits[i];
        bestNames[j] := names[i];
        ShowsInserted(oldNames, oldHits, bestNames[..], bestHits[..], names[..], hits[..], chosen, i, j);
      }
    }

    /** Moves the places from j on down by one; the last one drops out. */
    static method MakeRoom(j: nat, bestNames: array<string>, bestHits: array<int>)
      requires bestNames.Length == bestHits.Length == 3 && j < 3
      modifies bestNames, bestHits
      ensures forall k :: 0 <= k < j ==> bestHits[k] == old(bestHits[k]) && bestNames[k] == old(bestNames[k])
      ensures forall k :: j < k < 3 ==> bestHits[k] == old(bestHits[k - 1]) && bestNames[k] == old(bestNames[k - 1])
    {
      var move := 2;
      while move > j
        invariant j <= move <= 2
        invariant forall k :: 0 <= k <= move ==> bestHits[k] == old(bestHits[k]) && bestNames[k] == old(bestNames[k])
        invariant forall k :: move < k < 3 ==> bestHits[k] == old(bestHits[k - 1]) && bestNames[k] == old(bestNames[k - 1])
      {
        bestHits[move] := bestHits[move - 1];
        bestNames[move] := bestNames[move - 1];
        move := move - 1;
      }
    }
  }

  /** The three best places show the chosen entries; the others are empty. */
  ghost predicate Shows(bestNames: seq<string>, bestHits: seq<int>, names: seq<string>, hits: seq<int>, chosen: seq<nat>) {
    && |bestNames| == |bestHits| == 3 && |names| == |hits| && |chosen| <= 3
    && (forall j :: 0 <= j < |chosen| ==> chosen[j] < |hits|)
    && (forall j :: 0 <= j < |chosen| ==> bestHits[j] == hits[chosen[j]] && bestNames[j] == names[chosen[j]])
    && forall j :: |chosen| <= j < 3 ==> bestHits[j] == 0 && bestNames[j] == ""
  }

  /** i put at place j of at most three. */
  ghost function Inserted(chosen: seq<nat>, j: nat, i: nat): (next: seq<nat>)
    requires j <= |chosen| <= 3 && j < 3
  {
    var all := chosen[..j] + [i] + chosen[j..];
    if |all| > 3 then all[..3] else all
  }

  lemma PlaceFound(bestNames: seq<string>, bestHits: seq<int>, names: seq<string>, hits: seq<int>, chosen: seq<nat>, i: nat, j: nat)
    requires Best(hits, i, chosen) && Shows(bestNames, bestHits, names, hits, chosen) && i < |hits| && hits[i] > 0 && j <= 3
    requires forall k :: 0 <= k < j ==> hits[i] <= bestHits[k]
    requires j < 3 ==> hits[i] > bestHits[j]
    ensures j <= |chosen|
    ensures if j == 3 then Best(hits, i + 1, chosen) else Best(hits, i + 1, Inserted(chosen, j, i))
  {
    assert j > 0 ==> hits[i] <= bestHits[j - 1];
    if j < 3 {
      InsertedBest(hits, i, chosen, j);
    }
  }

  lemma InsertedKeeps(chosen: seq<nat>, j: nat, i: nat, k: nat)
    requires j <= |chosen| <= 3 && j < 3 && k < |chosen|
    ensures k == 2 || chosen[k] in Inserted(chosen, j, i)
    ensures i in Inserted(chosen, j, i)
  {
    var next := Inserted(chosen, j, i);
    assert next[j] == i;
    if k < j {
      assert next[k] == chosen[k];
    } else if k < 2 {
      assert next[k + 1] == chosen[k];
    }
  }

  lemma InsertedSorted(hits: seq<int>, i: nat, chosen: seq<nat>, j: nat)
    requires Best(hits, i, chosen) && i < |hits| && j <= |chosen| && j < 3
    requires forall k :: 0 <= k < j ==> hits[i] <= hits[chosen[k]]
    requires j < |chosen| ==> hits[i] > hits[chosen[j]]
    ensures var next := Inserted(chosen, j, i);
            && |next| == (if i + 1 < 3 then i + 1 else 3)
            && (forall k :: 0 <= k < |next| ==> next[k] < i + 1)
            && (forall k, m :: 0 <= k < m < |next| ==> Before(hits, next[k], next[m]))
            && (|chosen| == 3 ==> Before(hits, next[2], chosen[2]))
  {
  }

  lemma InsertedBest(hits: seq<int>, i: nat, chosen: seq<nat>, j: nat)
    requires Best(hits, i, chosen) && i < |hits| && j <= |chosen| && j < 3
    requires forall k :: 0 <= k < j ==> hits[i] <= hits[chosen[k]]
    requires j < |chosen| ==> hits[i] > hits[chosen[j]]
    ensures Best(hits, i + 1, Inserted(chosen, j, i))
  {
    var next := Inserted(chosen, j, i);
    InsertedSorted(hits, i, chosen, j);
    forall m: nat | m < i + 1 && m !in next
      ensures |next| == 3 && Before(hits, next[2], m)
    {
      assert next[j] == i;
      if m in chosen {
        var k :| 0 <= k < |chosen| && chosen[k] == m;
        InsertedKeeps(chosen, j, i, k);
        assert k == 2;
      }
    }
  }

  lemma ShowsInserted(oldNames: seq<string>, oldHits: seq<int>, bestNames: seq<string>, bestHits: seq<int>,
                      names: seq<string>, hits: seq<int>, chosen: seq<nat>, i: nat, j: nat)
    requires Shows(oldNames, oldHits, names, hits, chosen) && i < |hits| && j <= |chosen| && j < 3
    requires |bestNames| == |bestHits| == 3
    requires bestHits[j] == hits[i] && bestNames[j] == names[i]
    requires forall k :: 0 <= k < j ==> bestHits[k] == oldHits[k] && bestNames[k] == oldNames[k]
    requires forall k :: j < k < 3 ==> bestHits[k] == oldHits[k - 1] && bestNames[k] == oldNames[k - 1]
    ensures Shows(bestNames, bestHits, names, hits, Inserted(chosen, j, i))
  {
  }
}
