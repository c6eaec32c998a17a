/** Scoring log lines by keyword. HW4/common.c:23-36, 149-171; HW4/analyzer.c:27-55, 158-180;
    HW4/aggregator.c:57-65. Scores are whole numbers here; the program keeps them in doubles. */
module Scores {
  import opened Basics
  import opened Counting
  import opened Pipeline
  import opened KeywordHits

  /** The weights of ERROR, WARN, INFO and DEBUG; anything else weighs nothing. */
  function LevelWeight(level: int): (w: nat)
    ensures w == if 0 <= level < LEVELS then 4 - level else 0
  {
    match level
    case 0 => 4
    case 1 => 3
    case 2 => 2
    case 3 => 1
    case _ => 0
  }

  predicate StandsAt(text: string, keyword: string, i: nat) {
    i + |keyword| <= |text| && text[i..i + |keyword|] == keyword
  }

  /** The offsets at which the keyword stands in the text; occurrences may overlap. */
  ghost function Matches(text: string, keyword: string): set<nat> {
    if keyword == [] then {} else set i: nat | i < |text| && StandsAt(text, keyword, i)
  }

  ghost function Occurrences(text: string, keyword: string): nat {
    |Matches(text, keyword)|
  }

  method CountOverlapping(text: string, keyword: string) returns (count: nat)
    ensures count == Occurrences(text, keyword)
  {
    count := 0;
    if keyword == [] || |keyword| > |text| {
      assert Matches(text, keyword) == {};
      return;
    }
    var i := 0;
    ghost var found: set<nat> := {};
    while i + |keyword| <= |text|
      invariant i <= |text| - |keyword| + 1
      invariant forall k :: k in found <==> k in Matches(text, keyword) && k < i
      invariant count == |found|
    {
      if StandsAt(text, keyword, i) {
        count := count + 1;
        found := found + {i};
      }
      i := i + 1;
    }
    assert found == Matches(text, keyword);
  }

  /** What one line is worth for one keyword. */
  ghost function Score(e: Entry, keyword: string): nat {
    Occurrences(e.message, keyword) * LevelWeight(e.level)
  }

  ghost function EntryScore(e: Entry, keywords: seq<string>): nat {
    if keywords == [] then 0
    else EntryScore(e, keywords[..|keywords| - 1]) + Score(e, keywords[|keywords| - 1])
  }

  /** What a list of lines is worth for one keyword, and for all of them. */
  ghost function ScoreOver(es: seq<Entry>, keyword: string): nat {
    if es == [] then 0 else ScoreOver(es[..|es| - 1], keyword) + Score(es[|es| - 1], keyword)
  }

  ghost function TotalOver(es: seq<Entry>, keywords: seq<string>): nat {
    if es == [] then 0 else TotalOver(es[..|es| - 1], keywords) + EntryScore(es[|es| - 1], keywords)
  }

  /** A line is worth the weight of its level for each place at which a keyword stands in it. */
  lemma {:induction false} EntryPoints(i: nat, e: Entry, keywords: seq<string>)
    ensures EntryScore(e, keywords) == LevelWeight(e.level) * |LineHits(i, e, keywords)|
  {
    if keywords == [] {
      assert LineHits(i, e, keywords) == {};
    } else {
      var n := |keywords| - 1;
      EntryPoints(i, e, keywords[..n]);
      MatchesAreHits(e.message, keywords[n]);
      LineHitsSnoc(i, e, keywords[..n], keywords[n], Matches(e.message, keywords[n]));
      assert keywords == keywords[..n] + [keywords[n]];
      Distribute(LevelWeight(e.level), |LineHits(i, e, keywords[..n])|, Occurrences(e.message, keywords[n]));
    }
  }

  lemma Distribute(w: nat, a: nat, b: nat)
    ensures w * (a + b) == w * a + b * w
  {
  }

  lemma MatchesAreHits(text: string, keyword: string)
    ensures forall o: nat :: o in Matches(text, keyword) <==> keyword != [] && o < |text| && keyword <= text[o..]
  {
    forall o: nat | o <= |text|
      ensures StandsAt(text, keyword, o) <==> keyword <= text[o..]
    {
      if o + |keyword| <= |text| {
        assert text[o..][..|keyword|] == text[o..o + |keyword|];
      }
    }
  }

  /** For one keyword. */
  lemma KeywordPoints(e: Entry, keyword: string)
    ensures Score(e, keyword) == LevelWeight(e.level) * |AllHits([e], [keyword])|
    ensures Occurrences(e.message, keyword) == |AllHits([e], [keyword])|
  {
    MatchesAreHits(e.message, keyword);
    HitsOfLine(e, [keyword]);
    LineHitsSnoc(0, e, [], keyword, Matches(e.message, keyword));
    assert LineHits(0, e, []) == {} && [] + [keyword] == [keyword];
  }

  lemma {:induction false} ScoreOverJoin(a: seq<Entry>, b: seq<Entry>, keyword: string)
    ensures ScoreOver(a + b, keyword) == ScoreOver(a, keyword) + ScoreOver(b, keyword)
  {
    if b == [] {
      assert a + b == a;
    } else {
      var n := |b| - 1;
      assert (a + b)[..|a| + n] == a + b[..n];
      ScoreOverJoin(a, b[..n], keyword);
    }
  }

  lemma {:induction false} TotalOverJoin(a: seq<Entry>, b: seq<Entry>, keywords: seq<string>)
    ensures TotalOver(a + b, keywords) == TotalOver(a, keywords) + TotalOver(b, keywords)
  {
    if b == [] {
      assert a + b == a;
    } else {
      var n := |b| - 1;
      assert (a + b)[..|a| + n] == a + b[..n];
      TotalOverJoin(a, b[..n], keywords);
    }
  }

  /** Adding up by keyword and adding up by line give the same total. */
  lemma {:induction false} TotalByKeyword(es: seq<Entry>, keywords: seq<string>)
    ensures TotalOver(es, keywords) ==
            if keywords == [] then 0
            else TotalOver(es, keywords[..|keywords| - 1]) + ScoreOver(es, keywords[|keywords| - 1])
  {
    if es != [] {
      TotalByKeyword(es[..|es| - 1], keywords);
    }
  }

  /** Taking one line out of the middle. */
  lemma WithoutOne(b: seq<Entry>, i: nat, keywords: seq<string>)
    requires i < |b|
    ensures TotalOver(b, keywords) == TotalOver(b[..i] + b[i + 1..], keywords) + EntryScore(b[i], keywords)
  {
    assert b == b[..i] + [b[i]] + b[i + 1..];
    TotalOverJoin(b[..i] + [b[i]], b[i + 1..], keywords);
    TotalOverJoin(b[..i], [b[i]], keywords);
    TotalOverJoin(b[..i], b[i + 1..], keywords);
    TotalOne(b[i], keywords);
  }

  /** The order of the lines does not matter: every sum depends on the collection only. */
  lemma {:induction false} TotalDependsOnContents(a: seq<Entry>, b: seq<Entry>, keywords: seq<string>)
    requires multiset(a) == multiset(b)
    ensures TotalOver(a, keywords) == TotalOver(b, keywords) && |a| == |b|
  {
    if a == [] {
      assert |multiset(b)| == |b|;
    } else {
      var i := LastElsewhere(a, b);
      SameWithoutOne(a, b, i);
      WithoutOne(b, i, keywords);
      TotalDependsOnContents(a[..|a| - 1], b[..i] + b[i + 1..], keywords);
    }
  }

  lemma ScoreDependsOnContents(a: seq<Entry>, b: seq<Entry>, keyword: string)
    requires multiset(a) == multiset(b)
    ensures ScoreOver(a, keyword) == ScoreOver(b, keyword)
  {
    TotalByKeyword(a, [keyword]);
    TotalByKeyword(b, [keyword]);
    TotalNoKeywords(a);
    TotalNoKeywords(b);
    assert [keyword][..0] == [];
    TotalDependsOnContents(a, b, [keyword]);
  }

  lemma TotalOne(x: Entry, keywords: seq<string>)
    ensures TotalOver([x], keywords) == EntryScore(x, keywords)
  {
    assert [x][..0] == [];
    assert TotalOver([], keywords) == 0;
  }

  lemma ScoreOne(x: Entry, keyword: string)
    ensures ScoreOver([x], keyword) == Score(x, keyword)
  {
    assert [x][..0] == [];
    assert ScoreOver([], keyword) == 0;
  }

  /** One worker's thread-local payload. */
  class Payload {
    const keywords: seq<string>
    const level: nat
    const scores: array<int>
    var entries: nat

    /** The payload has scored exactly these lines. */
    ghost predicate Holds(taken: seq<Entry>)
      reads this, scores
    {
      && scores.Length == |keywords| && entries == |taken|
      && forall k :: 0 <= k < |keywords| ==> scores[k] == ScoreOver(taken, keywords[k])
    }

    constructor (keywords: seq<string>, level: nat)
      ensures this.keywords == keywords && this.level == level && Holds([]) && fresh(scores)
    {
      this.keywords, this.level := keywords, level;
      scores := new int[|keywords|](_ => 0);
      entries := 0;
    }

    /** The worker's loop body: counts every keyword in the message and returns the line's total. */
    method ScoreEntry(e: Entry, ghost taken: seq<Entry>) returns (total: nat)
      requires Holds(taken) && e.level == level
      modifies this`entries, scores
      ensures Holds(taken + [e]) && total == EntryScore(e, keywords)
      ensures total == LevelWeight(level) * |AllHits([e], keywords)|
      ensures forall k :: 0 <= k < |keywords| ==> scores[k] == old(scores[k]) + LevelWeight(level) * |AllHits([e], [keywords[k]])|
    {
      entries := entries + 1;
      total := 0;
      ghost var before := scores[..];
      var k := 0;
      while k < |keywords|
        invariant k <= |keywords| && total == EntryScore(e, keywords[..k]) && entries == |taken| + 1
        invariant forall j :: k <= j < |keywords| ==> scores[j] == before[j]
        invariant forall j :: 0 <= j < k ==> scores[j] == before[j] + Score(e, keywords[j])
      {
        var matches, weighted := WeightedCount(e, keywords[k]);
        EntryScoreStep(e, keywords, k);
        if matches > 0 {
          scores[k] := scores[k] + weighted;
          total := total + weighted;
        }
        k := k + 1;
      }
      assert keywords[..|keywords|] == keywords;
      forall j | 0 <= j < |keywords|
        ensures ScoreOver(taken + [e], keywords[j]) == before[j] + Score(e, keywords[j])
      {
        ScoreOneMore(taken, e, keywords[j]);
      }
      EntryPoints(0, e, keywords);
      HitsOfLine(e, keywords);
      forall j | 0 <= j < |keywords|
        ensures Score(e, keywords[j]) == LevelWeight(level) * |AllHits([e], [keywords[j]])|
      {
        KeywordPoints(e, keywords[j]);
      }
    }
  }

  /** Occurrences of a keyword in a line, and what they are worth. */
  method WeightedCount(e: Entry, keyword: string) returns (matches: nat, weighted: nat)
    ensures matches == Occurrences(e.message, keyword) && weighted == Score(e, keyword)
    ensures matches == |AllHits([e], [keyword])| && weighted == LevelWeight(e.level) * matches
    ensures matches == 0 ==> weighted == 0
  {
    KeywordPoints(e, keyword);
    matches := CountOverlapping(e.message, keyword);
    weighted := matches * LevelWeight(e.level);
  }

  lemma EntryScoreStep(e: Entry, keywords: seq<string>, k: nat)
    requires k < |keywords|
    ensures EntryScore(e, keywords[..k + 1]) == EntryScore(e, keywords[..k]) + Score(e, keywords[k])
  {
    assert keywords[..k + 1][..k] == keywords[..k];
  }

  lemma ScoreOneMore(taken: seq<Entry>, e: Entry, keyword: string)
    ensures ScoreOver(taken + [e], keyword) == ScoreOver(taken, keyword) + Score(e, keyword)
  {
    ScoreOverJoin(taken, [e], keyword);
    ScoreOne(e, keyword);
  }

  /** The result slot of one level in Region C. */
  class LevelResult {
    const keywords: seq<string>
    const level: nat
    const perKeyword: array<int>
    const perThread: array<int>
    var total: int
    var entries: nat

    /** The slot accounts for exactly these lines. */
    ghost predicate Holds(done: seq<Entry>)
      reads this, perKeyword
    {
      && perKeyword.Length == |keywords| && perKeyword != perThread
      && entries == |done| && total == TotalOver(done, keywords)
      && forall k :: 0 <= k < |keywords| ==> perKeyword[k] == ScoreOver(done, keywords[k])
    }

    constructor (keywords: seq<string>, level: nat, workers: nat)
      ensures this.keywords == keywords && this.level == level && Holds([])
      ensures perThread.Length == workers && fresh(perKeyword) && fresh(perThread)
    {
      this.keywords, this.level := keywords, level;
      perKeyword := new int[|keywords|](_ => 0);
      perThread := new int[workers](_ => 0);
      total, entries := 0, 0;
    }

    /** A worker's destructor hands its payload in: every sum grows by that worker's lines, and the
        worker's own slot gets its total. */
    method Flush(p: Payload, w: nat, ghost done: seq<Entry>, ghost taken: seq<Entry>)
      requires Holds(done) && p.Holds(taken) && p.keywords == keywords && p.level == level && w < perThread.Length
      requires p.scores != perKeyword && p.scores != perThread
      modifies this`total, this`entries, perKeyword, perThread
      ensures Holds(done + taken) && perThread[w] == TotalOver(taken, keywords)
      ensures forall i :: 0 <= i < perThread.Length && i != w ==> perThread[i] == old(perThread[i])
    {
      AddSums(p, done, taken);
      SetThread(p, w, taken);
      entries := entries + p.entries;
      TotalOverJoin(done, taken, keywords);
      forall j | 0 <= j < |keywords|
        ensures ScoreOver(done + taken, keywords[j]) == ScoreOver(done, keywords[j]) + ScoreOver(taken, keywords[j])
      {
        ScoreOverJoin(done, taken, keywords[j]);
      }
    }

    /** The destructor's first loop: the scores go into the sums by keyword and the total. */
    method AddSums(p: Payload, ghost done: seq<Entry>, ghost taken: seq<Entry>)
      requires Holds(done) && p.Holds(taken) && p.keywords == keywords
      requires p.scores != perKeyword
      modifies this`total, perKeyword
      ensures total == old(total) + TotalOver(taken, keywords)
      ensures forall j :: 0 <= j < |keywords| ==> perKeyword[j] == old(perKeyword[j]) + ScoreOver(taken, keywords[j])
    {
      TotalNoKeywords(taken);
      var k := 0;
      while k < |keywords|
        invariant k <= |keywords| && total == old(total) + TotalOver(taken, keywords[..k])
        invariant forall j :: 0 <= j < k ==> perKeyword[j] == old(perKeyword[j]) + ScoreOver(taken, keywords[j])
        invariant forall j :: k <= j < |keywords| ==> perKeyword[j] == old(perKeyword[j])
      {
        OneKeywordMore(taken, keywords, k);
        perKeyword[k] := perKeyword[k] + p.scores[k];
        total := total + p.scores[k];
        k := k + 1;
      }
      assert keywords[..|keywords|] == keywords;
    }

    /** The destructor's second loop: the worker's own slot. */
    method SetThread(p: Payload, w: nat, ghost taken: seq<Entry>)
      requires p.Holds(taken) && p.keywords == keywords && w < perThread.Length
      requires p.scores != perThread
      modifies perThread
      ensures perThread[w] == TotalOver(taken, keywords)
      ensures forall i :: 0 <= i < perThread.Length && i != w ==> perThread[i] == old(perThread[i])
    {
      perThread[w] := 0;
      TotalNoKeywords(taken);
      var k := 0;
      while k < |keywords|
        invariant k <= |keywords| && perThread[w] == TotalOver(taken, keywords[..k])
        invariant forall i :: 0 <= i < perThread.Length && i != w ==> perThread[i] == old(perThread[i])
      {
        OneKeywordMore(taken, keywords, k);
        perThread[w] := perThread[w] + p.scores[k];
        k := k + 1;
      }
      assert keywords[..|keywords|] == keywords;
    }
  }

  lemma OneKeywordMore(es: seq<Entry>, keywords: seq<string>, k: nat)
    requires k < |keywords|
    ensures TotalOver(es, keywords[..k + 1]) == TotalOver(es, keywords[..k]) + ScoreOver(es, keywords[k])
  {
    TotalByKeyword(es, keywords[..k + 1]);
    assert keywords[..k + 1][..k] == keywords[..k];
  }

  /** An order in which n threads exit: each once. */
  ghost predicate Permutation(order: seq<nat>, n: nat) {
    && |order| == n && (forall i :: 0 <= i < |order| ==> order[i] < n)
    && (forall i, j :: 0 <= i < j < |order| ==> order[i] != order[j])
    && forall w: nat :: w < n ==> w in order
  }

  /** The lists of the workers in the order in which they exit. */
  function InOrder<T>(lists: seq<T>, order: seq<nat>): (r: seq<T>)
    requires forall i :: 0 <= i < |order| ==> order[i] < |lists|
    ensures |r| == |order|
  {
    seq(|order|, i requires 0 <= i < |order| => lists[order[i]])
  }

  lemma InOrderSnoc<T>(lists: seq<seq<T>>, order: seq<nat>, i: nat)
    requires i < |order| && forall k :: 0 <= k < |order| ==> order[k] < |lists|
    ensures Flatten(InOrder(lists, order[..i + 1])) == Flatten(InOrder(lists, order[..i])) + lists[order[i]]
  {
    assert InOrder(lists, order[..i + 1]) == InOrder(lists, order[..i]) + [lists[order[i]]];
    FlattenSnoc(InOrder(lists, order[..i]), lists[order[i]]);
  }

  /** All workers' destructors, in any order. */
  method FlushAll(r: LevelResult, payloads: seq<Payload>, order: seq<nat>, ghost takens: seq<seq<Entry>>)
    requires r.Holds([]) && |payloads| == |takens| == r.perThread.Length && Permutation(order, |payloads|)
    requires forall w :: 0 <= w < |payloads| ==>
               && payloads[w].Holds(takens[w]) && payloads[w].keywords == r.keywords && payloads[w].level == r.level
               && payloads[w].scores != r.perKeyword && payloads[w].scores != r.perThread
    modifies r`total, r`entries, r.perKeyword, r.perThread
    ensures r.Holds(Flatten(InOrder(takens, order)))
    ensures forall w :: 0 <= w < |takens| ==> r.perThread[w] == TotalOver(takens[w], r.keywords)
  {
    var i := 0;
    while i < |order|
      invariant i <= |order| && r.Holds(Flatten(InOrder(takens, order[..i])))
      invariant forall w :: 0 <= w < |payloads| ==> payloads[w].Holds(takens[w])
      invariant forall j :: 0 <= j < i ==> r.perThread[order[j]] == TotalOver(takens[order[j]], r.keywords)
    {
      var w := order[i];
      InOrderSnoc(takens, order, i);
      r.Flush(payloads[w], w, Flatten(InOrder(takens, order[..i])), takens[w]);
      i := i + 1;
    }
    assert order[..|order|] == order;
    forall w | 0 <= w < |takens|
      ensures r.perThread[w] == TotalOver(takens[w], r.keywords)
    {
      assert w in order;
      var j :| 0 <= j < |order| && order[j] == w;
    }
  }

  // ----- the order does not matter

  lemma {:induction false} FlattenPermuted(lists: seq<seq<Entry>>, a: seq<nat>, b: seq<nat>)
    requires multiset(a) == multiset(b)
    requires (forall i :: 0 <= i < |a| ==> a[i] < |lists|) && forall i :: 0 <= i < |b| ==> b[i] < |lists|
    ensures multiset(Flatten(InOrder(lists, a))) == multiset(Flatten(InOrder(lists, b)))
  {
    if a == [] {
      assert |multiset(b)| == |b|;
    } else {
      var i := LastElsewhere(a, b);
      var n := |a| - 1;
      SameWithoutOne(a, b, i);
      FlattenPermuted(lists, a[..n], b[..i] + b[i + 1..]);
      assert a[..n + 1] == a;
      InOrderSnoc(lists, a, n);
      FlattenWithoutOne(lists, b, i);
    }
  }

  lemma FlattenWithoutOne(lists: seq<seq<Entry>>, b: seq<nat>, i: nat)
    requires i < |b| && forall k :: 0 <= k < |b| ==> b[k] < |lists|
    ensures multiset(Flatten(InOrder(lists, b))) == multiset(Flatten(InOrder(lists, b[..i] + b[i + 1..]))) + multiset(lists[b[i]])
  {
    var front, back := InOrder(lists, b[..i]), InOrder(lists, b[i + 1..]);
    assert InOrder(lists, b) == front + [lists[b[i]]] + back;
    assert InOrder(lists, b[..i] + b[i + 1..]) == front + back;
    FlattenTwo(front + [lists[b[i]]], back);
    FlattenTwo(front, back);
    FlattenSnoc(front, lists[b[i]]);
  }

  function Natural(n: nat): (r: seq<nat>)
    ensures |r| == n && forall i :: 0 <= i < n ==> r[i] == i
  {
    seq(n, (i: nat) => i)
  }

  lemma NaturalOrder(takens: seq<seq<Entry>>)
    ensures Permutation(Natural(|takens|), |takens|) && InOrder(takens, Natural(|takens|)) == takens
  {
    var natural := Natural(|takens|);
    forall w: nat | w < |takens|
      ensures w in natural
    {
      assert natural[w] == w;
    }
  }

  /** In whatever order the workers exit, the lines handed in are the same. */
  lemma AnyExitOrder(takens: seq<seq<Entry>>, order: seq<nat>)
    requires Permutation(order, |takens|)
    ensures multiset(Flatten(InOrder(takens, order))) == multiset(Flatten(takens))
  {
    NaturalOrder(takens);
    PermutationContents(order, |takens|);
    PermutationContents(Natural(|takens|), |takens|);
    FlattenPermuted(takens, order, Natural(|takens|));
  }

  lemma PermutationContents(order: seq<nat>, n: nat)
    requires Permutation(order, n)
    ensures multiset(order) == multiset(Below(n))
  {
    forall w: nat
      ensures multiset(order)[w] == if w < n then 1 else 0
    {
      OnceEach(order, w);
    }
  }

  lemma {:induction false} OnceEach(order: seq<nat>, w: nat)
    requires forall i, j :: 0 <= i < j < |order| ==> order[i] != order[j]
    ensures multiset(order)[w] == if w in order then 1 else 0
  {
    if order != [] {
      var n := |order| - 1;
      OnceEach(order[..n], w);
      assert order == order[..n] + [order[n]];
    }
  }

  lemma {:induction false} TotalNoKeywords(es: seq<Entry>)
    ensures TotalOver(es, []) == 0
  {
    TotalByKeyword(es, []);
  }

  /** The aggregator adds one priority line to the high-priority score. */
  method AddHighPriority(score: nat, count: nat, e: Entry, keywords: seq<string>, ghost done: seq<Entry>)
    returns (score': nat, count': nat)
    requires score == TotalOver(done, keywords) && count == |done|
    ensures score' == TotalOver(done + [e], keywords) && count' == |done + [e]|
    ensures score' == score + LevelWeight(e.level) * |AllHits([e], keywords)| && count' == count + 1
  {
    EntryPoints(0, e, keywords);
    HitsOfLine(e, keywords);
    assert (done + [e])[..|done|] == done;
    score', count' := score, count + 1;
    var i := 0;
    while i < |keywords|
      invariant i <= |keywords| && score' == score + EntryScore(e, keywords[..i])
    {
      var _, weighted := WeightedCount(e, keywords[i]);
      EntryScoreStep(e, keywords, i);
      score' := score' + weighted;
      i := i + 1;
    }
    assert keywords[..|keywords|] == keywords;
  }
}
