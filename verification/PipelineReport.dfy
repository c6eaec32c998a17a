/** From the texts of the log files to the published results: sums, per-thread contributions and the three
    best sources of a level are those of one sequential pass. HW4/reader.c:205-266, HW4/analyzer.c:27-124,
    HW4/analyzer.c:127-240. */
module PipelineReport {
  import opened Basics
  import opened Counting
  import opened FileSplit
  import opened Pipeline
  import opened PipelineFlow
  import opened PipelineResults
  import opened PipelineScores
  import opened Scores
  import opened KeywordHits
  import opened SourceTables

  // ----- the source table of a level

  /** The calls of update_source_hits that a list of lines leads to. */
  ghost function UpdatesOf(es: seq<Entry>, keywords: seq<string>): seq<Update> {
    Flatten(UpdateSeqs(es, keywords))
  }

  ghost function UpdateSeqs(es: seq<Entry>, keywords: seq<string>): (r: seq<seq<Update>>)
    ensures |r| == |es| && forall i :: 0 <= i < |es| ==> r[i] == UpdateOf(es[i], keywords)
  {
    seq(|es|, i requires 0 <= i < |es| => UpdateOf(es[i], keywords))
  }

  ghost function UpdateOf(e: Entry, keywords: seq<string>): seq<Update> {
    if EntryScore(e, keywords) > 0 then [Update(e.source, EntryScore(e, keywords))] else []
  }

  /** What the lines of one source are worth. */
  ghost function SourceTotal(es: seq<Entry>, keywords: seq<string>, source: string): nat {
    if es == [] then 0
    else
      SourceTotal(es[..|es| - 1], keywords, source) +
      if es[|es| - 1].source == source then EntryScore(es[|es| - 1], keywords) else 0
  }

  ghost function UpdateLists(takens: seq<seq<Entry>>, keywords: seq<string>): (r: seq<seq<Update>>)
    ensures |r| == |takens|
  {
    seq(|takens|, w requires 0 <= w < |takens| => UpdatesOf(takens[w], keywords))
  }

  /** log is made of the lists, each in its own order, in any way one into the other. */
  ghost predicate Interleaves(lists: seq<seq<Update>>, log: seq<Update>)
    decreases |log|
  {
    if log == [] then forall w :: 0 <= w < |lists| ==> lists[w] == []
    else exists w :: 0 <= w < |lists| && Next(lists, log, w)
  }

  ghost predicate Next(lists: seq<seq<Update>>, log: seq<Update>, w: nat)
    requires w < |lists| && log != []
    decreases |log|, 0
  {
    lists[w] != [] && lists[w][0] == log[0] && Interleaves(lists[w := lists[w][1..]], log[1..])
  }

  lemma {:induction false} FlattenHead(lists: seq<seq<Update>>, w: nat)
    requires w < |lists| && lists[w] != []
    ensures multiset(Flatten(lists)) == multiset{lists[w][0]} + multiset(Flatten(lists[w := lists[w][1..]]))
  {
    var next := lists[w := lists[w][1..]];
    if w == 0 {
      assert lists[0] == [lists[0][0]] + lists[0][1..];
      assert next[1..] == lists[1..];
      assert Flatten(lists) == [lists[0][0]] + Flatten(next);
    } else {
      FlattenHead(lists[1..], w - 1);
      assert next[1..] == lists[1..][w - 1 := lists[1..][w - 1][1..]];
    }
  }

  lemma {:induction false} FlattenOfNone(lists: seq<seq<Update>>)
    requires forall w :: 0 <= w < |lists| ==> lists[w] == []
    ensures Flatten(lists) == []
  {
    if lists != [] {
      FlattenOfNone(lists[1..]);
    }
  }

  lemma {:induction false} InterleavedContents(lists: seq<seq<Update>>, log: seq<Update>)
    requires Interleaves(lists, log)
    ensures multiset(log) == multiset(Flatten(lists))
    decreases |log|
  {
    if log == [] {
      FlattenOfNone(lists);
    } else {
      var w :| 0 <= w < |lists| && Next(lists, log, w);
      InterleavedContents(lists[w := lists[w][1..]], log[1..]);
      FlattenHead(lists, w);
      assert log == [log[0]] + log[1..];
    }
  }

  lemma UpdatesSnoc(es: seq<Entry>, e: Entry, keywords: seq<string>)
    ensures UpdatesOf(es + [e], keywords) == UpdatesOf(es, keywords) + UpdateOf(e, keywords)
  {
    assert UpdateSeqs(es + [e], keywords) == UpdateSeqs(es, keywords) + [UpdateOf(e, keywords)];
    FlattenSnoc(UpdateSeqs(es, keywords), UpdateOf(e, keywords));
  }

  lemma UpdatesJoin(a: seq<Entry>, b: seq<Entry>, keywords: seq<string>)
    ensures UpdatesOf(a + b, keywords) == UpdatesOf(a, keywords) + UpdatesOf(b, keywords)
  {
    assert UpdateSeqs(a + b, keywords) == UpdateSeqs(a, keywords) + UpdateSeqs(b, keywords);
    FlattenTwo(UpdateSeqs(a, keywords), UpdateSeqs(b, keywords));
  }

  lemma {:induction false} UpdatesFlatten(takens: seq<seq<Entry>>, keywords: seq<string>)
    ensures Flatten(UpdateLists(takens, keywords)) == UpdatesOf(Flatten(takens), keywords)
  {
    if takens != [] {
      UpdatesFlatten(takens[1..], keywords);
      assert UpdateLists(takens, keywords)[1..] == UpdateLists(takens[1..], keywords);
      UpdatesJoin(takens[0], Flatten(takens[1..]), keywords);
    }
  }

  lemma UpdatesWithoutOne(b: seq<Entry>, i: nat, keywords: seq<string>)
    requires i < |b|
    ensures multiset(UpdatesOf(b, keywords)) ==
            multiset(UpdatesOf(b[..i] + b[i + 1..], keywords)) + multiset(UpdateOf(b[i], keywords))
  {
    assert b == b[..i] + [b[i]] + b[i + 1..];
    UpdatesJoin(b[..i] + [b[i]], b[i + 1..], keywords);
    UpdatesJoin(b[..i], b[i + 1..], keywords);
    UpdatesSnoc(b[..i], b[i], keywords);
  }

  /** The same lines lead to the same updates, up to their order. */
  lemma {:induction false} UpdatesByContents(a: seq<Entry>, b: seq<Entry>, keywords: seq<string>)
    requires multiset(a) == multiset(b)
    ensures multiset(UpdatesOf(a, keywords)) == multiset(UpdatesOf(b, keywords))
  {
    if a == [] {
      assert |multiset(b)| == |b|;
    } else {
      var i := LastElsewhere(a, b);
      SameWithoutOne(a, b, i);
      UpdatesByContents(a[..|a| - 1], b[..i] + b[i + 1..], keywords);
      UpdatesWithoutOne(b, i, keywords);
      assert a == a[..|a| - 1] + [a[|a| - 1]];
      UpdatesSnoc(a[..|a| - 1], a[|a| - 1], keywords);
    }
  }

  lemma CreditedUpdate(e: Entry, keywords: seq<string>, source: string)
    ensures Credited(UpdateOf(e, keywords), source) == if e.source == source then EntryScore(e, keywords) else 0
  {
    var u := UpdateOf(e, keywords);
    assert u != [] ==> u[..0] == [];
  }

  lemma {:induction false} CreditedTotal(es: seq<Entry>, keywords: seq<string>, source: string)
    ensures Credited(UpdatesOf(es, keywords), source) == SourceTotal(es, keywords, source)
  {
    if es != [] {
      var front, e := es[..|es| - 1], es[|es| - 1];
      CreditedTotal(front, keywords, source);
      CreditedMore(front, e, keywords, source);
      assert es == front + [e];
    }
  }

  lemma CreditedMore(front: seq<Entry>, e: Entry, keywords: seq<string>, source: string)
    ensures Credited(UpdatesOf(front + [e], keywords), source) ==
            Credited(UpdatesOf(front, keywords), source) + if e.source == source then EntryScore(e, keywords) else 0
  {
    UpdatesSnoc(front, e, keywords);
    CreditedJoin(UpdatesOf(front, keywords), UpdateOf(e, keywords), source);
    CreditedUpdate(e, keywords, source);
  }

  lemma {:induction false} UpdatesPositive(es: seq<Entry>, keywords: seq<string>, i: nat)
    requires i < |UpdatesOf(es, keywords)|
    ensures UpdatesOf(es, keywords)[i].hits > 0
  {
    if es != [] {
      var n := |es| - 1;
      assert es == es[..n] + [es[n]];
      UpdatesSnoc(es[..n], es[n], keywords);
      if i < |UpdatesOf(es[..n], keywords)| {
        UpdatesPositive(es[..n], keywords, i);
      }
    }
  }

  /** The same updates name the same sources. */
  lemma SameSources(a: seq<Update>, b: seq<Update>)
    requires multiset(a) == multiset(b)
    ensures |Firsts(a)| == |Firsts(b)| && forall x :: x in Firsts(a) <==> x in Firsts(b)
  {
    FirstsDistinct(a);
    FirstsDistinct(b);
    forall x
      ensures Appears(a, x) <==> Appears(b, x)
    {
      if i :| 0 <= i < |a| && a[i].source == x {
        assert a[i] in multiset(b);
      }
      if i :| 0 <= i < |b| && b[i].source == x {
        assert b[i] in multiset(a);
      }
    }
    SizeOfDistinct(Firsts(a), set x | x in Firsts(a));
    SizeOfDistinct(Firsts(b), set x | x in Firsts(b));
    assert (set x | x in Firsts(a)) == set x | x in Firsts(b);
  }

  lemma {:induction false} SizeOfDistinct(s: seq<string>, elements: set<string>)
    requires Distinct(s) && elements == set x | x in s
    ensures |elements| == |s|
  {
    if s != [] {
      var n := |s| - 1;
      var rest := set x | x in s[..n];
      SizeOfDistinct(s[..n], rest);
      assert elements == rest + {s[n]};
    }
  }

  // ----- the three best

  /** The names and totals are the three largest of a table of source totals, best first; a place without
      a name has no hits, and no source that is left out has more than the last place. */
  ghost predicate ThreeLargest(names: seq<string>, hits: seq<int>, shown: nat, es: seq<Entry>, keywords: seq<string>) {
    && |names| == |hits| == 3 && shown <= 3
    && (forall j :: 0 <= j < shown ==> hits[j] == SourceTotal(es, keywords, names[j]) > 0)
    && (forall j :: shown <= j < 3 ==> hits[j] == 0 && names[j] == "")
    && (forall j, k :: 0 <= j < k < shown ==> names[j] != names[k] && hits[j] >= hits[k])
    && forall source :: source !in names[..shown] ==> SourceTotal(es, keywords, source) <= hits[2]
  }

  /** What Top3 shows of a table that has room for every source. */
  lemma TableTop3(log: seq<Update>, es: seq<Entry>, keywords: seq<string>, names: seq<string>, hits: seq<int>, count: nat,
                  bestNames: seq<string>, bestHits: seq<int>, chosen: seq<nat>)
    requires multiset(log) == multiset(UpdatesOf(es, keywords)) && |Firsts(log)| <= SourceTables.MAX_SOURCES
    requires |names| == |hits| && count <= |names| && names[..count] == Listed(log)
    requires forall i :: 0 <= i < count ==> hits[i] == Credited(log, names[i])
    requires Best(hits, count, chosen) && Shows(bestNames, bestHits, names, hits, chosen)
    ensures ThreeLargest(bestNames, bestHits, |chosen|, es, keywords)
  {
    FirstsDistinct(log);
    forall i | 0 <= i < count
      ensures hits[i] == SourceTotal(es, keywords, names[i]) > 0
    {
      TotalOf(log, es, keywords, names[i]);
      assert names[i] in names[..count];
    }
    forall i, k | 0 <= i < k < count
      ensures names[i] != names[k]
    {
      assert names[..count][i] == names[i] && names[..count][k] == names[k];
    }
    forall source | source !in bestNames[..|chosen|]
      ensures SourceTotal(es, keywords, source) <= bestHits[2]
    {
      TotalOf(log, es, keywords, source);
      if source in Firsts(log) {
        NotShown(names, hits, count, bestNames, bestHits, chosen, source);
      }
    }
    ShownInOrder(names, hits, count, bestNames, bestHits, chosen);
  }

  /** A source's total, which is positive exactly when the table lists it. */
  lemma TotalOf(log: seq<Update>, es: seq<Entry>, keywords: seq<string>, source: string)
    requires multiset(log) == multiset(UpdatesOf(es, keywords))
    ensures Credited(log, source) == SourceTotal(es, keywords, source)
    ensures if source in Firsts(log) then Credited(log, source) > 0 else Credited(log, source) == 0
  {
    CreditedByContents(log, UpdatesOf(es, keywords), source);
    CreditedTotal(es, keywords, source);
    forall i | 0 <= i < |log|
      ensures log[i].hits > 0
    {
      assert log[i] in multiset(UpdatesOf(es, keywords));
      var k :| 0 <= k < |UpdatesOf(es, keywords)| && UpdatesOf(es, keywords)[k] == log[i];
      UpdatesPositive(es, keywords, k);
    }
    CreditedPositive(log, source);
    if source !in Firsts(log) {
      Uncredited(log, source);
    }
  }

  lemma NotShown(names: seq<string>, hits: seq<int>, count: nat, bestNames: seq<string>, bestHits: seq<int>,
                 chosen: seq<nat>, source: string)
    requires |names| == |hits| && count <= |names| && source in names[..count]
    requires Best(hits, count, chosen) && Shows(bestNames, bestHits, names, hits, chosen)
    requires source !in bestNames[..|chosen|]
    ensures exists i :: 0 <= i < count && names[i] == source && hits[i] <= bestHits[2]
  {
    var i :| 0 <= i < count && names[..count][i] == source;
    forall j | 0 <= j < |chosen|
      ensures chosen[j] != i
    {
      assert bestNames[..|chosen|][j] == names[chosen[j]];
    }
    assert i !in chosen;
  }

  lemma ShownInOrder(names: seq<string>, hits: seq<int>, count: nat, bestNames: seq<string>, bestHits: seq<int>, chosen: seq<nat>)
    requires |names| == |hits| && count <= |names| && forall i, k :: 0 <= i < k < count ==> names[i] != names[k]
    requires Best(hits, count, chosen) && Shows(bestNames, bestHits, names, hits, chosen)
    ensures forall j, k :: 0 <= j < k < |chosen| ==> bestNames[j] != bestNames[k] && bestHits[j] >= bestHits[k]
  {
    forall j, k | 0 <= j < k < |chosen|
      ensures bestNames[j] != bestNames[k] && bestHits[j] >= bestHits[k]
    {
      assert Before(hits, chosen[j], chosen[k]);
    }
  }

  // ----- a published level

  ghost function LevelLines(c: Config, l: nat): seq<Entry> {
    Selected(Flatten(c.files), OfLevel(l))
  }

  /** The numbers of a record are the level's weight times the places at which keywords stand in that
      level's lines of these files. */
  ghost predicate RecordsHits(r: LevelResult, lines: seq<Entry>, l: nat)
    reads r, r.perKeyword
  {
    && r.total == (4 - l) * |Hits(lines, r.keywords, OfLevel(l))| && r.perKeyword.Length == |r.keywords|
    && forall k :: 0 <= k < |r.keywords| ==> r.perKeyword[k] == (4 - l) * |Hits(lines, [r.keywords[k]], OfLevel(l))|
  }

  /** The workers of a published level have taken lines of that level only. */
  lemma TakenOfLevel(c: Config, s: State, l: nat, w: nat, i: nat)
    requires ConfigOk(c) && Reachable(c, s) && Shaped(s) && l < LEVELS && s.levels[l].ready
    requires w < |s.levels[l].workers| && i < |s.levels[l].workers[w].taken|
    ensures s.levels[l].workers[w].taken[i].level == l
  {
    var e := s.levels[l].workers[w].taken[i];
    WorkersTakeEachOnce(c, s, l, e);
    SumPositive(TakenList(s.levels[l].workers, e), w);
    assert e in multiset(s.levels[l].workers[w].taken);
  }

  /** So each thread's own total counts the places in the lines that it took. */
  lemma ThreadPoints(c: Config, s: State, l: nat, w: nat, keywords: seq<string>)
    requires ConfigOk(c) && Reachable(c, s) && Shaped(s) && l < LEVELS && s.levels[l].ready
    requires w < |s.levels[l].workers|
    ensures TotalOver(s.levels[l].workers[w].taken, keywords) == (4 - l) * |AllHits(s.levels[l].workers[w].taken, keywords)|
  {
    var taken := s.levels[l].workers[w].taken;
    forall i | 0 <= i < |taken|
      ensures taken[i].level == l
    {
      TakenOfLevel(c, s, l, w, i);
    }
    LinePoints(taken, keywords, l);
  }

  lemma LinePoints(es: seq<Entry>, keywords: seq<string>, l: nat)
    requires l < LEVELS && forall i :: 0 <= i < |es| ==> es[i].level == l
    ensures TotalOver(es, keywords) == (4 - l) * |AllHits(es, keywords)|
  {
    SelectedAll(es, OfLevel(l));
    LevelPoints(es, keywords, OfLevel(l), l);
    assert Hits(es, keywords, OfLevel(l)) == AllHits(es, keywords);
  }

  lemma {:induction false} SelectedAll(es: seq<Entry>, keep: Entry -> bool)
    requires forall i :: 0 <= i < |es| ==> keep(es[i])
    ensures Selected(es, keep) == es
  {
    if es != [] {
      SelectedAll(es[..|es| - 1], keep);
    }
  }

  /** The record of a published level, filled by its workers' destructors in any order of their exits, is
      that of the sequential pass, and the threads' contributions add up to its total. */
  lemma PublishedRecord(c: Config, s: State, l: nat, order: seq<nat>, r: LevelResult)
    requires ConfigOk(c) && Reachable(c, s) && Shaped(s) && l < LEVELS && s.levels[l].ready
    requires var takens := TakenSeqs(s.levels[l].workers);
             && Permutation(order, |takens|) && r.Holds(Flatten(InOrder(takens, order)))
             && r.perThread.Length == |takens|
             && forall w :: 0 <= w < |takens| ==> r.perThread[w] == TotalOver(takens[w], r.keywords)
    ensures r.entries == |LevelLines(c, l)| && r.total == TotalOver(LevelLines(c, l), r.keywords)
    ensures forall k :: 0 <= k < |r.keywords| ==> r.perKeyword[k] == ScoreOver(LevelLines(c, l), r.keywords[k])
    ensures RecordsHits(r, Flatten(c.files), l)
    ensures ThreadTotals(TakenSeqs(s.levels[l].workers), r.keywords) == r.total
    ensures forall w :: 0 <= w < r.perThread.Length ==>
              r.perThread[w] == (4 - l) * |AllHits(s.levels[l].workers[w].taken, r.keywords)|
  {
    forall w | 0 <= w < r.perThread.Length
      ensures r.perThread[w] == (4 - l) * |AllHits(s.levels[l].workers[w].taken, r.keywords)|
    {
      ThreadPoints(c, s, l, w, r.keywords);
    }
    LevelPoints(Flatten(c.files), r.keywords, OfLevel(l), l);
    var takens := TakenSeqs(s.levels[l].workers);
    var done := Flatten(InOrder(takens, order));
    LevelIsSequential(c, s, l, r.keywords);
    AnyExitOrder(takens, order);
    TotalDependsOnContents(done, Flatten(takens), r.keywords);
    forall k | 0 <= k < |r.keywords|
      ensures ScoreOver(done, r.keywords[k]) == ScoreOver(Flatten(takens), r.keywords[k])
    {
      ScoreDependsOnContents(done, Flatten(takens), r.keywords[k]);
    }
    ThreadsAddUp(takens, r.keywords);
  }

  function OfSource(source: string): Entry -> bool {
    (e: Entry) => e.source == source
  }

  lemma {:induction false} SourceTotalSelected(es: seq<Entry>, keywords: seq<string>, keep: Entry -> bool, source: string)
    ensures SourceTotal(Selected(es, keep), keywords, source) == TotalOver(Selected(es, Both(keep, OfSource(source))), keywords)
  {
    if es != [] {
      var n := |es| - 1;
      SourceTotalSelected(es[..n], keywords, keep, source);
      SelectedSnoc(es[..n], es[n], keywords, Both(keep, OfSource(source)));
      assert es == es[..n] + [es[n]];
      if keep(es[n]) {
        assert Selected(es, keep)[..|Selected(es, keep)| - 1] == Selected(es[..n], keep);
      } else {
        assert Selected(es, keep) == Selected(es[..n], keep);
      }
    }
  }

  /** What a source has in a level: the level's weight for each place at which a keyword stands in its lines. */
  lemma SourcePoints(es: seq<Entry>, keywords: seq<string>, l: nat, source: string)
    requires l < LEVELS
    ensures SourceTotal(Selected(es, OfLevel(l)), keywords, source) ==
            (4 - l) * |Hits(es, keywords, Both(OfLevel(l), OfSource(source)))|
  {
    SourceTotalSelected(es, keywords, OfLevel(l), source);
    LevelPoints(es, keywords, Both(OfLevel(l), OfSource(source)), l);
  }

  /** The places shown have the most points of all sources, by places at which keywords stand. */
  ghost predicate MostHits(names: seq<string>, hits: seq<int>, shown: nat, lines: seq<Entry>, keywords: seq<string>, l: nat) {
    && |names| == |hits| == 3 && shown <= 3 && (forall j, k :: 0 <= j < k < 3 ==> hits[j] >= hits[k])
    && (forall j :: 0 <= j < shown ==>
          hits[j] == (4 - l) * |Hits(lines, keywords, Both(OfLevel(l), OfSource(names[j])))| > 0)
    && forall source :: source !in names[..shown] ==>
         (4 - l) * |Hits(lines, keywords, Both(OfLevel(l), OfSource(source)))| <= hits[2]
  }

  lemma LargestHaveMostHits(names: seq<string>, hits: seq<int>, shown: nat, lines: seq<Entry>, keywords: seq<string>, l: nat)
    requires l < LEVELS && ThreeLargest(names, hits, shown, Selected(lines, OfLevel(l)), keywords)
    ensures MostHits(names, hits, shown, lines, keywords, l)
  {
    forall source: string
      ensures SourceTotal(Selected(lines, OfLevel(l)), keywords, source) ==
              (4 - l) * |Hits(lines, keywords, Both(OfLevel(l), OfSource(source)))|
    {
      SourcePoints(lines, keywords, l, source);
    }
  }

  /** The sources of a level that score at all. */
  ghost function ScoringSources(c: Config, l: nat, keywords: seq<string>): seq<string> {
    Firsts(UpdatesOf(LevelLines(c, l), keywords))
  }

  /** They are those with a keyword standing in one of their lines, each listed once. */
  lemma ScoringSourcesHaveHits(c: Config, l: nat, keywords: seq<string>, source: string)
    requires l < LEVELS
    ensures source in ScoringSources(c, l, keywords) <==>
            Hits(Flatten(c.files), keywords, Both(OfLevel(l), OfSource(source))) != {}
    ensures Distinct(ScoringSources(c, l, keywords))
  {
    ListedScores(LevelLines(c, l), keywords, source);
    SourcePoints(Flatten(c.files), keywords, l, source);
    Weighted(4 - l, |Hits(Flatten(c.files), keywords, Both(OfLevel(l), OfSource(source)))|);
  }

  lemma ListedScores(es: seq<Entry>, keywords: seq<string>, source: string)
    ensures source in Firsts(UpdatesOf(es, keywords)) <==> SourceTotal(es, keywords, source) > 0
    ensures Distinct(Firsts(UpdatesOf(es, keywords)))
  {
    TotalOf(UpdatesOf(es, keywords), es, keywords, source);
    FirstsDistinct(UpdatesOf(es, keywords));
  }

  lemma Weighted(w: nat, n: nat)
    requires w > 0
    ensures w * n > 0 <==> n > 0
  {
  }

  lemma PublishedUpdates(c: Config, s: State, l: nat, keywords: seq<string>, log: seq<Update>)
    requires ConfigOk(c) && Reachable(c, s) && Shaped(s) && l < LEVELS && s.levels[l].ready
    requires Interleaves(UpdateLists(TakenSeqs(s.levels[l].workers), keywords), log)
    ensures multiset(log) == multiset(UpdatesOf(LevelLines(c, l), keywords))
    ensures |Firsts(log)| == |ScoringSources(c, l, keywords)|
  {
    var takens := TakenSeqs(s.levels[l].workers);
    InterleavedContents(UpdateLists(takens, keywords), log);
    UpdatesFlatten(takens, keywords);
    LevelIsSequential(c, s, l, keywords);
    UpdatesByContents(Flatten(takens), LevelLines(c, l), keywords);
    SameSources(log, UpdatesOf(LevelLines(c, l), keywords));
  }

  /** What the table of a published level shows. */
  lemma PublishedTable(c: Config, s: State, l: nat, keywords: seq<string>, log: seq<Update>,
                       names: seq<string>, hits: seq<int>, count: nat,
                       bestNames: seq<string>, bestHits: seq<int>, chosen: seq<nat>)
    requires ConfigOk(c) && Reachable(c, s) && Shaped(s) && l < LEVELS && s.levels[l].ready
    requires Interleaves(UpdateLists(TakenSeqs(s.levels[l].workers), keywords), log)
    requires |ScoringSources(c, l, keywords)| <= SourceTables.MAX_SOURCES
    requires |names| == |hits| && count <= |names| && names[..count] == Listed(log)
    requires forall i :: 0 <= i < count ==> hits[i] == Credited(log, names[i])
    requires Best(hits, count, chosen) && Shows(bestNames, bestHits, names, hits, chosen)
    ensures ThreeLargest(bestNames, bestHits, |chosen|, LevelLines(c, l), keywords)
    ensures |chosen| == if |ScoringSources(c, l, keywords)| < 3 then |ScoringSources(c, l, keywords)| else 3
  {
    PublishedUpdates(c, s, l, keywords, log);
    TableTop3(log, LevelLines(c, l), keywords, names, hits, count, bestNames, bestHits, chosen);
  }

  lemma PublishedPositive(c: Config, s: State, l: nat, keywords: seq<string>, log: seq<Update>)
    requires ConfigOk(c) && Reachable(c, s) && Shaped(s) && l < LEVELS && s.levels[l].ready
    requires Interleaves(UpdateLists(TakenSeqs(s.levels[l].workers), keywords), log)
    ensures forall i :: 0 <= i < |log| ==> log[i].hits > 0
  {
    PublishedUpdates(c, s, l, keywords, log);
    forall i | 0 <= i < |log|
      ensures log[i].hits > 0
    {
      LogPositive(log, LevelLines(c, l), keywords, i);
    }
  }

  /** The top 3 of a published level, whatever way the workers' updates interleaved: with at most 256
      sources that score, they are the three largest totals of the sequential pass. */
  method PublishedTop3(ghost c: Config, ghost s: State, ghost l: nat, ghost keywords: seq<string>,
                       table: SourceTable, ghost log: seq<Update>)
    returns (bestNames: array<string>, bestHits: array<int>, ghost shown: nat)
    requires ConfigOk(c) && Reachable(c, s) && Shaped(s) && l < LEVELS && s.levels[l].ready
    requires Interleaves(UpdateLists(TakenSeqs(s.levels[l].workers), keywords), log) && table.Holds(log)
    requires |ScoringSources(c, l, keywords)| <= SourceTables.MAX_SOURCES
    ensures ThreeLargest(bestNames[..], bestHits[..], shown, LevelLines(c, l), keywords)
    ensures MostHits(bestNames[..], bestHits[..], shown, Flatten(c.files), keywords, l)
    ensures shown == if |ScoringSources(c, l, keywords)| < 3 then |ScoringSources(c, l, keywords)| else 3
  {
    PublishedPositive(c, s, l, keywords, log);
    ghost var chosen;
    bestNames, bestHits, chosen := table.Top3(log);
    PublishedTable(c, s, l, keywords, log, table.names[..], table.hits[..], table.count, bestNames[..], bestHits[..], chosen);
    shown := |chosen|;
    LargestHaveMostHits(bestNames[..], bestHits[..], shown, Flatten(c.files), keywords, l);
  }

  lemma LogPositive(log: seq<Update>, es: seq<Entry>, keywords: seq<string>, i: nat)
    requires multiset(log) == multiset(UpdatesOf(es, keywords)) && i < |log|
    ensures log[i].hits > 0
  {
    assert log[i] in multiset(UpdatesOf(es, keywords));
    var k :| 0 <= k < |UpdatesOf(es, keywords)| && UpdatesOf(es, keywords)[k] == log[i];
    UpdatesPositive(es, keywords, k);
  }

  // ----- from the texts of the files

  /** The parser stamps the reader's number on an entry and accepts four levels. */
  ghost predicate ParserOk(parse: (nat, string) -> Option<Entry>) {
    forall r, line :: parse(r, line).Some? ==> parse(r, line).value.reader == r && parse(r, line).value.level < LEVELS
  }

  /** One sequential pass over all files: their valid lines, in order. */
  function SequentialPass(texts: seq<string>, parse: (nat, string) -> Option<Entry>): seq<seq<Entry>> {
    seq(|texts|, r requires 0 <= r < |texts| => Parsed(Lines(texts[r]), line => parse(r, line)))
  }

  /** What the threads of each reader push. */
  function Shares(texts: seq<string>, threads: nat, parse: (nat, string) -> Option<Entry>): seq<seq<seq<Entry>>> {
    seq(|texts|, r requires 0 <= r < |texts| => ShareList(texts[r], threads, threads, line => parse(r, line)))
  }

  lemma {:induction false} ParsedOwn(lines: seq<string>, r: nat, parse: (nat, string) -> Option<Entry>, i: nat)
    requires ParserOk(parse) && i < |Parsed(lines, line => parse(r, line))|
    ensures Parsed(lines, line => parse(r, line))[i].reader == r && Parsed(lines, line => parse(r, line))[i].level < LEVELS
  {
    var n := |lines| - 1;
    if i < |Parsed(lines[..n], line => parse(r, line))| {
      ParsedOwn(lines[..n], r, parse, i);
    } else {
      assert parse(r, lines[n]).Some?;
    }
  }

  /** The byte ranges of the reader threads start a run over the files' lines. */
  lemma TextsStart(c: Config, texts: seq<string>, parse: (nat, string) -> Option<Entry>)
    requires ParserOk(parse) && c.files == SequentialPass(texts, parse) && texts != []
    requires c.threads > 0 && c.workers > 0 && c.capacityA > 0 && c.capacityB > 0 && c.capacityD > 0
    ensures ConfigOk(c) && Init(c, StartState(c, Shares(texts, c.threads, parse)))
  {
    forall r, i | 0 <= r < |c.files| && 0 <= i < |c.files[r]|
      ensures c.files[r][i].reader == r && c.files[r][i].level < LEVELS
    {
      ParsedOwn(Lines(texts[r]), r, parse, i);
    }
    var shares := Shares(texts, c.threads, parse);
    forall r | 0 <= r < |shares|
      ensures |shares[r]| == c.threads && Flatten(shares[r]) == c.files[r]
    {
      SharesArePushed(texts[r], c.threads, c.threads, line => parse(r, line));
    }
    StartIsInitial(c, shares);
  }

  /** A run that starts with the shares of the files' texts. */
  ghost predicate RunsOver(c: Config, texts: seq<string>, parse: (nat, string) -> Option<Entry>, s: State) {
    && ParserOk(parse) && c.files == SequentialPass(texts, parse) && texts != []
    && c.threads > 0 && c.workers > 0 && c.capacityA > 0 && c.capacityB > 0 && c.capacityD > 0
    && exists states, steps ::
         Run(c, states, steps) && states[0] == StartState(c, Shares(texts, c.threads, parse)) && states[|states| - 1] == s
  }

  /** From file texts to published scores: whatever the interleaving, the thread and worker counts and the
      capacities, the record of a published level is that of reading the files one after the other. */
  lemma EndToEnd(c: Config, texts: seq<string>, parse: (nat, string) -> Option<Entry>, s: State, l: nat, order: seq<nat>, r: LevelResult)
    requires RunsOver(c, texts, parse, s) && Shaped(s) && l < LEVELS && s.levels[l].ready
    requires var takens := TakenSeqs(s.levels[l].workers);
             && Permutation(order, |takens|) && r.Holds(Flatten(InOrder(takens, order)))
             && r.perThread.Length == |takens|
             && forall w :: 0 <= w < |takens| ==> r.perThread[w] == TotalOver(takens[w], r.keywords)
    ensures RecordsHits(r, Flatten(SequentialPass(texts, parse)), l)
    ensures var lines := Selected(Flatten(SequentialPass(texts, parse)), OfLevel(l));
            && r.entries == |lines| && r.total == TotalOver(lines, r.keywords)
            && (forall k :: 0 <= k < |r.keywords| ==> r.perKeyword[k] == ScoreOver(lines, r.keywords[k]))
            && ThreadTotals(TakenSeqs(s.levels[l].workers), r.keywords) == r.total
  {
    TextsStart(c, texts, parse);
    PublishedRecord(c, s, l, order, r);
  }
}
