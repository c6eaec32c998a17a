/** The published scores equal those of one sequential pass over the files. */
module PipelineScores {
  import opened Basics
  import opened Counting
  import opened Pipeline
  import opened PipelineFlow
  import opened PipelineResults
  import opened Scores
  import opened KeywordHits

  /** The lines that a level's workers have taken, worker by worker. */
  function TakenSeqs(workers: seq<Worker>): (r: seq<seq<Entry>>)
    ensures |r| == |workers|
  {
    seq(|workers|, w requires 0 <= w < |workers| => workers[w].taken)
  }

  function Selected(es: seq<Entry>, keep: Entry -> bool): seq<Entry> {
    if es == [] then [] else Selected(es[..|es| - 1], keep) + if keep(es[|es| - 1]) then [es[|es| - 1]] else []
  }

  lemma {:induction false} SelectedOcc(es: seq<Entry>, keep: Entry -> bool, e: Entry)
    ensures Occ(Selected(es, keep), e) == if keep(e) then Occ(es, e) else 0
  {
    if es != [] {
      var n := |es| - 1;
      SelectedOcc(es[..n], keep, e);
      assert es == es[..n] + [es[n]];
      OccSnoc(es[..n], es[n], e);
    }
  }

  function Both(f: Entry -> bool, g: Entry -> bool): Entry -> bool {
    e => f(e) && g(e)
  }

  function OfLevel(l: nat): Entry -> bool {
    (e: Entry) => e.level == l
  }

  function OfPriority(c: Config): Entry -> bool {
    (e: Entry) => e.source in c.priority
  }

  /** The places in kept lines of one level. */
  ghost function HitCount(es: seq<Entry>, keywords: seq<string>, keep: Entry -> bool, l: nat): nat {
    |Hits(es, keywords, Both(keep, OfLevel(l)))|
  }

  /** Four for each hit in a kept ERROR line, three in a WARN line, two in an INFO line, one in a DEBUG line. */
  ghost function Points(es: seq<Entry>, keywords: seq<string>, keep: Entry -> bool): nat {
    4 * HitCount(es, keywords, keep, 0) + 3 * HitCount(es, keywords, keep, 1)
    + 2 * HitCount(es, keywords, keep, 2) + HitCount(es, keywords, keep, 3)
  }

  lemma CountSnoc(es: seq<Entry>, e: Entry, keywords: seq<string>, keep: Entry -> bool, l: nat)
    ensures HitCount(es + [e], keywords, keep, l) ==
            HitCount(es, keywords, keep, l) + if keep(e) && e.level == l then |LineHits(|es|, e, keywords)| else 0
  {
    HitsSnoc(es, e, keywords, Both(keep, OfLevel(l)));
  }

  lemma PointsSnoc(es: seq<Entry>, e: Entry, keywords: seq<string>, keep: Entry -> bool)
    ensures Points(es + [e], keywords, keep) == Points(es, keywords, keep) + if keep(e) then EntryScore(e, keywords) else 0
  {
    CountSnoc(es, e, keywords, keep, 0);
    CountSnoc(es, e, keywords, keep, 1);
    CountSnoc(es, e, keywords, keep, 2);
    CountSnoc(es, e, keywords, keep, 3);
    EntryPoints(|es|, e, keywords);
    WeightTimes(e.level, |LineHits(|es|, e, keywords)|);
  }

  lemma WeightTimes(level: nat, n: nat)
    ensures LevelWeight(level) * n ==
            if level == 0 then 4 * n else if level == 1 then 3 * n else if level == 2 then 2 * n else if level == 3 then n else 0
  {
    var w := LevelWeight(level);
    assert level > 3 ==> w == 0;
  }

  lemma SelectedSnoc(es: seq<Entry>, e: Entry, keywords: seq<string>, keep: Entry -> bool)
    ensures TotalOver(Selected(es + [e], keep), keywords) ==
            TotalOver(Selected(es, keep), keywords) + if keep(e) then EntryScore(e, keywords) else 0
  {
    assert (es + [e])[..|es|] == es;
    if keep(e) {
      assert Selected(es + [e], keep) == Selected(es, keep) + [e];
      TotalOverJoin(Selected(es, keep), [e], keywords);
      TotalOne(e, keywords);
    } else {
      assert Selected(es + [e], keep) == Selected(es, keep);
    }
  }

  lemma PointsNone(keywords: seq<string>, keep: Entry -> bool)
    ensures Points([], keywords, keep) == 0
  {
    assert forall l :: Hits([], keywords, Both(keep, OfLevel(l))) == {};
  }

  /** The total of the kept lines counts the places at which a keyword stands, by level. */
  lemma {:induction false} SelectedPoints(es: seq<Entry>, keywords: seq<string>, keep: Entry -> bool)
    ensures TotalOver(Selected(es, keep), keywords) == Points(es, keywords, keep)
  {
    if es == [] {
      PointsNone(keywords, keep);
    } else {
      var n := |es| - 1;
      assert es == es[..n] + [es[n]];
      SelectedPoints(es[..n], keywords, keep);
      PointsSnoc(es[..n], es[n], keywords, keep);
      SelectedSnoc(es[..n], es[n], keywords, keep);
    }
  }

  /** When all kept lines are of one level, its weight counts for every hit. */
  lemma PointsOfLevel(es: seq<Entry>, keywords: seq<string>, keep: Entry -> bool, l: nat)
    requires l < LEVELS && forall e :: keep(e) ==> e.level == l
    ensures Points(es, keywords, keep) == (4 - l) * |Hits(es, keywords, keep)|
  {
    HitsSame(es, keywords, keep, Both(keep, OfLevel(l)));
    forall m: nat | m != l
      ensures HitCount(es, keywords, keep, m) == 0
    {
      HitsNone(es, keywords, Both(keep, OfLevel(m)));
    }
  }

  /** So a level's total, and its score for one keyword, are the level's weight times the number of places. */
  lemma LevelPoints(es: seq<Entry>, keywords: seq<string>, keep: Entry -> bool, l: nat)
    requires l < LEVELS && forall e :: keep(e) ==> e.level == l
    ensures TotalOver(Selected(es, keep), keywords) == (4 - l) * |Hits(es, keywords, keep)|
    ensures forall k :: 0 <= k < |keywords| ==>
              ScoreOver(Selected(es, keep), keywords[k]) == (4 - l) * |Hits(es, [keywords[k]], keep)|
  {
    SelectedPoints(es, keywords, keep);
    PointsOfLevel(es, keywords, keep, l);
    forall k | 0 <= k < |keywords|
      ensures ScoreOver(Selected(es, keep), keywords[k]) == (4 - l) * |Hits(es, [keywords[k]], keep)|
    {
      SelectedPoints(es, [keywords[k]], keep);
      PointsOfLevel(es, [keywords[k]], keep, l);
      TotalByKeyword(Selected(es, keep), [keywords[k]]);
      TotalNoKeywords(Selected(es, keep));
      assert [keywords[k]][..0] == [];
    }
  }

  lemma SameContents(a: seq<Entry>, b: seq<Entry>)
    requires forall e :: Occ(a, e) == Occ(b, e)
    ensures multiset(a) == multiset(b)
  {
    forall e
      ensures multiset(a)[e] == multiset(b)[e]
    {
      assert Occ(a, e) == Occ(b, e);
    }
  }

  /** A published level: its workers' lines are, as a collection, the lines of that level in all files;
      so the entry count, every keyword score and the total are those of the sequential pass. */
  lemma LevelIsSequential(c: Config, s: State, l: nat, keywords: seq<string>)
    requires ConfigOk(c) && Reachable(c, s) && Shaped(s) && l < LEVELS && s.levels[l].ready
    ensures var taken := Flatten(TakenSeqs(s.levels[l].workers));
            var lines := Selected(Flatten(c.files), OfLevel(l));
            && multiset(taken) == multiset(lines) && |taken| == |lines|
            && TotalOver(taken, keywords) == TotalOver(lines, keywords)
            && forall k :: 0 <= k < |keywords| ==> ScoreOver(taken, keywords[k]) == ScoreOver(lines, keywords[k])
  {
    var seqs := TakenSeqs(s.levels[l].workers);
    var taken := Flatten(seqs);
    var keep := OfLevel(l);
    var lines := Selected(Flatten(c.files), keep);
    forall e
      ensures Occ(taken, e) == Occ(lines, e)
    {
      WorkersTakeEachOnce(c, s, l, e);
      FlattenOcc(seqs, TakenList(s.levels[l].workers, e), e);
      SelectedOcc(Flatten(c.files), keep, e);
    }
    SameContents(taken, lines);
    TotalDependsOnContents(taken, lines, keywords);
    forall k | 0 <= k < |keywords|
      ensures ScoreOver(taken, keywords[k]) == ScoreOver(lines, keywords[k])
    {
      ScoreDependsOnContents(taken, lines, keywords[k]);
    }
  }

  /** The high-priority score is that of the sequential pass over the lines of priority sources. */
  lemma HighPriorityIsSequential(c: Config, s: State, keywords: seq<string>)
    requires ConfigOk(c) && Reachable(c, s) && !s.aggregator.Draining?
    ensures var lines := Selected(Flatten(c.files), OfPriority(c));
            TotalOver(s.scored, keywords) == TotalOver(lines, keywords) && |s.scored| == |lines|
    ensures TotalOver(s.scored, keywords) == Points(Flatten(c.files), keywords, OfPriority(c))
  {
    var keep := OfPriority(c);
    var lines := Selected(Flatten(c.files), keep);
    forall e
      ensures Occ(s.scored, e) == Occ(lines, e)
    {
      AggregatorScoresPriority(c, s, e);
      SelectedOcc(Flatten(c.files), keep, e);
    }
    SameContents(s.scored, lines);
    SelectedPoints(Flatten(c.files), keywords, keep);
    TotalDependsOnContents(s.scored, lines, keywords);
  }

  ghost function ThreadTotals(seqs: seq<seq<Entry>>, keywords: seq<string>): nat {
    if seqs == [] then 0
    else ThreadTotals(seqs[..|seqs| - 1], keywords) + TotalOver(seqs[|seqs| - 1], keywords)
  }

  /** The per-thread contributions add up to the level's total. */
  lemma {:induction false} ThreadsAddUp(seqs: seq<seq<Entry>>, keywords: seq<string>)
    ensures ThreadTotals(seqs, keywords) == TotalOver(Flatten(seqs), keywords)
  {
    if seqs != [] {
      var n := |seqs| - 1;
      ThreadsAddUp(seqs[..n], keywords);
      assert seqs == seqs[..n] + [seqs[n]];
      FlattenSnoc(seqs[..n], seqs[n]);
      TotalOverJoin(Flatten(seqs[..n]), seqs[n], keywords);
    }
  }
}
