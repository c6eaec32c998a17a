/** The pattern language of the file searches: literal letters, and letters followed by '+', without
    regard to case. HW1/HW1.c:71-89 matches greedily, HW2/pattern.c:8-78 by backtracking. */
module Patterns {
  import opened Basics

  datatype Element = One(ch: char) | Many(ch: char)

  function Lower(ch: char): char {
    if 'A' <= ch <= 'Z' then (ch as int - 'A' as int + 'a' as int) as char else ch
  }

  predicate Same(a: char, b: char) {
    Lower(a) == Lower(b)
  }

  /** How a pattern is read: a letter with a '+' behind it is one element, any other letter too. */
  function Elements(pattern: string): (es: seq<Element>)
    ensures |es| <= |pattern|
  {
    if pattern == [] then []
    else if |pattern| > 1 && pattern[1] == '+' then [Many(pattern[0])] + Elements(pattern[2..])
    else [One(pattern[0])] + Elements(pattern[1..])
  }

  /** The elements written down again: a repeated letter has a '+' behind it. */
  function Written(es: seq<Element>): string {
    if es == [] then [] else (if es[0].One? then [es[0].ch] else [es[0].ch, '+']) + Written(es[1..])
  }

  /** The elements are the pattern itself, read so that no '+' stands for itself behind a single letter. */
  lemma {:induction false} ElementsWritten(pattern: string)
    ensures Written(Elements(pattern)) == pattern
    ensures forall i :: 0 <= i < |Elements(pattern)| - 1 && Elements(pattern)[i].One? ==> Elements(pattern)[i + 1].ch != '+'
  {
    if pattern != [] {
      var es := Elements(pattern);
      if es[0].Many? {
        ElementsWritten(pattern[2..]);
        assert es[1..] == Elements(pattern[2..]) && pattern == [pattern[0], '+'] + pattern[2..];
      } else {
        ElementsWritten(pattern[1..]);
        assert es[1..] == Elements(pattern[1..]) && pattern == [pattern[0]] + pattern[1..];
      }
    }
  }

  /** A piece of text that an element stands for: one letter, or one or more. */
  ghost predicate Fits(e: Element, piece: string) {
    && piece != [] && (e.One? ==> |piece| == 1)
    && forall i :: 0 <= i < |piece| ==> Same(piece[i], e.ch)
  }

  /** The language of a pattern: texts made of one fitting piece for each element, in order. */
  ghost predicate InLanguage(es: seq<Element>, text: string) {
    exists pieces: seq<string> :: Splits(es, text, pieces)
  }

  ghost predicate Splits(es: seq<Element>, text: string, pieces: seq<string>) {
    && |pieces| == |es| && Flatten(pieces) == text
    && forall i :: 0 <= i < |es| ==> Fits(es[i], pieces[i])
  }

  lemma LanguageEmpty(text: string)
    ensures InLanguage([], text) <==> text == []
  {
    if text == [] {
      assert Splits([], text, []);
    }
  }

  /** A text is in the language when some prefix fits the first element and the remainder the others. */
  lemma LanguageFirst(es: seq<Element>, text: string)
    requires es != []
    ensures InLanguage(es, text) <==> exists k :: 0 <= k <= |text| && Fits(es[0], text[..k]) && InLanguage(es[1..], text[k..])
  {
    if InLanguage(es, text) {
      var pieces: seq<string> :| Splits(es, text, pieces);
      var k := |pieces[0]|;
      assert text[..k] == pieces[0] && text[k..] == Flatten(pieces[1..]);
      assert Splits(es[1..], text[k..], pieces[1..]);
    }
    if k :| 0 <= k <= |text| && Fits(es[0], text[..k]) && InLanguage(es[1..], text[k..]) {
      var rest: seq<string> :| Splits(es[1..], text[k..], rest);
      var pieces := [text[..k]] + rest;
      assert pieces[1..] == rest && text == text[..k] + text[k..];
      assert Splits(es, text, pieces);
    }
  }

  /** For a single letter the prefix has length one. */
  lemma LanguageOne(es: seq<Element>, text: string)
    requires es != [] && es[0].One?
    ensures InLanguage(es, text) <==> text != [] && Same(es[0].ch, text[0]) && InLanguage(es[1..], text[1..])
  {
    LanguageFirst(es, text);
    if text != [] {
      assert text[..1][0] == text[0];
    }
  }

  /** For a repeated letter the prefix is any non-empty part of the run of that letter. */
  lemma LanguageMany(es: seq<Element>, text: string, end: nat)
    requires es != [] && es[0].Many? && end <= |text|
    requires forall i :: 0 <= i < end ==> Same(text[i], es[0].ch)
    requires end < |text| ==> !Same(text[end], es[0].ch)
    ensures InLanguage(es, text) <==> exists k :: 1 <= k <= end && InLanguage(es[1..], text[k..])
  {
    LanguageFirst(es, text);
    forall k | 0 <= k <= |text| && Fits(es[0], text[..k])
      ensures 1 <= k <= end
    {
      assert forall i :: 0 <= i < k ==> text[..k][i] == text[i];
    }
    if k :| 1 <= k <= end && InLanguage(es[1..], text[k..]) {
      assert Fits(es[0], text[..k]);
    }
  }

  // ----- HW2: backtracking

  /** match_rec accepts exactly the language of its pattern. */
  method MatchRec(pattern: string, text: string) returns (matched: bool)
    ensures matched == InLanguage(Elements(pattern), text)
    decreases |pattern|
  {
    ghost var es := Elements(pattern);
    LanguageEmpty(text);
    if pattern == [] {
      return text == [];
    }
    if |pattern| > 1 && pattern[1] == '+' {
      assert es[1..] == Elements(pattern[2..]);
      var end := 0;
      while end < |text| && Same(text[end], pattern[0])
        invariant end <= |text| && forall i :: 0 <= i < end ==> Same(text[i], pattern[0])
      {
        end := end + 1;
      }
      LanguageMany(es, text, end);
      if end == 0 {
        return false;
      }
      var back := end;
      while back >= 1
        invariant 0 <= back <= end
        invariant forall k :: back < k <= end ==> !InLanguage(es[1..], text[k..])
      {
        var found := MatchRec(pattern[2..], text[back..]);
        if found {
          return true;
        }
        back := back - 1;
      }
      return false;
    }
    assert es[1..] == Elements(pattern[1..]);
    LanguageOne(es, text);
    if text == [] || !Same(pattern[0], text[0]) {
      return false;
    }
    matched := MatchRec(pattern[1..], text[1..]);
  }

  const STEM_MAX: nat := 255

  /** The name up to its first dot. */
  function UpToDot(name: string): (stem: string)
    ensures |stem| <= |name| && stem == name[..|stem|] && '.' !in stem
    ensures |stem| < |name| ==> name[|stem|] == '.'
  {
    if name == [] || name[0] == '.' then [] else [name[0]] + UpToDot(name[1..])
  }

  /** The stem as it fits the buffer: everything up to the first dot, for stems shorter than 256. */
  function Stem(name: string): (stem: string)
    ensures |stem| <= STEM_MAX && |stem| <= |name| && stem == name[..|stem|] && '.' !in stem
    ensures |stem| < STEM_MAX && |stem| < |name| ==> name[|stem|] == '.'
  {
    var s := UpToDot(name);
    if |s| > STEM_MAX then s[..STEM_MAX] else s
  }

  /** A maximal run of letters and digits. */
  ghost predicate Segment(stem: string, i: nat, j: nat) {
    && i < j <= |stem| && (forall k :: i <= k < j ==> IsAlnum(stem[k]))
    && (i == 0 || !IsAlnum(stem[i - 1])) && (j == |stem| || !IsAlnum(stem[j]))
  }

  ghost predicate SegmentMatches(es: seq<Element>, stem: string, i: nat, j: nat) {
    Segment(stem, i, j) && InLanguage(es, stem[i..j])
  }

  /** The whole name, its stem, or one of the stem's segments is in the language. */
  ghost predicate Accepted(es: seq<Element>, name: string) {
    InLanguage(es, name) || InLanguage(es, Stem(name)) || exists i: nat, j: nat :: SegmentMatches(es, Stem(name), i, j)
  }

  method MatchPattern(pattern: string, name: string) returns (matched: bool)
    ensures matched <==> Accepted(Elements(pattern), name)
  {
    ghost var es := Elements(pattern);
    var stem := Stem(name);
    matched := MatchRec(pattern, name);
    if matched {
      return;
    }
    matched := MatchRec(pattern, stem);
    if matched {
      return;
    }
    var start := 0;
    while start < |stem|
      invariant start <= |stem| && (start == 0 || start == |stem| || !IsAlnum(stem[start]))
      invariant forall i: nat, j: nat :: i < start ==> !SegmentMatches(es, stem, i, j)
    {
      while start < |stem| && !IsAlnum(stem[start])
        invariant start <= |stem|
        invariant start == 0 || start == |stem| || !IsAlnum(stem[start]) || !IsAlnum(stem[start - 1])
        invariant forall i: nat, j: nat :: i < start ==> !SegmentMatches(es, stem, i, j)
      {
        start := start + 1;
      }
      if start == |stem| {
        break;
      }
      var end := start;
      while end < |stem| && IsAlnum(stem[end])
        invariant start <= end <= |stem| && forall k :: start <= k < end ==> IsAlnum(stem[k])
      {
        end := end + 1;
      }
      assert Segment(stem, start, end);
      var found := MatchRec(pattern, stem[start..end]);
      if found {
        assert SegmentMatches(es, stem, start, end);
        return true;
      }
      forall i: nat, j: nat | i < end
        ensures !SegmentMatches(es, stem, i, j)
      {
        if i >= start {
          OneSegmentAt(stem, start, end, i, j);
        }
      }
      start := end;
    }
  }

  /** A segment that starts inside another is that one. */
  lemma OneSegmentAt(stem: string, start: nat, end: nat, i: nat, j: nat)
    requires Segment(stem, start, end) && start <= i < end
    ensures Segment(stem, i, j) ==> i == start && j == end
  {
    assert start < i ==> IsAlnum(stem[i - 1]);
    assert i < j < end ==> IsAlnum(stem[j]);
  }

  // ----- HW1: greedy

  /** A repeated letter is followed by an element on the same letter. */
  predicate Clash(es: seq<Element>, i: nat) {
    i + 1 < |es| && es[i].Many? && Same(es[i].ch, es[i + 1].ch)
  }

  predicate ClashFree(es: seq<Element>) {
    forall i :: 0 <= i < |es| ==> !Clash(es, i)
  }

  /** What the greedy matcher accepts: every repeated letter takes its whole run. */
  function Greedy(es: seq<Element>, text: string): bool {
    if es == [] then text == []
    else if text == [] || !Same(es[0].ch, text[0]) then false
    else if es[0].One? then Greedy(es[1..], text[1..])
    else Greedy(es[1..], text[RunLength(text, es[0].ch)..])
  }

  function RunLength(text: string, ch: char): (n: nat)
    ensures n <= |text| && (forall i :: 0 <= i < n ==> Same(text[i], ch)) && (n < |text| ==> !Same(text[n], ch))
  {
    if text == [] || !Same(text[0], ch) then 0 else 1 + RunLength(text[1..], ch)
  }

  /** Once a letter has been read to the end of its run, no element on that letter can follow. */
  lemma NoMore(es: seq<Element>, text: string)
    requires es != [] && (text != [] ==> !Same(text[0], es[0].ch))
    ensures !InLanguage(es, text) && !Greedy(es, text)
  {
    LanguageFirst(es, text);
    forall k | 0 <= k <= |text|
      ensures !Fits(es[0], text[..k])
    {
      assert k > 0 ==> text[..k][0] == text[0];
    }
  }

  /** A shorter part of the run cannot do either, when the next element is on another letter. */
  lemma WholeRunNeeded(es: seq<Element>, text: string, k: nat)
    requires es != [] && es[0].Many? && !Clash(es, 0) && 1 <= k < RunLength(text, es[0].ch)
    ensures !InLanguage(es[1..], text[k..])
  {
    if |es| == 1 {
      LanguageEmpty(text[k..]);
    } else {
      assert Same(text[k], es[0].ch) && !Same(es[0].ch, es[1].ch);
      NoMore(es[1..], text[k..]);
    }
  }

  /** The greedy matcher accepts exactly the language when no repeated letter is directly followed by an
      element on the same letter, and nothing at all otherwise. */
  lemma {:induction false} GreedyExact(es: seq<Element>, text: string)
    ensures Greedy(es, text) <==> ClashFree(es) && InLanguage(es, text)
    decreases |es|
  {
    if es == [] {
      LanguageEmpty(text);
    } else if text == [] || !Same(text[0], es[0].ch) {
      NoMore(es, text);
    } else if es[0].One? {
      LanguageOne(es, text);
      GreedyExact(es[1..], text[1..]);
      ClashTail(es);
    } else {
      var n := RunLength(text, es[0].ch);
      GreedyExact(es[1..], text[n..]);
      ClashTail(es);
      if Clash(es, 0) {
        NoMore(es[1..], text[n..]);
      } else {
        LanguageMany(es, text, n);
        forall k | 1 <= k < n
          ensures !InLanguage(es[1..], text[k..])
        {
          WholeRunNeeded(es, text, k);
        }
      }
    }
  }

  lemma ClashTail(es: seq<Element>)
    requires es != []
    ensures ClashFree(es) <==> !Clash(es, 0) && ClashFree(es[1..])
  {
    forall i | 0 <= i < |es[1..]|
      ensures Clash(es[1..], i) <==> Clash(es, i + 1)
    {
    }
    if ClashFree(es) {
      forall i | 0 <= i < |es[1..]|
        ensures !Clash(es[1..], i)
      {
        assert !Clash(es, i + 1);
      }
    }
    if !Clash(es, 0) && ClashFree(es[1..]) {
      forall i | 0 <= i < |es|
        ensures !Clash(es, i)
      {
        assert i > 0 ==> !Clash(es[1..], i - 1);
      }
    }
  }

  /** What is left to match from these two positions. */
  ghost function GreedyFrom(pattern: string, text: string, p: nat, s: nat): bool
    requires p <= |pattern| && s <= |text|
  {
    Greedy(Elements(pattern[p..]), text[s..])
  }

  predicate Repeats(pattern: string, p: nat) {
    p + 1 < |pattern| && pattern[p + 1] == '+'
  }

  /** One element of the pattern against the text; end is where the run of its letter ends. */
  lemma GreedyStep(pattern: string, text: string, p: nat, s: nat, end: nat)
    requires p < |pattern| && s < |text| && s < end <= |text|
    requires forall i :: s <= i < end ==> Same(text[i], pattern[p])
    requires Repeats(pattern, p) && end < |text| ==> !Same(text[end], pattern[p])
    ensures GreedyFrom(pattern, text, p, s) ==
            if Repeats(pattern, p) then GreedyFrom(pattern, text, p + 2, end) else GreedyFrom(pattern, text, p + 1, s + 1)
  {
    var es := Elements(pattern[p..]);
    if Repeats(pattern, p) {
      RunFound(text[s..], pattern[p], end - s);
      assert pattern[p..][2..] == pattern[p + 2..] && text[s..][end - s..] == text[end..];
      assert es[1..] == Elements(pattern[p + 2..]);
    } else {
      assert pattern[p..][1..] == pattern[p + 1..] && text[s..][1..] == text[s + 1..];
      assert es[1..] == Elements(pattern[p + 1..]);
    }
  }

  lemma GreedyRefuses(pattern: string, text: string, p: nat, s: nat)
    requires p < |pattern| && s <= |text| && (s == |text| || !Same(pattern[p], text[s]))
    ensures !GreedyFrom(pattern, text, p, s)
  {
    assert Elements(pattern[p..])[0].ch == pattern[p];
  }

  /** match_filename: two positions move forward, never back. */
  method MatchFilename(pattern: string, text: string) returns (matched: bool)
    ensures matched <==> ClashFree(Elements(pattern)) && InLanguage(Elements(pattern), text)
  {
    GreedyExact(Elements(pattern), text);
    var p, s := 0, 0;
    ghost var accepts := Greedy(Elements(pattern), text);
    assert pattern[0..] == pattern && text[0..] == text;
    while p < |pattern|
      invariant p <= |pattern| && s <= |text| && accepts == GreedyFrom(pattern, text, p, s)
    {
      if s == |text| || !Same(pattern[p], text[s]) {
        GreedyRefuses(pattern, text, p, s);
        return false;
      }
      ghost var from := s;
      s := s + 1;
      if p + 1 < |pattern| && pattern[p + 1] == '+' {
        while s < |text| && Same(pattern[p], text[s])
          invariant from < s <= |text| && forall i :: from <= i < s ==> Same(text[i], pattern[p])
        {
          s := s + 1;
        }
        GreedyStep(pattern, text, p, from, s);
        p := p + 2;
      } else {
        GreedyStep(pattern, text, p, from, s);
        p := p + 1;
      }
    }
    matched := s == |text|;
  }

  lemma {:induction false} RunFound(text: string, ch: char, n: nat)
    requires n <= |text| && (forall i :: 0 <= i < n ==> Same(text[i], ch)) && (n < |text| ==> !Same(text[n], ch))
    ensures RunLength(text, ch) == n
  {
    if n > 0 {
      RunFound(text[1..], ch, n - 1);
    }
  }

  /** The two matchers differ on the pattern "a+a" and the name "aa". */
  lemma GreedyMisses()
    ensures Elements("a+a") == [Many('a'), One('a')]
    ensures InLanguage([Many('a'), One('a')], "aa") && !Greedy([Many('a'), One('a')], "aa")
  {
    var es := [Many('a'), One('a')];
    assert "a+a"[2..] == "a" && Elements("a") == [One('a')] + Elements([]);
    assert Flatten(["a", "a"]) == "a" + Flatten(["a", "a"][1..]) && ["a", "a"][1..] == ["a"];
    assert Flatten(["a"]) == "a" + Flatten([]);
    assert Splits(es, "aa", ["a", "a"]);
    GreedyExact(es, "aa");
    assert Clash(es, 0);
  }

  // ----- upper and lower case

  /** The same letter in either case, or simply the same character. */
  ghost predicate CaseVariant(a: char, b: char) {
    || a == b
    || ('A' <= a <= 'Z' && b as int == a as int + 32)
    || ('A' <= b <= 'Z' && a as int == b as int + 32)
  }

  /** The comparison relates the two cases of a letter, and no other two characters. */
  lemma SameUpToCase(a: char, b: char)
    ensures Same(a, b) <==> CaseVariant(a, b)
  {
  }

  ghost predicate Respelled(s: string, t: string) {
    |s| == |t| && forall i :: 0 <= i < |s| ==> CaseVariant(s[i], t[i])
  }

  ghost predicate ElementsRespelled(es: seq<Element>, fs: seq<Element>) {
    |es| == |fs| && forall i :: 0 <= i < |es| ==> es[i].One? == fs[i].One? && CaseVariant(es[i].ch, fs[i].ch)
  }

  lemma {:induction false} ReadRespelled(p: string, q: string)
    requires Respelled(p, q)
    ensures ElementsRespelled(Elements(p), Elements(q))
  {
    if p != [] {
      if |p| > 1 && p[1] == '+' {
        ReadRespelled(p[2..], q[2..]);
      } else {
        ReadRespelled(p[1..], q[1..]);
      }
    }
  }

  lemma FitsRespelled(e: Element, f: Element, s: string, t: string)
    requires e.One? == f.One? && CaseVariant(e.ch, f.ch) && Respelled(s, t)
    ensures Fits(e, s) <==> Fits(f, t)
  {
  }

  lemma {:induction false} LanguageRespelled(es: seq<Element>, fs: seq<Element>, s: string, t: string)
    requires ElementsRespelled(es, fs) && Respelled(s, t)
    ensures InLanguage(es, s) <==> InLanguage(fs, t)
    decreases |es|
  {
    if es == [] {
      LanguageEmpty(s);
      LanguageEmpty(t);
    } else {
      LanguageFirst(es, s);
      LanguageFirst(fs, t);
      forall k | 0 <= k <= |s|
        ensures Fits(es[0], s[..k]) && InLanguage(es[1..], s[k..]) <==> Fits(fs[0], t[..k]) && InLanguage(fs[1..], t[k..])
      {
        FitsRespelled(es[0], fs[0], s[..k], t[..k]);
        LanguageRespelled(es[1..], fs[1..], s[k..], t[k..]);
      }
    }
  }

  lemma {:induction false} UpToDotRespelled(s: string, t: string)
    requires Respelled(s, t)
    ensures |UpToDot(s)| == |UpToDot(t)|
  {
    if s != [] && s[0] != '.' {
      UpToDotRespelled(s[1..], t[1..]);
    }
  }

  lemma StemRespelled(s: string, t: string)
    requires Respelled(s, t)
    ensures Respelled(Stem(s), Stem(t))
  {
    UpToDotRespelled(s, t);
  }

  lemma SegmentRespelled(es: seq<Element>, fs: seq<Element>, s: string, t: string, i: nat, j: nat)
    requires ElementsRespelled(es, fs) && Respelled(s, t)
    ensures SegmentMatches(es, s, i, j) <==> SegmentMatches(fs, t, i, j)
  {
    forall k | 0 <= k < |s|
      ensures IsAlnum(s[k]) <==> IsAlnum(t[k])
    {
      assert CaseVariant(s[k], t[k]);
    }
    if i <= j <= |s| {
      LanguageRespelled(es, fs, s[i..j], t[i..j]);
    }
  }

  /** Patterns that differ only in the case of letters, and names that do, get the same answers from every
      matcher. */
  lemma CaseBlind(p: string, q: string, s: string, t: string)
    requires Respelled(p, q) && Respelled(s, t)
    ensures InLanguage(Elements(p), s) <==> InLanguage(Elements(q), t)
    ensures Accepted(Elements(p), s) <==> Accepted(Elements(q), t)
    ensures Greedy(Elements(p), s) <==> Greedy(Elements(q), t)
  {
    var es, fs := Elements(p), Elements(q);
    ReadRespelled(p, q);
    LanguageRespelled(es, fs, s, t);
    StemRespelled(s, t);
    LanguageRespelled(es, fs, Stem(s), Stem(t));
    forall i: nat, j: nat
      ensures SegmentMatches(es, Stem(s), i, j) <==> SegmentMatches(fs, Stem(t), i, j)
    {
      SegmentRespelled(es, fs, Stem(s), Stem(t), i, j);
    }
    GreedyExact(es, s);
    GreedyExact(fs, t);
    forall i | 0 <= i < |es|
      ensures Clash(es, i) <==> Clash(fs, i)
    {
      ClashRespelled(es, fs, i);
    }
  }

  lemma ClashRespelled(es: seq<Element>, fs: seq<Element>, i: nat)
    requires ElementsRespelled(es, fs) && i < |es|
    ensures Clash(es, i) <==> Clash(fs, i)
  {
  }
}
