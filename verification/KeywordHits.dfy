/** Where keywords stand in log lines: the occurrences behind every score. HW4/common.c:149-171. */
module KeywordHits {
  import opened Pipeline

  /** A line, a keyword and an offset, the first two by their places in their lists. */
  datatype Hit = Hit(line: nat, keyword: nat, offset: nat)

  /** All places at which a non-empty keyword stands in one of the kept lines; occurrences may overlap. */
  ghost function Hits(es: seq<Entry>, keywords: seq<string>, keep: Entry -> bool): set<Hit> {
    set i: nat, k: nat, o: nat |
      i < |es| && keep(es[i]) && k < |keywords| && keywords[k] != [] && o < |es[i].message| && keywords[k] <= es[i].message[o..]
      :: Hit(i, k, o)
  }

  ghost function AllHits(es: seq<Entry>, keywords: seq<string>): set<Hit> {
    Hits(es, keywords, e => true)
  }

  /** The places within line i. */
  ghost function LineHits(i: nat, e: Entry, keywords: seq<string>): set<Hit> {
    set k: nat, o: nat | k < |keywords| && keywords[k] != [] && o < |e.message| && keywords[k] <= e.message[o..] :: Hit(i, k, o)
  }

  ghost function HitsAt(i: nat, k: nat, offsets: set<nat>): set<Hit> {
    set o | o in offsets :: Hit(i, k, o)
  }

  lemma {:induction false} HitsAtSize(i: nat, k: nat, offsets: set<nat>)
    ensures |HitsAt(i, k, offsets)| == |offsets|
  {
    if offsets != {} {
      var o :| o in offsets;
      HitsAtSize(i, k, offsets - {o});
      assert HitsAt(i, k, offsets) == HitsAt(i, k, offsets - {o}) + {Hit(i, k, o)};
    }
  }

  /** The keyword stands at that offset of the line. */
  predicate IsHit(e: Entry, keywords: seq<string>, h: Hit) {
    && h.keyword < |keywords| && keywords[h.keyword] != []
    && h.offset < |e.message| && keywords[h.keyword] <= e.message[h.offset..]
  }

  lemma HitIn(es: seq<Entry>, keywords: seq<string>, keep: Entry -> bool, h: Hit)
    ensures h in Hits(es, keywords, keep) <==> h.line < |es| && keep(es[h.line]) && IsHit(es[h.line], keywords, h)
  {
  }

  lemma HitInLine(i: nat, e: Entry, keywords: seq<string>, h: Hit)
    ensures h in LineHits(i, e, keywords) <==> h.line == i && IsHit(e, keywords, h)
  {
  }

  lemma HitSnoc(es: seq<Entry>, e: Entry, keywords: seq<string>, keep: Entry -> bool, h: Hit)
    ensures h in Hits(es + [e], keywords, keep) <==>
            h in Hits(es, keywords, keep) || (keep(e) && h in LineHits(|es|, e, keywords))
    ensures !(h in Hits(es, keywords, keep) && h in LineHits(|es|, e, keywords))
  {
    HitIn(es, keywords, keep, h);
    HitIn(es + [e], keywords, keep, h);
    HitInLine(|es|, e, keywords, h);
  }

  /** One line more. */
  lemma HitsSnoc(es: seq<Entry>, e: Entry, keywords: seq<string>, keep: Entry -> bool)
    ensures |Hits(es + [e], keywords, keep)| == |Hits(es, keywords, keep)| + if keep(e) then |LineHits(|es|, e, keywords)| else 0
  {
    var all, before := Hits(es + [e], keywords, keep), Hits(es, keywords, keep);
    var here := if keep(e) then LineHits(|es|, e, keywords) else {};
    forall h: Hit
      ensures h in all <==> h in before || h in here
      ensures !(h in before && h in here)
    {
      HitSnoc(es, e, keywords, keep, h);
    }
    DisjointSizes(all, before, here);
  }

  lemma DisjointSizes(all: set<Hit>, a: set<Hit>, b: set<Hit>)
    requires forall h :: h in all <==> h in a || h in b
    requires forall h :: !(h in a && h in b)
    ensures |all| == |a| + |b|
  {
    assert all == a + b;
  }

  /** One keyword more in one line. */
  lemma LineHitsSnoc(i: nat, e: Entry, keywords: seq<string>, keyword: string, offsets: set<nat>)
    requires forall o: nat :: o in offsets <==> keyword != [] && o < |e.message| && keyword <= e.message[o..]
    ensures |LineHits(i, e, keywords + [keyword])| == |LineHits(i, e, keywords)| + |offsets|
  {
    var all, before, here := LineHits(i, e, keywords + [keyword]), LineHits(i, e, keywords), HitsAt(i, |keywords|, offsets);
    forall h: Hit
      ensures h in all <==> h in before || h in here
      ensures !(h in before && h in here)
    {
      HitInLine(i, e, keywords, h);
      HitInLine(i, e, keywords + [keyword], h);
    }
    DisjointSizes(all, before, here);
    HitsAtSize(i, |keywords|, offsets);
  }

  lemma HitsOfLine(e: Entry, keywords: seq<string>)
    ensures AllHits([e], keywords) == LineHits(0, e, keywords)
  {
  }

  lemma HitsNone(es: seq<Entry>, keywords: seq<string>, keep: Entry -> bool)
    requires forall e :: !keep(e)
    ensures Hits(es, keywords, keep) == {}
  {
  }

  lemma HitsSame(es: seq<Entry>, keywords: seq<string>, f: Entry -> bool, g: Entry -> bool)
    requires forall e :: f(e) == g(e)
    ensures Hits(es, keywords, f) == Hits(es, keywords, g)
  {
  }
}
