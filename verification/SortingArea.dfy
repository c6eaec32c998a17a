/** The sorting area of one word: what one sorter pass does to it and why repeating passes sorts it.
    HW3/sorting.c:31-59 and HW3/shared_memory.c:305-319. */
module SortingArea {
  import opened Counting

  /** One position of the four parallel arrays of a word. meta is the position in the text of the
      character that lies in the slot, -1 for a cleared slot. */
  datatype Slot = Slot(ch: char, meta: int, occupied: bool, fixed: bool)

  type Area = seq<Slot>

  const CLEARED := Slot('\0', -1, false, false)

  /** The area of a freshly loaded word. */
  function Empty(n: nat): Area {
    seq(n, i => CLEARED)
  }

  /** The sorter skips empty slots and slots already fixed. */
  predicate Open(s: Slot) {
    s.occupied && !s.fixed
  }

  /** Whether visiting slot i changes anything: everything but case 4c. */
  predicate Acts(a: Area, i: nat)
    requires i < |a|
  {
    var t := a[i].meta;
    Open(a[i]) && (t == i || (0 <= t < |a| && !a[t].fixed))
  }

  /** One iteration of the sorter's inner loop: fix (case 3), move (4a), swap (4b) or nothing. */
  function Visit(a: Area, i: nat): (b: Area)
    requires i < |a|
    ensures |b| == |a|
  {
    if !Acts(a, i) then a
    else
      var t := a[i].meta;
      if t == i then
        a[i := a[i].(fixed := true)]
      else if !a[t].occupied then
        a[t := a[i].(fixed := true)][i := CLEARED]
      else
        a[t := a[i].(fixed := true)][i := a[t].(fixed := a[t].meta == i)]
  }

  /** The first k visits of a pass. */
  function Visits(a: Area, k: nat): (b: Area)
    requires k <= |a|
    ensures |b| == |a|
  {
    if k == 0 then a else Visit(Visits(a, k - 1), k - 1)
  }

  function Pass(a: Area): (b: Area)
    ensures |b| == |a|
  {
    Visits(a, |a|)
  }

  function Passes(a: Area, k: nat): (b: Area)
    ensures |b| == |a|
    decreases k
  {
    if k == 0 then a else Passes(Pass(a), k - 1)
  }

  /** The first slot from position k on that a new character can be put in, -1 if there is none. */
  function FreeSlot(a: Area, k: nat): (i: int)
    requires k <= |a|
    ensures i == -1 || (k <= i < |a| && !a[i].fixed && !a[i].occupied)
    ensures forall j :: k <= j < (if i == -1 then |a| else i) ==> a[j].fixed || a[j].occupied
    decreases |a| - k
  {
    if k == |a| then -1
    else if !a[k].fixed && !a[k].occupied then k
    else FreeSlot(a, k + 1)
  }

  /** Putting character c of the text into a free slot. */
  function Put(a: Area, i: nat, ch: char, c: nat): (b: Area)
    requires i < |a|
    ensures |b| == |a|
  {
    a[i := Slot(ch, c, true, a[i].fixed)]
  }

  // ---------------------------------------------------------------------------------------------
  // Reconstruction

  function OccupiedFlags(a: Area): (s: seq<bool>)
    ensures |s| == |a| && forall i :: 0 <= i < |a| ==> s[i] == a[i].occupied
  {
    seq(|a|, i requires 0 <= i < |a| => a[i].occupied)
  }

  function FixedFlags(a: Area): (s: seq<bool>)
    ensures |s| == |a| && forall i :: 0 <= i < |a| ==> s[i] == a[i].fixed
  {
    seq(|a|, i requires 0 <= i < |a| => a[i].fixed)
  }

  function OpenFlags(a: Area): (s: seq<bool>)
    ensures |s| == |a| && forall i :: 0 <= i < |a| ==> s[i] == Open(a[i])
  {
    seq(|a|, i requires 0 <= i < |a| => Open(a[i]))
  }

  function OpenCount(a: Area): (n: nat)
    ensures n <= |a|
  {
    Count(OpenFlags(a))
  }

  function FixedCount(a: Area): (n: nat)
    ensures n <= |a|
  {
    Count(FixedFlags(a))
  }

  /** An occupied slot shows a delivered character of the text, and its own one once it is fixed; an
      unoccupied slot is cleared. */
  ghost predicate SlotConsistent(s: Slot, i: nat, text: string, delivered: seq<bool>)
    requires |delivered| == |text|
  {
    && (s.occupied ==> 0 <= s.meta < |text| && delivered[s.meta] && s.ch == text[s.meta])
    && (!s.occupied ==> s == CLEARED)
    && (s.fixed ==> s.occupied && s.meta == i)
  }

  ghost predicate SlotsConsistent(a: Area, text: string, delivered: seq<bool>) {
    |delivered| == |text| == |a| && forall i :: 0 <= i < |a| ==> SlotConsistent(a[i], i, text, delivered)
  }

  ghost predicate Injective(a: Area) {
    forall i, j :: 0 <= i < j < |a| && a[i].occupied && a[j].occupied ==> a[i].meta != a[j].meta
  }

  ghost predicate Located(a: Area, c: int) {
    exists i :: 0 <= i < |a| && a[i].occupied && a[i].meta == c
  }

  /** meta, restricted to the occupied slots, is a bijection onto the delivered characters, and every
      slot is consistent with the text. */
  ghost predicate Consistent(a: Area, text: string, delivered: seq<bool>) {
    && SlotsConsistent(a, text, delivered)
    && Injective(a)
    && (forall c :: 0 <= c < |text| && delivered[c] ==> Located(a, c))
    && Count(OccupiedFlags(a)) == Count(delivered)
  }

  lemma EmptyConsistent(text: string)
    ensures Consistent(Empty(|text|), text, seq(|text|, i => false))
  {
    CountExtremes(seq(|text|, i => false));
    CountExtremes(OccupiedFlags(Empty(|text|)));
  }

  /** Case 4c, "target fixed", never arises: every open slot is acted on. */
  lemma OpenActs(a: Area, text: string, delivered: seq<bool>, i: nat)
    requires SlotsConsistent(a, text, delivered) && Injective(a) && i < |a|
    ensures Acts(a, i) <==> Open(a[i])
  {
    assert SlotConsistent(a[i], i, text, delivered);
    if Open(a[i]) {
      assert SlotConsistent(a[a[i].meta], a[i].meta, text, delivered);
    }
  }

  lemma VisitKeepsOccupied(a: Area, i: nat)
    requires i < |a|
    ensures Count(OccupiedFlags(Visit(a, i))) == Count(OccupiedFlags(a))
  {
    if Acts(a, i) {
      var t := a[i].meta;
      if !a[t].occupied {
        CountUpdate(OccupiedFlags(a), t, true);
        CountUpdate(OccupiedFlags(a)[t := true], i, false);
        assert OccupiedFlags(Visit(a, i)) == OccupiedFlags(a)[t := true][i := false];
      } else {
        assert OccupiedFlags(Visit(a, i)) == OccupiedFlags(a);
      }
    }
  }

  /** Whatever a slot held is still held by some slot. */
  lemma VisitKeepsLocated(a: Area, i: nat, c: int)
    requires i < |a| && Located(a, c)
    ensures Located(Visit(a, i), c)
  {
    var j :| 0 <= j < |a| && a[j].occupied && a[j].meta == c;
    var t := a[i].meta;
    var b := Visit(a, i);
    if Acts(a, i) {
      var k := if j == i then t else if j == t then i else j;
      assert b[k].occupied && b[k].meta == c;
    } else {
      assert b[j].occupied && b[j].meta == c;
    }
  }

  lemma VisitKeepsSlots(a: Area, text: string, delivered: seq<bool>, i: nat)
    requires SlotsConsistent(a, text, delivered) && Injective(a) && i < |a|
    ensures SlotsConsistent(Visit(a, i), text, delivered) && Injective(Visit(a, i))
  {
    assert SlotConsistent(a[i], i, text, delivered);
    assert Acts(a, i) ==> SlotConsistent(a[a[i].meta], a[i].meta, text, delivered);
  }

  lemma VisitConsistent(a: Area, text: string, delivered: seq<bool>, i: nat)
    requires Consistent(a, text, delivered) && i < |a|
    ensures Consistent(Visit(a, i), text, delivered)
  {
    var b := Visit(a, i);
    VisitKeepsOccupied(a, i);
    VisitKeepsSlots(a, text, delivered, i);
    forall c | 0 <= c < |text| && delivered[c]
      ensures Located(b, c)
    {
      VisitKeepsLocated(a, i, c);
    }
  }

  /** Where a visit leaves everything: the character of an open slot is fixed in its own place; what lay
      there changes into the slot, and is fixed as well if it belongs there; an area with nothing there
      has the slot cleared; all other slots stay. */
  lemma VisitSettles(a: Area, text: string, delivered: seq<bool>, i: nat)
    requires SlotsConsistent(a, text, delivered) && Injective(a) && i < |a| && a[i].occupied && !a[i].fixed
    ensures var b, t := Visit(a, i), a[i].meta;
      && 0 <= t < |a| && b[t] == Slot(text[t], t, true, true)
      && (t != i ==> b[i] == if a[t].occupied then Slot(a[t].ch, a[t].meta, true, a[t].meta == i) else Slot('\0', -1, false, false))
      && forall k :: 0 <= k < |a| && k != i && k != t ==> b[k] == a[k]
  {
    OpenActs(a, text, delivered, i);
    assert SlotConsistent(a[i], i, text, delivered);
    assert SlotConsistent(a[a[i].meta], a[i].meta, text, delivered);
  }

  lemma {:induction false} VisitsConsistent(a: Area, text: string, delivered: seq<bool>, k: nat)
    requires Consistent(a, text, delivered) && k <= |a|
    ensures Consistent(Visits(a, k), text, delivered)
  {
    if k > 0 {
      VisitsConsistent(a, text, delivered, k - 1);
      VisitConsistent(Visits(a, k - 1), text, delivered, k - 1);
    }
  }

  /** A character that was not delivered yet always finds a free slot: as many slots are occupied as
      characters were delivered. */
  lemma FreeSlotExists(a: Area, text: string, delivered: seq<bool>, c: nat)
    requires Consistent(a, text, delivered) && c < |text| && !delivered[c]
    ensures FreeSlot(a, 0) != -1
  {
    CountExtremes(delivered);
    CountExtremes(OccupiedFlags(a));
    var i :| 0 <= i < |a| && !OccupiedFlags(a)[i];
    assert SlotConsistent(a[i], i, text, delivered);
  }

  lemma PutKeepsSlots(a: Area, text: string, delivered: seq<bool>, i: nat, c: nat)
    requires SlotsConsistent(a, text, delivered) && Injective(a)
    requires c < |text| && !delivered[c] && i < |a| && !a[i].occupied && !a[i].fixed
    ensures SlotsConsistent(Put(a, i, text[c], c), text, delivered[c := true])
    ensures Injective(Put(a, i, text[c], c))
  {
    var b := Put(a, i, text[c], c);
    forall j | 0 <= j < |a|
      ensures SlotConsistent(b[j], j, text, delivered[c := true])
      ensures j != i && b[j].occupied ==> b[j].meta != c
    {
      assert SlotConsistent(a[j], j, text, delivered);
    }
  }

  lemma PutConsistent(a: Area, text: string, delivered: seq<bool>, c: nat)
    requires Consistent(a, text, delivered) && c < |text| && !delivered[c] && FreeSlot(a, 0) != -1
    ensures Consistent(Put(a, FreeSlot(a, 0), text[c], c), text, delivered[c := true])
  {
    var i := FreeSlot(a, 0);
    var b := Put(a, i, text[c], c);
    CountUpdate(OccupiedFlags(a), i, true);
    assert OccupiedFlags(b) == OccupiedFlags(a)[i := true];
    CountUpdate(delivered, c, true);
    PutKeepsSlots(a, text, delivered, i, c);
    forall d | 0 <= d < |text| && delivered[c := true][d]
      ensures Located(b, d)
    {
      if d == c {
        assert b[i].occupied && b[i].meta == d;
      } else {
        assert Located(a, d);
        var j :| 0 <= j < |a| && a[j].occupied && a[j].meta == d;
        assert b[j].occupied && b[j].meta == d;
      }
    }
  }

  predicate AllFixed(a: Area) {
    forall i :: 0 <= i < |a| ==> a[i].fixed
  }

  /** What the slots show, read from left to right. */
  function Reading(a: Area): (s: string)
    ensures |s| == |a| && forall i :: 0 <= i < |a| ==> s[i] == a[i].ch
  {
    seq(|a|, i requires 0 <= i < |a| => a[i].ch)
  }

  /** A word all of whose slots are fixed reads as its text, even with repeated letters, and all its
      characters were delivered. */
  lemma AllFixedSpellsText(a: Area, text: string, delivered: seq<bool>)
    requires Consistent(a, text, delivered) && AllFixed(a)
    ensures Reading(a) == text
    ensures forall c :: 0 <= c < |text| ==> delivered[c]
  {
    forall i | 0 <= i < |text|
      ensures a[i].ch == text[i] && delivered[i]
    {
      assert SlotConsistent(a[i], i, text, delivered) && a[i].fixed;
    }
  }

  // ---------------------------------------------------------------------------------------------
  // Progress

  lemma VisitCloses(a: Area, text: string, delivered: seq<bool>, i: nat)
    requires SlotsConsistent(a, text, delivered) && Injective(a) && i < |a|
    ensures forall j :: 0 <= j < |a| && Open(Visit(a, i)[j]) ==> Open(a[j])
    ensures Open(a[i]) ==> OpenCount(Visit(a, i)) < OpenCount(a)
  {
    OpenActs(a, text, delivered, i);
    if Open(a[i]) {
      var b := Visit(a, i);
      var closed := if a[a[i].meta].occupied then a[i].meta else i;
      CountUpdate(OpenFlags(a), closed, false);
      CountMonotone(OpenFlags(b), OpenFlags(a)[closed := false]);
    }
  }

  lemma VisitFixes(a: Area, text: string, delivered: seq<bool>, i: nat)
    requires SlotsConsistent(a, text, delivered) && Injective(a) && i < |a|
    ensures Open(a[i]) ==> FixedCount(a) < FixedCount(Visit(a, i))
  {
    OpenActs(a, text, delivered, i);
    if Open(a[i]) {
      var t := a[i].meta;
      CountUpdate(FixedFlags(a), t, true);
      CountMonotone(FixedFlags(a)[t := true], FixedFlags(Visit(a, i)));
    }
  }

  /** A visit to an open slot opens no slot, closes at least one, fixes at least one and unfixes none. */
  lemma VisitProgress(a: Area, text: string, delivered: seq<bool>, i: nat)
    requires SlotsConsistent(a, text, delivered) && Injective(a) && i < |a|
    ensures forall j :: 0 <= j < |a| && Open(Visit(a, i)[j]) ==> Open(a[j])
    ensures Open(a[i]) ==> OpenCount(Visit(a, i)) < OpenCount(a)
    ensures Open(a[i]) ==> FixedCount(a) < FixedCount(Visit(a, i))
    ensures !Open(a[i]) ==> Visit(a, i) == a
  {
    VisitCloses(a, text, delivered, i);
    VisitFixes(a, text, delivered, i);
    OpenActs(a, text, delivered, i);
  }

  /** After k visits, the open slots among those visited cannot outnumber the slots closed so far. */
  lemma {:induction false} VisitsHalve(a: Area, text: string, delivered: seq<bool>, k: nat)
    requires Consistent(a, text, delivered) && k <= |a|
    ensures OpenCount(Visits(a, k)) + Count(OpenFlags(Visits(a, k))[..k]) <= OpenCount(a)
  {
    if k > 0 {
      var c := Visits(a, k - 1);
      VisitsHalve(a, text, delivered, k - 1);
      VisitsConsistent(a, text, delivered, k - 1);
      VisitProgress(c, text, delivered, k - 1);
      VisitPrefix(c, Visit(c, k - 1), k);
    }
  }

  lemma VisitPrefix(c: Area, b: Area, k: nat)
    requires |b| == |c| && 0 < k <= |c|
    requires forall j :: 0 <= j < |c| && Open(b[j]) ==> Open(c[j])
    ensures Count(OpenFlags(b)[..k]) <= Count(OpenFlags(c)[..k - 1]) + if Open(b[k - 1]) then 1 else 0
  {
    CountStep(OpenFlags(b), k - 1);
    CountMonotone(OpenFlags(b)[..k - 1], OpenFlags(c)[..k - 1]);
  }

  /** The halving bound: one pass leaves open at most half of the slots that were open. */
  lemma PassHalves(a: Area, text: string, delivered: seq<bool>)
    requires Consistent(a, text, delivered)
    ensures Consistent(Pass(a), text, delivered)
    ensures 2 * OpenCount(Pass(a)) <= OpenCount(a)
  {
    VisitsHalve(a, text, delivered, |a|);
    VisitsConsistent(a, text, delivered, |a|);
    assert OpenFlags(Pass(a))[..|a|] == OpenFlags(Pass(a));
  }

  lemma {:induction false} VisitsFix(a: Area, text: string, delivered: seq<bool>, k: nat)
    requires Consistent(a, text, delivered) && k <= |a|
    ensures Visits(a, k) == a || FixedCount(a) < FixedCount(Visits(a, k))
    ensures Visits(a, k) == a ==> forall j :: 0 <= j < k ==> !Open(a[j])
  {
    if k > 0 {
      VisitsFix(a, text, delivered, k - 1);
      VisitsConsistent(a, text, delivered, k - 1);
      OneMoreVisit(a, Visits(a, k - 1), text, delivered, k - 1);
    }
  }

  lemma OneMoreVisit(a: Area, c: Area, text: string, delivered: seq<bool>, i: nat)
    requires Consistent(c, text, delivered) && i < |c|
    requires c == a || FixedCount(a) < FixedCount(c)
    ensures Visit(c, i) == a || FixedCount(a) < FixedCount(Visit(c, i))
    ensures Visit(c, i) == a ==> c == a && !Open(a[i])
  {
    VisitProgress(c, text, delivered, i);
  }

  /** A pass changes the area exactly when it finds an open slot, and then it fixes more slots. */
  lemma PassProgress(a: Area, text: string, delivered: seq<bool>)
    requires Consistent(a, text, delivered)
    ensures OpenCount(a) == 0 <==> Pass(a) == a
    ensures OpenCount(a) > 0 <==> FixedCount(a) < FixedCount(Pass(a))
  {
    VisitsFix(a, text, delivered, |a|);
    CountExtremes(OpenFlags(a));
    if OpenCount(a) == 0 {
      assert forall j :: 0 <= j < |a| ==> !OpenFlags(a)[j];
      NoOpenNoVisit(a, |a|);
    }
  }

  lemma {:induction false} NoOpenNoVisit(a: Area, k: nat)
    requires k <= |a| && forall j :: 0 <= j < |a| ==> !Open(a[j])
    ensures Visits(a, k) == a
  {
    if k > 0 {
      NoOpenNoVisit(a, k - 1);
    }
  }

  function Log2(n: nat): nat
    requires n > 0
  {
    if n == 1 then 0 else 1 + Log2(n / 2)
  }

  lemma {:induction false} Log2Monotone(m: nat, n: nat)
    requires 0 < m <= n
    ensures Log2(m) <= Log2(n)
  {
    if m > 1 {
      Log2Monotone(m / 2, n / 2);
    }
  }

  lemma {:induction false} PassesHalve(a: Area, text: string, delivered: seq<bool>, k: nat)
    requires Consistent(a, text, delivered)
    ensures Consistent(Passes(a, k), text, delivered)
    ensures OpenCount(a) == 0 || k > Log2(OpenCount(a)) ==> OpenCount(Passes(a, k)) == 0
    decreases k
  {
    if k > 0 {
      PassHalves(a, text, delivered);
      PassesHalve(Pass(a), text, delivered, k - 1);
      if OpenCount(Pass(a)) > 0 {
        Log2Monotone(OpenCount(Pass(a)), OpenCount(a) / 2);
      }
    }
  }

  /** A fully delivered word of length L is sorted after at most floor(log2 L) + 1 passes. */
  lemma DeliveredWordCompletes(a: Area, text: string, delivered: seq<bool>)
    requires Consistent(a, text, delivered) && |text| > 0
    requires forall c :: 0 <= c < |text| ==> delivered[c]
    ensures AllFixed(Passes(a, Log2(|text|) + 1))
    ensures Reading(Passes(a, Log2(|text|) + 1)) == text
  {
    var b := Passes(a, Log2(|text|) + 1);
    if OpenCount(a) > 0 {
      Log2Monotone(OpenCount(a), |text|);
    }
    PassesHalve(a, text, delivered, Log2(|text|) + 1);
    ClosedAndDelivered(b, text, delivered);
    AllFixedSpellsText(b, text, delivered);
  }

  /** A word whose characters are all delivered and that has no open slot is sorted. */
  lemma ClosedAndDelivered(b: Area, text: string, delivered: seq<bool>)
    requires Consistent(b, text, delivered) && OpenCount(b) == 0
    requires forall c :: 0 <= c < |text| ==> delivered[c]
    ensures AllFixed(b)
  {
    CountExtremes(delivered);
    CountExtremes(OccupiedFlags(b));
    CountExtremes(OpenFlags(b));
    forall i | 0 <= i < |b|
      ensures b[i].fixed
    {
      assert !OpenFlags(b)[i] && OccupiedFlags(b)[i];
    }
  }

  // ---------------------------------------------------------------------------------------------
  // A whole run of one word: passes interleaved with arrivals

  datatype Event = Arrive(c: nat) | Sort

  /** A run in which each arriving character is one not delivered before. */
  ghost predicate Run(text: string, delivered: seq<bool>, events: seq<Event>)
    requires |delivered| == |text|
    decreases |events|
  {
    events == [] ||
    match events[0]
    case Arrive(c) => c < |text| && !delivered[c] && Run(text, delivered[c := true], events[1..])
    case Sort => Run(text, delivered, events[1..])
  }

  /** How many of the passes of a run change the area. */
  ghost function ProgressPasses(a: Area, text: string, delivered: seq<bool>, events: seq<Event>): nat
    requires Consistent(a, text, delivered) && Run(text, delivered, events)
    decreases |events|
  {
    if events == [] then 0
    else match events[0]
      case Arrive(c) =>
        FreeSlotExists(a, text, delivered, c);
        PutConsistent(a, text, delivered, c);
        ProgressPasses(Put(a, FreeSlot(a, 0), text[c], c), text, delivered[c := true], events[1..])
      case Sort =>
        PassHalves(a, text, delivered);
        (if Pass(a) != a then 1 else 0) + ProgressPasses(Pass(a), text, delivered, events[1..])
  }

  /** However arrivals and passes interleave, at most L passes over a word of length L do anything. */
  lemma {:induction false} ProgressBounded(a: Area, text: string, delivered: seq<bool>, events: seq<Event>)
    requires Consistent(a, text, delivered) && Run(text, delivered, events)
    ensures ProgressPasses(a, text, delivered, events) + FixedCount(a) <= |text|
    decreases |events|
  {
    if events != [] {
      match events[0]
      case Arrive(c) =>
        FreeSlotExists(a, text, delivered, c);
        PutConsistent(a, text, delivered, c);
        assert FixedFlags(Put(a, FreeSlot(a, 0), text[c], c)) == FixedFlags(a);
        ProgressBounded(Put(a, FreeSlot(a, 0), text[c], c), text, delivered[c := true], events[1..]);
      case Sort =>
        PassHalves(a, text, delivered);
        PassProgress(a, text, delivered);
        ProgressBounded(Pass(a), text, delivered, events[1..]);
    }
  }
}
