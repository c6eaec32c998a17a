/** One word of the shared state and what each critical section does to it.
    HW3/hw3.h:54-63, HW3/shared_memory.c:305-361, HW3/letter_carrier.c:52-62, HW3/sorting.c:19-64. */
module Words {
  import opened SortingArea

  datatype Word = Word(
    text: string, sortingFloor: nat,
    claimed: bool, owner: int, admitted: bool, completed: bool, reserved: bool, arrivalFloor: nat,
    area: Area, charClaimed: seq<bool>, delivered: seq<bool>, transit: seq<bool>)

  /** A word as it is loaded. */
  function Loaded(text: string, sortingFloor: nat): Word {
    var none := seq(|text|, i => false);
    Word(text, sortingFloor, false, 0, false, false, false, 0, Empty(|text|), none, none, none)
  }

  ghost predicate Shaped(w: Word) {
    |w.area| == |w.charClaimed| == |w.delivered| == |w.transit| == |w.text|
  }

  /** Nobody has claimed, carried or delivered the character. */
  predicate CharFree(w: Word, c: nat)
    requires c < |w.charClaimed| == |w.delivered| == |w.transit|
  {
    !w.charClaimed[c] && !w.delivered[c] && !w.transit[c]
  }

  function ClaimChar(w: Word, c: nat): Word
    requires c < |w.charClaimed| == |w.transit|
  {
    w.(charClaimed := w.charClaimed[c := true], transit := w.transit[c := true])
  }

  /** Delivering a character: it goes into the first free slot; without one its claim is undone. */
  function Deliver(w: Word, c: nat): Word
    requires Shaped(w) && c < |w.text|
  {
    var i := FreeSlot(w.area, 0);
    if i == -1 then
      w.(charClaimed := w.charClaimed[c := false], transit := w.transit[c := false])
    else
      w.(area := Put(w.area, i, w.text[c], c), delivered := w.delivered[c := true], transit := w.transit[c := false])
  }

  /** A sorter pass followed by the completion check. */
  function Sort(w: Word): Word {
    var a := Pass(w.area);
    if AllFixed(a) && !w.completed then w.(area := a, completed := true, reserved := false)
    else w.(area := a)
  }

  /** What holds of every word in every state: its sorting area is consistent; a character in transit
      or delivered is claimed, never both, and only after admission; a completed word is all fixed;
      the reservation lasts from admission to completion. */
  ghost predicate WordOk(w: Word) {
    && Shaped(w)
    && Consistent(w.area, w.text, w.delivered)
    && (forall c :: 0 <= c < |w.text| ==> CharOk(w, c))
    && (w.completed ==> w.admitted && AllFixed(w.area))
    && (w.admitted ==> w.claimed)
    && (w.reserved <==> w.admitted && !w.completed)
  }

  ghost predicate CharOk(w: Word, c: nat)
    requires Shaped(w) && c < |w.text|
  {
    && (w.charClaimed[c] <==> w.transit[c] || w.delivered[c])
    && !(w.transit[c] && w.delivered[c])
    && (w.charClaimed[c] ==> w.admitted)
  }

  lemma LoadedOk(text: string, sortingFloor: nat)
    ensures WordOk(Loaded(text, sortingFloor))
  {
    EmptyConsistent(text);
  }

  lemma ClaimCharOk(w: Word, c: nat)
    requires WordOk(w) && c < |w.text| && w.admitted && CharFree(w, c)
    ensures WordOk(ClaimChar(w, c))
  {
    forall d | 0 <= d < |w.text|
      ensures CharOk(ClaimChar(w, c), d)
    {
      assert CharOk(w, d);
    }
  }

  /** A delivery always finds room: the failure branch is never taken. A character is delivered once
      at most, because it is no longer in transit afterwards. */
  lemma DeliverOk(w: Word, c: nat)
    requires WordOk(w) && c < |w.text| && w.transit[c]
    ensures FreeSlot(w.area, 0) != -1
    ensures WordOk(Deliver(w, c)) && !w.delivered[c] && Deliver(w, c).delivered[c] && !Deliver(w, c).transit[c]
    ensures !w.completed
  {
    assert CharOk(w, c);
    FreeSlotExists(w.area, w.text, w.delivered, c);
    PutConsistent(w.area, w.text, w.delivered, c);
    if w.completed {
      AllFixedSpellsText(w.area, w.text, w.delivered);
    }
    forall d | 0 <= d < |w.text|
      ensures CharOk(Deliver(w, c), d)
    {
      assert CharOk(w, d);
    }
  }

  lemma SortOk(w: Word)
    requires WordOk(w) && w.admitted && !w.completed
    ensures WordOk(Sort(w))
  {
    PassHalves(w.area, w.text, w.delivered);
    forall d | 0 <= d < |w.text|
      ensures CharOk(Sort(w), d)
    {
      assert CharOk(w, d);
    }
  }

  /** A completed word spells its text, and none of its characters is on the way. */
  lemma CompletedWord(w: Word)
    requires WordOk(w) && w.completed
    ensures Reading(w.area) == w.text
    ensures forall c :: 0 <= c < |w.text| ==> w.delivered[c] && !w.transit[c]
  {
    AllFixedSpellsText(w.area, w.text, w.delivered);
    forall c | 0 <= c < |w.text|
      ensures w.delivered[c] && !w.transit[c]
    {
      assert CharOk(w, c);
    }
  }

  // ---------------------------------------------------------------------------------------------
  // Floors and the round-robin claim

  /** Whether both floors have room; a word arriving on its sorting floor needs one place only. */
  predicate HasRoom(active: seq<int>, capacity: int, arrival: nat, sorting: nat)
    requires arrival < |active| && sorting < |active|
  {
    active[arrival] < capacity && (arrival == sorting || active[sorting] < capacity)
  }

  function Reserve(active: seq<int>, arrival: nat, sorting: nat, delta: int): (r: seq<int>)
    requires arrival < |active| && sorting < |active|
    ensures |r| == |active|
    ensures forall f :: 0 <= f < |active| ==>
      r[f] == active[f] + if f == arrival || f == sorting then delta else 0
  {
    var a := active[arrival := active[arrival] + delta];
    if sorting == arrival then a else a[sorting := a[sorting] + delta]
  }

  /** Which words are open to a claim. */
  function Available(words: seq<Word>): (v: seq<bool>)
    ensures |v| == |words|
    ensures forall i :: 0 <= i < |words| ==> v[i] == (!words[i].claimed && !words[i].admitted && !words[i].completed)
  {
    seq(|words|, i requires 0 <= i < |words| => !words[i].claimed && !words[i].admitted && !words[i].completed)
  }

  /** The first available position from the cursor on, in cyclic order, skipping the first seen ones;
      -1 if there is none. */
  function NextWord(available: seq<bool>, cursor: nat, seen: nat): (i: int)
    requires seen <= |available|
    ensures i == -1 || (0 <= i < |available| && available[i])
    decreases |available| - seen
  {
    if seen == |available| then -1
    else
      var idx := (cursor + seen) % |available|;
      if available[idx] then idx else NextWord(available, cursor, seen + 1)
  }

  /** A search that goes round from the cursor comes by position k before it comes to position i. */
  predicate Before(cursor: nat, k: nat, i: int) {
    if cursor <= i then cursor <= k < i else cursor <= k || k < i
  }

  /** Position i is the next available one from the cursor on, going round; -1 stands for none. */
  ghost predicate NextFrom(available: seq<bool>, cursor: nat, i: int) {
    if i == -1 then forall k :: 0 <= k < |available| ==> !available[k]
    else
      && 0 <= i < |available| && available[i]
      && forall k :: 0 <= k < |available| && Before(cursor, k, i) ==> !available[k]
  }

  lemma Around(cursor: nat, seen: nat, n: nat)
    requires cursor < n && seen < n
    ensures (cursor + seen) % n == if cursor + seen < n then cursor + seen else cursor + seen - n
  {
    if cursor + seen >= n {
      assert (cursor + seen) % n == (cursor + seen - n) % n;
    }
  }

  /** The cyclic scan finds the next available word. */
  lemma {:induction false} NextWordIsNext(available: seq<bool>, cursor: nat, seen: nat)
    requires cursor < |available| && seen <= |available|
    requires forall k :: 0 <= k < |available| && (cursor <= k < cursor + seen || k + |available| < cursor + seen) ==> !available[k]
    ensures NextFrom(available, cursor, NextWord(available, cursor, seen))
    decreases |available| - seen
  {
    if seen < |available| {
      Around(cursor, seen, |available|);
      if !available[(cursor + seen) % |available|] {
        NextWordIsNext(available, cursor, seen + 1);
      }
    }
  }

  /** The cyclic scan overlooks no word. */
  lemma NextWordFinds(available: seq<bool>, cursor: nat, w: nat)
    requires cursor < |available| && w < |available| && available[w]
    ensures NextWord(available, cursor, 0) != -1
  {
    NextWordIsNext(available, cursor, 0);
  }
}
