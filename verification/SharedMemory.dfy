/** The shared state that the processes update in place, one method for each lock-protected region.
    Every method is proved against the function on words (module Words) that the protocol uses.
    HW3/hw3.h:54-97, HW3/shared_memory.c:228-361, HW3/sorting.c:31-59, HW3/word_carrier.c:11-44,
    HW3/letter_carrier.c:52-62. */
module SharedMemory {
  import opened SortingArea
  import W = Words
  import E = Elevator
  import T = Transport

  /** The four arrays of a sorting area read as one sequence of slots. */
  ghost function Zip(ch: seq<char>, meta: seq<int>, occupied: seq<bool>, fixed: seq<bool>): (a: Area)
    requires |ch| == |meta| == |occupied| == |fixed|
    ensures |a| == |ch|
    ensures forall i :: 0 <= i < |a| ==> a[i] == Slot(ch[i], meta[i], occupied[i], fixed[i])
  {
    seq(|ch|, i requires 0 <= i < |ch| => Slot(ch[i], meta[i], occupied[i], fixed[i]))
  }

  class SharedWord {
    const text: string
    const sortingFloor: nat
    var arrivalFloor: nat
    var claimed: bool
    var owner: int
    var admitted: bool
    var completed: bool
    var activeReservation: bool
    const sortingArea: array<char>
    const sortingMeta: array<int>
    const occupied: array<bool>
    const fixed: array<bool>
    const charClaimed: array<bool>
    const charDelivered: array<bool>
    const charInTransit: array<bool>

    ghost predicate Valid() {
      && sortingArea.Length == sortingMeta.Length == |text|
      && occupied.Length == fixed.Length == |text|
      && charClaimed.Length == charDelivered.Length == charInTransit.Length == |text|
      && occupied != fixed && occupied != charClaimed && occupied != charDelivered && occupied != charInTransit
      && fixed != charClaimed && fixed != charDelivered && fixed != charInTransit
      && charClaimed != charDelivered && charClaimed != charInTransit && charDelivered != charInTransit
    }

    ghost function AreaView(): (a: Area)
      requires Valid()
      reads sortingArea, sortingMeta, occupied, fixed
      ensures |a| == |text|
    {
      Zip(sortingArea[..], sortingMeta[..], occupied[..], fixed[..])
    }

    /** The word as the protocol sees it. */
    ghost function View(): W.Word
      requires Valid()
      reads this, sortingArea, sortingMeta, occupied, fixed, charClaimed, charDelivered, charInTransit
    {
      W.Word(text, sortingFloor, claimed, owner, admitted, completed, activeReservation, arrivalFloor,
             AreaView(), charClaimed[..], charDelivered[..], charInTransit[..])
    }

    constructor (text: string, sortingFloor: nat)
      ensures Valid() && View() == W.Loaded(text, sortingFloor)
      ensures fresh(sortingArea) && fresh(sortingMeta) && fresh(occupied) && fresh(fixed)
      ensures fresh(charClaimed) && fresh(charDelivered) && fresh(charInTransit)
    {
      this.text, this.sortingFloor := text, sortingFloor;
      arrivalFloor, claimed, owner, admitted, completed, activeReservation := 0, false, 0, false, false, false;
      sortingArea := new char[|text|](_ => '\0');
      sortingMeta := new int[|text|](_ => -1);
      occupied := new bool[|text|](_ => false);
      fixed := new bool[|text|](_ => false);
      charClaimed := new bool[|text|](_ => false);
      charDelivered := new bool[|text|](_ => false);
      charInTransit := new bool[|text|](_ => false);
      new;
      assert AreaView() == Empty(|text|);
    }

    /** Puts character c into the first slot that is neither occupied nor fixed; -1 if there is none. */
    method PlaceChar(c: nat) returns (i: int)
      requires Valid() && c < |text|
      modifies sortingArea, sortingMeta, occupied
      ensures i == FreeSlot(old(AreaView()), 0)
      ensures AreaView() == if i == -1 then old(AreaView()) else Put(old(AreaView()), i, text[c], c)
    {
      for k := 0 to |text|
        invariant AreaView() == old(AreaView())
        invariant FreeSlot(AreaView(), 0) == FreeSlot(AreaView(), k)
      {
        if !fixed[k] && !occupied[k] {
          sortingArea[k] := text[c];
          sortingMeta[k] := c;
          occupied[k] := true;
          assert AreaView() == Put(old(AreaView()), k, text[c], c);
          return k;
        }
      }
      return -1;
    }

    /** Region of a direct placement or of the delivery elevator. */
    method DeliverChar(c: nat) returns (ok: bool)
      requires Valid() && c < |text|
      modifies sortingArea, sortingMeta, occupied, charClaimed, charDelivered, charInTransit
      ensures View() == W.Deliver(old(View()), c)
      ensures ok <==> FreeSlot(old(AreaView()), 0) != -1
    {
      var i := PlaceChar(c);
      if i >= 0 {
        charDelivered[c] := true;
        charInTransit[c] := false;
        return true;
      }
      charClaimed[c] := false;
      charInTransit[c] := false;
      return false;
    }

    /** A letter carrier's search for a character. The picks stand for the pseudo-random offsets, which
        need not reach every character. */
    method ClaimFreeChar(picks: seq<nat>) returns (c: int)
      requires Valid() && |picks| == |text| && forall j :: 0 <= j < |picks| ==> picks[j] < |text|
      modifies charClaimed, charInTransit
      ensures c == -1 || c in picks
      ensures c != -1 ==> W.CharFree(old(View()), c) && View() == W.ClaimChar(old(View()), c)
      ensures c == -1 ==> View() == old(View()) && forall j :: 0 <= j < |picks| ==> !W.CharFree(View(), picks[j])
    {
      for j := 0 to |text|
        invariant View() == old(View())
        invariant forall k :: 0 <= k < j ==> !W.CharFree(View(), picks[k])
      {
        var ci := picks[j];
        if !charClaimed[ci] && !charDelivered[ci] && !charInTransit[ci] {
          charClaimed[ci] := true;
          charInTransit[ci] := true;
          return ci;
        }
      }
      return -1;
    }

    /** Case 4a: the target is empty, the character moves there. */
    method MoveSlot(i: nat, tgt: nat)
      requires Valid() && i < |text| && tgt < |text| && i != tgt
      requires sortingMeta[i] == tgt && occupied[i] && !fixed[i] && !occupied[tgt] && !fixed[tgt]
      modifies sortingArea, sortingMeta, occupied, fixed
      ensures var a := old(AreaView()); AreaView() == a[tgt := a[i].(fixed := true)][i := CLEARED]
    {
      sortingArea[tgt] := sortingArea[i];
      sortingMeta[tgt] := sortingMeta[i];
      occupied[tgt] := true;
      occupied[i] := false;
      sortingArea[i] := '\0';
      sortingMeta[i] := -1;
      if sortingMeta[tgt] == tgt { fixed[tgt] := true; }
    }

    /** Case 4b: the target is occupied but not fixed, the two characters change places. */
    method SwapSlots(i: nat, tgt: nat)
      requires Valid() && i < |text| && tgt < |text| && i != tgt
      requires sortingMeta[i] == tgt && occupied[i] && !fixed[i] && occupied[tgt] && !fixed[tgt]
      modifies sortingArea, sortingMeta, fixed
      ensures var a := old(AreaView());
        AreaView() == a[tgt := a[i].(fixed := true)][i := a[tgt].(fixed := a[tgt].meta == i)]
    {
      var tc := sortingArea[tgt];
      var tm := sortingMeta[tgt];
      sortingArea[tgt] := sortingArea[i];
      sortingMeta[tgt] := sortingMeta[i];
      sortingArea[i] := tc;
      sortingMeta[i] := tm;
      if sortingMeta[tgt] == tgt { fixed[tgt] := true; }
      if sortingMeta[i] == i { fixed[i] := true; }
    }

    /** One iteration of the sorter's inner loop. */
    method VisitSlot(i: nat) returns (progress: bool)
      requires Valid() && i < |text|
      modifies sortingArea, sortingMeta, occupied, fixed
      ensures AreaView() == Visit(old(AreaView()), i)
      ensures progress <==> Acts(old(AreaView()), i)
    {
      if !occupied[i] || fixed[i] {
        return false;
      }
      var tgt := sortingMeta[i];
      if tgt == i {
        fixed[i] := true;
        assert AreaView() == Visit(old(AreaView()), i);
        progress := true;
      } else if 0 <= tgt < |text| && !fixed[tgt] {
        if !occupied[tgt] {
          MoveSlot(i, tgt);
        } else {
          SwapSlots(i, tgt);
        }
        progress := true;
      } else {
        progress := false;
      }
    }

    /** The sorter's pass over the word; whether it reports progress. */
    method SortPass() returns (progress: bool)
      requires Valid()
      modifies sortingArea, sortingMeta, occupied, fixed
      ensures AreaView() == Pass(old(AreaView()))
      ensures progress <==> exists i :: 0 <= i < |text| && Acts(Visits(old(AreaView()), i), i)
    {
      progress := false;
      for i := 0 to |text|
        invariant AreaView() == Visits(old(AreaView()), i)
        invariant progress <==> exists k :: 0 <= k < i && Acts(Visits(old(AreaView()), k), k)
      {
        var p := VisitSlot(i);
        assert p <==> Acts(Visits(old(AreaView()), i), i);
        progress := progress || p;
      }
    }

    method IsAllFixed() returns (all: bool)
      requires Valid()
      ensures all <==> AllFixed(AreaView())
    {
      for i := 0 to |text|
        invariant forall k :: 0 <= k < i ==> fixed[k]
      {
        if !fixed[i] {
          assert !AreaView()[i].fixed;
          return false;
        }
      }
      return true;
    }
  }

  /** The words' claim fields are those of the words of the protocol. */
  ghost predicate Claims(words: seq<SharedWord>, view: seq<W.Word>)
    reads words
  {
    |view| == |words| && forall i :: 0 <= i < |words| ==>
      view[i].claimed == words[i].claimed && view[i].admitted == words[i].admitted && view[i].completed == words[i].completed
  }

  /** The word is open to a claim. */
  ghost predicate Unclaimed(w: SharedWord)
    reads w
  {
    !w.claimed && !w.admitted && !w.completed
  }

  class Carrier {
    var currentFloor: nat
    constructor (floor: nat)
      ensures currentFloor == floor
    {
      currentFloor := floor;
    }
  }

  class SharedState {
    const maxWordsPerFloor: int
    const totalWords: nat
    var completedWords: nat
    var retries: nat
    var rrCursor: nat
    const activeWords: array<int>
    const carrierCount: array<int>
    const respawnPending: array<bool>

    ghost predicate Valid() {
      activeWords.Length == carrierCount.Length == respawnPending.Length && activeWords != carrierCount
    }

    constructor (floors: nat, capacity: int, words: nat)
      ensures Valid() && fresh(activeWords) && fresh(carrierCount) && fresh(respawnPending)
      ensures maxWordsPerFloor == capacity && totalWords == words
      ensures completedWords == 0 && retries == 0 && rrCursor == 0
      ensures activeWords[..] == seq(floors, f => 0) && carrierCount[..] == seq(floors, f => 0)
      ensures respawnPending[..] == seq(floors, f => false)
    {
      maxWordsPerFloor, totalWords, completedWords, retries, rrCursor := capacity, words, 0, 0, 0;
      activeWords := new int[floors](_ => 0);
      carrierCount := new int[floors](_ => 0);
      respawnPending := new bool[floors](_ => false);
    }

    /** The completion check that ends a sorter's pass. It releases both floors of the word. */
    method TryComplete(w: SharedWord) returns (done: bool)
      requires Valid() && w.Valid() && w.arrivalFloor < activeWords.Length && w.sortingFloor < activeWords.Length
      modifies this`completedWords, activeWords, w`completed, w`activeReservation
      ensures done <==> AllFixed(w.AreaView()) && !old(w.completed)
      ensures w.completed <==> old(w.completed) || done
      ensures w.activeReservation <==> old(w.activeReservation) && !done
      ensures completedWords == old(completedWords) + if done then 1 else 0
      ensures activeWords[..] == if done && old(w.activeReservation)
                                 then W.Reserve(old(activeWords[..]), w.arrivalFloor, w.sortingFloor, -1)
                                 else old(activeWords[..])
    {
      var all := w.IsAllFixed();
      if !all || w.completed {
        return false;
      }
      w.completed := true;
      completedWords := completedWords + 1;
      if w.activeReservation {
        activeWords[w.arrivalFloor] := activeWords[w.arrivalFloor] - 1;
        if w.sortingFloor != w.arrivalFloor {
          activeWords[w.sortingFloor] := activeWords[w.sortingFloor] - 1;
        }
        w.activeReservation := false;
      }
      return true;
    }

    /** A sorter's whole region on a word: the pass and the completion check. */
    method SortWord(w: SharedWord) returns (progress: bool)
      requires Valid() && w.Valid() && w.arrivalFloor < activeWords.Length && w.sortingFloor < activeWords.Length
      requires w.fixed != respawnPending && w.occupied != respawnPending
      requires w.sortingMeta != activeWords && w.sortingMeta != carrierCount
      modifies this`completedWords, activeWords, w`completed, w`activeReservation
      modifies w.sortingArea, w.sortingMeta, w.occupied, w.fixed
      ensures w.View() == if !old(w.completed) then W.Sort(old(w.View()))
                          else old(w.View()).(area := Pass(old(w.AreaView())))
      ensures completedWords == old(completedWords) + if w.completed && !old(w.completed) then 1 else 0
      ensures activeWords[..] == if w.completed && !old(w.completed) && old(w.activeReservation)
                                 then W.Reserve(old(activeWords[..]), w.arrivalFloor, w.sortingFloor, -1)
                                 else old(activeWords[..])
    {
      progress := w.SortPass();
      var done := TryComplete(w);
    }

    /** The round-robin claim: of the words open to a claim, the next one from the cursor on. */
    method ClaimWord(words: seq<SharedWord>, slot: int, ghost view: seq<W.Word>) returns (ci: int)
      requires |words| == totalWords && rrCursor < totalWords && Claims(words, view)
      modifies this`rrCursor, words`claimed, words`owner
      ensures ci == W.NextWord(W.Available(view), old(rrCursor), 0)
      ensures ci == -1 ==> forall k :: 0 <= k < totalWords ==> !old(Unclaimed(words[k]))
      ensures ci != -1 ==>
        && 0 <= ci < totalWords && old(Unclaimed(words[ci]))
        && forall k :: 0 <= k < totalWords && W.Before(old(rrCursor), k, ci) ==> !old(Unclaimed(words[k]))
      ensures rrCursor == if ci == -1 then old(rrCursor) else (ci + 1) % totalWords
      ensures ci != -1 ==> words[ci].claimed && words[ci].owner == slot && !old(words[ci].claimed)
      ensures forall w :: w in words && (ci == -1 || w != words[ci]) ==> unchanged(w)
    {
      W.NextWordIsNext(W.Available(view), rrCursor, 0);
      assert forall k :: 0 <= k < totalWords ==> W.Available(view)[k] == old(Unclaimed(words[k]));
      for seen := 0 to totalWords
        invariant forall w :: w in words ==> unchanged(w)
        invariant rrCursor == old(rrCursor)
        invariant W.NextWord(W.Available(view), rrCursor, 0) == W.NextWord(W.Available(view), rrCursor, seen)
      {
        var idx := (rrCursor + seen) % totalWords;
        var w := words[idx];
        if !w.claimed && !w.admitted && !w.completed {
          w.claimed := true;
          w.owner := slot;
          rrCursor := (idx + 1) % totalWords;
          return idx;
        }
      }
      return -1;
    }

    /** The all-or-nothing admission check of a word carrier on floor arrival. */
    method ReserveFloors(arrival: nat, sorting: nat) returns (ok: bool)
      requires arrival < activeWords.Length && sorting < activeWords.Length
      modifies activeWords
      ensures ok <==> W.HasRoom(old(activeWords[..]), maxWordsPerFloor, arrival, sorting)
      ensures ok <==> old(activeWords[arrival]) < maxWordsPerFloor && old(activeWords[sorting]) < maxWordsPerFloor
      ensures activeWords[..] == if ok then W.Reserve(old(activeWords[..]), arrival, sorting, 1) else old(activeWords[..])
    {
      var same := arrival == sorting;
      ok := activeWords[arrival] < maxWordsPerFloor && (same || activeWords[sorting] < maxWordsPerFloor);
      if ok {
        activeWords[arrival] := activeWords[arrival] + 1;
        if !same { activeWords[sorting] := activeWords[sorting] + 1; }
      }
    }

    /** The word carrier's last region: the word is admitted or put back. */
    method AdmitOrPutBack(w: SharedWord, ok: bool, floor: nat)
      requires w.Valid()
      modifies this`retries, w
      ensures w.View() == if ok then old(w.View()).(admitted := true, arrivalFloor := floor, reserved := true)
                          else old(w.View()).(claimed := false, owner := -1)
      ensures retries == old(retries) + if ok then 0 else 1
    {
      if ok {
        w.admitted, w.arrivalFloor, w.activeReservation := true, floor, true;
      } else {
        w.claimed, w.owner := false, -1;
        retries := retries + 1;
      }
    }

    /** The floor counts are those of this state of the system. */
    ghost predicate CountsOf(s: T.State)
      reads carrierCount, respawnPending
    {
      carrierCount[..] == s.counts && respawnPending[..] == s.respawn
    }

    /** The first region of a move: the carrier is taken off its floor's count. */
    method LeaveFloor(from: nat, ghost s: T.State, ghost kind: E.Kind) returns (emptied: bool)
      requires Valid() && CountsOf(s) && T.HeadIn(s, kind)
      requires from == s.carriers[T.LiftOf(s, kind).batch[0].carrier].floor != T.LiftOf(s, kind).batch[0].to
      modifies carrierCount
      ensures CountsOf(T.ApplyLeave(s, kind))
      ensures T.LiftOf(T.ApplyLeave(s, kind), kind).pc == T.Serving(T.Reaching(emptied))
      ensures carrierCount[..] == old(carrierCount[..])[from := old(carrierCount[from]) - 1] && emptied == (carrierCount[from] == 0)
    {
      carrierCount[from] := carrierCount[from] - 1;
      emptied := carrierCount[from] == 0;
    }

    /** The second region: it is counted on the new floor, which no longer waits for new carriers. */
    method ReachFloor(c: Carrier, to: nat, ghost s: T.State, ghost kind: E.Kind)
      requires Valid() && CountsOf(s) && T.HeadIn(s, kind) && T.LiftOf(s, kind).batch[0].to == to
      requires T.LiftOf(s, kind).pc.Serving? && T.LiftOf(s, kind).pc.phase.Reaching?
      modifies c, carrierCount, respawnPending
      ensures CountsOf(T.ApplyReach(s, kind))
      ensures c.currentFloor == T.ApplyReach(s, kind).carriers[T.LiftOf(s, kind).batch[0].carrier].floor == to
      ensures carrierCount[..] == old(carrierCount[..])[to := old(carrierCount[to]) + 1]
      ensures respawnPending[..] == old(respawnPending[..])[to := false]
    {
      carrierCount[to] := carrierCount[to] + 1;
      respawnPending[to] := false;
      c.currentFloor := to;
    }

    /** The third region: a floor found empty on leaving is reported once, if it is still empty. */
    method ReportEmpty(from: nat, ghost s: T.State, ghost kind: E.Kind) returns (reported: bool)
      requires Valid() && CountsOf(s) && from < carrierCount.Length && T.LiftOf(s, kind).pc == T.Serving(T.Reporting(from))
      modifies respawnPending
      ensures CountsOf(T.ApplyReport(s, kind))
      ensures reported <==> carrierCount[from] == 0 && !old(respawnPending[from])
      ensures respawnPending[..] == old(respawnPending[..])[from := old(respawnPending[from]) || carrierCount[from] == 0]
    {
      reported := carrierCount[from] == 0 && !respawnPending[from];
      if reported {
        respawnPending[from] := true;
      }
    }

    /** The regions in sequence. The ghost parameters are the states of the system in which they come
        about; others may have acted in between, here only on other things than the floor counts. */
    method MoveCarrier(c: Carrier, to: nat, ghost s: T.State, ghost kind: E.Kind) returns (reported: bool)
      requires Valid() && CountsOf(s) && T.HeadIn(s, kind) && T.LiftOf(s, kind).batch[0].to == to
      requires T.LiftOf(s, kind).pc == T.Serving(T.Leaving)
      requires c.currentFloor == s.carriers[T.LiftOf(s, kind).batch[0].carrier].floor
      modifies c, carrierCount, respawnPending
      ensures c.currentFloor == to
      ensures var from := old(c.currentFloor);
        if from == to then CountsOf(s) && !reported && carrierCount[..] == old(carrierCount[..])
        else
          var reached := T.ApplyReach(T.ApplyLeave(s, kind), kind);
          CountsOf(if T.LiftOf(reached, kind).pc == T.Serving(T.Reporting(from)) then T.ApplyReport(reached, kind) else reached)
    {
      var from := c.currentFloor;
      if from == to {
        return false;
      }
      var emptied := LeaveFloor(from, s, kind);
      ReachFloor(c, to, T.ApplyLeave(s, kind), kind);
      reported := false;
      if emptied {
        reported := ReportEmpty(from, T.ApplyReach(T.ApplyLeave(s, kind), kind), kind);
      }
    }
  }
}
