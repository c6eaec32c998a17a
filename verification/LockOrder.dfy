/** Mutex deadlock freedom: the processes acquire their mutexes in one order, so however many processes
    run and however they interleave, no circular wait arises. Each region is given by the sequence of
    mutex operations of the code. HW3/word_carrier.c:13-57, HW3/sorting.c:19-64,
    HW3/letter_carrier.c:6-31, HW3/letter_carrier.c:52-90, HW3/letter_carrier.c:115-118,
    HW3/shared_memory.c:241-302, HW3/shared_memory.c:338-361, HW3/elevator.c:91-122. */
module LockOrder {
  import opened Counting

  datatype Lock =
    | SorterLock(w: nat) | WordMutex(w: nat) | GlobalMutex | FloorMutex(f: nat) | PrintMutex
    | DeliveryMutex | RepositionMutex

  /** Try is sem_trywait: it does not block, and on failure the region is skipped. */
  datatype Op = Acquire(l: Lock) | Try(l: Lock) | Release(l: Lock)

  /** The regions of the program that use mutexes. */
  datatype Region =
    | ClaimWordRegion
    | ReserveFloorsRegion(af: nat, sf: nat)
    | AdmitRegion(w: nat) | PutBackRegion(w: nat)
    | WordRegion(w: nat)
    | TableRegion(delivery: bool)
    | OneFloorRegion(f: nat)
    | ReserveCarrierRegion(f: nat)
    | SortRegion(w: nat, entered: bool, completes: bool, releases: bool, af: nat, sf: nat)
    | LogRegion

  function FloorPair(af: nat, sf: nat): seq<Op> {
    var lo, hi := if af < sf then af else sf, if af < sf then sf else af;
    if lo == hi then [Acquire(FloorMutex(lo)), Release(FloorMutex(lo))]
    else [Acquire(FloorMutex(lo)), Acquire(FloorMutex(hi)), Release(FloorMutex(hi)), Release(FloorMutex(lo))]
  }

  const LOG: seq<Op> := [Acquire(PrintMutex), Release(PrintMutex)]

  function Around(l: Lock, ops: seq<Op>): seq<Op> {
    [Acquire(l)] + ops + [Release(l)]
  }

  /** The mutex operations of a region, in program order. A sorter that finds the word no longer open
      leaves at once; one that completes the word may release its floors, and logs. */
  function Script(r: Region): seq<Op> {
    match r
    case ClaimWordRegion => Around(GlobalMutex, [])
    case ReserveFloorsRegion(af, sf) => FloorPair(af, sf)
    case AdmitRegion(w) => Around(WordMutex(w), LOG)
    case PutBackRegion(w) => Around(WordMutex(w), [])
    case WordRegion(w) => Around(WordMutex(w), [])
    case TableRegion(delivery) => Around(if delivery then DeliveryMutex else RepositionMutex, [])
    case OneFloorRegion(f) => Around(FloorMutex(f), [])
    case ReserveCarrierRegion(f) => Around(GlobalMutex, Around(FloorMutex(f), []))
    case SortRegion(w, entered, completes, releases, af, sf) =>
      [Try(SorterLock(w))]
      + Around(WordMutex(w), if entered && completes then (if releases then FloorPair(af, sf) else []) + LOG else [])
      + [Release(SorterLock(w))]
    case LogRegion => LOG
  }

  // ---------------------------------------------------------------------------------------------
  // The order

  function Class(l: Lock): nat {
    match l
    case SorterLock(_) => 0
    case WordMutex(_) => 1
    case GlobalMutex => 2
    case FloorMutex(_) => 3
    case PrintMutex => 4
    case DeliveryMutex => 5
    case RepositionMutex => 5
  }

  function Number(l: Lock): nat {
    match l
    case SorterLock(w) => w
    case WordMutex(w) => w
    case FloorMutex(f) => f
    case _ => 0
  }

  predicate Before(a: Lock, b: Lock) {
    Class(a) < Class(b) || (Class(a) == Class(b) && Number(a) < Number(b))
  }

  /** A process holding these locks may run the script: every acquisition is after all locks held, and
      only held locks are released, all of them by the end. */
  ghost predicate Ordered(held: set<Lock>, script: seq<Op>)
    decreases |script|
  {
    if script == [] then held == {}
    else match script[0]
      case Acquire(l) => (forall h :: h in held ==> Before(h, l)) && Ordered(held + {l}, script[1..])
      case Try(l) => held == {} && Ordered({l}, script[1..])
      case Release(l) => l in held && Ordered(held - {l}, script[1..])
  }

  lemma LogOrdered(held: set<Lock>, rest: seq<Op>)
    requires Ordered(held, rest) && forall h :: h in held ==> Before(h, PrintMutex)
    ensures Ordered(held, LOG + rest)
  {
    assert (LOG + rest)[1..] == [Release(PrintMutex)] + rest;
    assert ([Release(PrintMutex)] + rest)[1..] == rest;
    assert held + {PrintMutex} - {PrintMutex} == held;
  }

  lemma ReleaseOrdered(held: set<Lock>, l: Lock, rest: seq<Op>)
    requires l !in held && Ordered(held, rest)
    ensures Ordered(held + {l}, [Release(l)] + rest)
  {
    assert ([Release(l)] + rest)[1..] == rest;
    assert held + {l} - {l} == held;
  }

  lemma AcquireOrdered(held: set<Lock>, l: Lock, rest: seq<Op>)
    requires Ordered(held + {l}, rest) && forall h :: h in held ==> Before(h, l)
    ensures Ordered(held, [Acquire(l)] + rest)
  {
    assert ([Acquire(l)] + rest)[1..] == rest;
  }

  lemma FloorPairOrdered(held: set<Lock>, af: nat, sf: nat, rest: seq<Op>)
    requires Ordered(held, rest) && forall h :: h in held ==> Class(h) < 3
    ensures Ordered(held, FloorPair(af, sf) + rest)
  {
    var lo, hi := if af < sf then af else sf, if af < sf then sf else af;
    var a, b := FloorMutex(lo), FloorMutex(hi);
    var r1 := [Release(a)] + rest;
    ReleaseOrdered(held, a, rest);
    if lo == hi {
      AcquireOrdered(held, a, r1);
      assert FloorPair(af, sf) + rest == [Acquire(a)] + r1;
    } else {
      var r2 := [Release(b)] + r1;
      ReleaseOrdered(held + {a}, b, r1);
      AcquireOrdered(held + {a}, b, r2);
      AcquireOrdered(held, a, [Acquire(b)] + r2);
      assert FloorPair(af, sf) + rest == [Acquire(a)] + ([Acquire(b)] + r2);
    }
  }

  /** Acquiring a lock, running ordered operations while holding it, and releasing it. */
  lemma AroundOrdered(held: set<Lock>, l: Lock, ops: seq<Op>, rest: seq<Op>)
    requires l !in held && forall h :: h in held ==> Before(h, l)
    requires Ordered(held + {l}, ops + ([Release(l)] + rest))
    ensures Ordered(held, Around(l, ops) + rest)
  {
    assert (Around(l, ops) + rest)[1..] == ops + ([Release(l)] + rest);
  }

  lemma AroundNothing(l: Lock)
    ensures Ordered({}, Around(l, []))
  {
    ReleaseOrdered({}, l, []);
    assert [] + ([Release(l)] + []) == [Release(l)] + [];
    AroundOrdered({}, l, [], []);
    assert Around(l, []) + [] == Around(l, []);
  }

  lemma SortRegionOrdered(r: Region)
    requires r.SortRegion?
    ensures Ordered({}, Script(r))
  {
    var s, m := SorterLock(r.w), WordMutex(r.w);
    var floors := if r.releases then FloorPair(r.af, r.sf) else [];
    var inner := if r.entered && r.completes then floors + LOG else [];
    var end := [Release(s)];
    ReleaseOrdered({}, s, []);
    assert [Release(s)] + [] == end && {} + {s} == {s};
    ReleaseOrdered({s}, m, end);
    var tail := [Release(m)] + end;
    if r.entered && r.completes {
      LogOrdered({s} + {m}, tail);
      if r.releases {
        FloorPairOrdered({s} + {m}, r.af, r.sf, LOG + tail);
      }
      assert inner + tail == floors + (LOG + tail);
      if !r.releases {
        assert floors + (LOG + tail) == LOG + tail;
      }
    } else {
      assert inner + tail == tail;
    }
    AroundOrdered({s}, m, inner, end);
    assert Script(r) == [Try(s)] + (Around(m, inner) + end);
    assert ([Try(s)] + (Around(m, inner) + end))[1..] == Around(m, inner) + end;
  }

  /** Every region of the program follows the order. */
  lemma RegionOrdered(r: Region)
    ensures Ordered({}, Script(r))
  {
    match r
    case ClaimWordRegion => AroundNothing(GlobalMutex);
    case ReserveFloorsRegion(af, sf) =>
      FloorPairOrdered({}, af, sf, []);
      assert FloorPair(af, sf) + [] == FloorPair(af, sf);
    case AdmitRegion(w) =>
      var m := WordMutex(w);
      ReleaseOrdered({}, m, []);
      LogOrdered({} + {m}, [Release(m)] + []);
      AroundOrdered({}, m, LOG, []);
      assert Around(m, LOG) + [] == Around(m, LOG);
    case PutBackRegion(w) => AroundNothing(WordMutex(w));
    case WordRegion(w) => AroundNothing(WordMutex(w));
    case TableRegion(delivery) => AroundNothing(if delivery then DeliveryMutex else RepositionMutex);
    case OneFloorRegion(f) => AroundNothing(FloorMutex(f));
    case ReserveCarrierRegion(f) =>
      var g, m := GlobalMutex, FloorMutex(f);
      ReleaseOrdered({}, g, []);
      ReleaseOrdered({} + {g}, m, [Release(g)] + []);
      assert [] + ([Release(m)] + ([Release(g)] + [])) == [Release(m)] + ([Release(g)] + []);
      AroundOrdered({} + {g}, m, [], [Release(g)] + []);
      AroundOrdered({}, g, Around(m, []), []);
      assert Around(g, Around(m, [])) + [] == Around(g, Around(m, []));
    case SortRegion(_, _, _, _, _, _) => SortRegionOrdered(r);
    case LogRegion =>
      LogOrdered({}, []);
      assert LOG + [] == LOG;
  }

  /** The locks held after these operations, all of which succeed. */
  function HeldAfter(held: set<Lock>, ops: seq<Op>): set<Lock>
    decreases |ops|
  {
    if ops == [] then held
    else match ops[0]
      case Acquire(l) => HeldAfter(held + {l}, ops[1..])
      case Try(l) => HeldAfter(held + {l}, ops[1..])
      case Release(l) => HeldAfter(held - {l}, ops[1..])
  }

  lemma PairHeld(held: set<Lock>, af: nat, sf: nat, rest: seq<Op>) returns (k: nat)
    ensures k <= |FloorPair(af, sf)|
    ensures HeldAfter(held, (FloorPair(af, sf) + rest)[..k]) == held + {FloorMutex(af), FloorMutex(sf)}
  {
    var lo, hi := FloorMutex(if af < sf then af else sf), FloorMutex(if af < sf then sf else af);
    k := if lo == hi then 1 else 2;
    var ops := (FloorPair(af, sf) + rest)[..k];
    if lo == hi {
      assert ops == [Acquire(lo)] && ops[1..] == [];
      assert HeldAfter(held, ops) == HeldAfter(held + {lo}, []);
    } else {
      assert ops == [Acquire(lo), Acquire(hi)] && ops[1..] == [Acquire(hi)] && ops[1..][1..] == [];
      assert HeldAfter(held, ops) == HeldAfter(held + {lo} + {hi}, []);
    }
  }

  /** A word carrier that reserves places, and a sorter that gives them back, hold the mutexes of both floors
      at once, the sorter together with the word's own. */
  lemma FloorsTogether(w: nat, af: nat, sf: nat) returns (k: nat, m: nat)
    ensures var ops := Script(ReserveFloorsRegion(af, sf));
            k <= |ops| && HeldAfter({}, ops[..k]) == {FloorMutex(af), FloorMutex(sf)}
    ensures var ops := Script(SortRegion(w, true, true, true, af, sf));
            m <= |ops| && HeldAfter({}, ops[..m]) == {SorterLock(w), WordMutex(w), FloorMutex(af), FloorMutex(sf)}
  {
    k := PairHeld({}, af, sf, []);
    assert FloorPair(af, sf) + [] == FloorPair(af, sf);
    var rest := LOG + [Release(WordMutex(w))] + [Release(SorterLock(w))];
    var n := PairHeld({SorterLock(w)} + {WordMutex(w)}, af, sf, rest);
    m := n + 2;
    var ops := Script(SortRegion(w, true, true, true, af, sf));
    var pair := (FloorPair(af, sf) + rest)[..n];
    assert ops == [Try(SorterLock(w)), Acquire(WordMutex(w))] + (FloorPair(af, sf) + rest);
    assert ops[..m] == [Try(SorterLock(w)), Acquire(WordMutex(w))] + pair;
    assert ops[..m][1..] == [Acquire(WordMutex(w))] + pair && ops[..m][1..][1..] == pair;
    assert {} + {SorterLock(w)} == {SorterLock(w)};
  }

  // ---------------------------------------------------------------------------------------------
  // The processes

  datatype Process = Process(held: set<Lock>, script: seq<Op>)

  predicate FreeLock(ps: seq<Process>, l: Lock) {
    forall p :: 0 <= p < |ps| ==> l !in ps[p].held
  }

  /** Process p takes one step: it enters a region or runs its next mutex operation. */
  ghost predicate Step(ps: seq<Process>, qs: seq<Process>, p: nat) {
    && p < |ps|
    && var x := ps[p];
       if x.script == [] then exists r :: qs == ps[p := x.(script := Script(r))]
       else match x.script[0]
         case Acquire(l) => FreeLock(ps, l) && qs == ps[p := Process(x.held + {l}, x.script[1..])]
         case Try(l) =>
           if FreeLock(ps, l) then qs == ps[p := Process(x.held + {l}, x.script[1..])] else qs == ps[p := x.(script := [])]
         case Release(l) => qs == ps[p := Process(x.held - {l}, x.script[1..])]
  }

  /** Reachable from n idle processes in the given number of steps. */
  ghost predicate ReachableIn(n: nat, ps: seq<Process>, steps: nat)
    decreases steps
  {
    if steps == 0 then ps == seq(n, i => Process({}, []))
    else exists before, p: nat :: ReachableIn(n, before, steps - 1) && Step(before, ps, p)
  }

  ghost predicate Safe(ps: seq<Process>) {
    && (forall p :: 0 <= p < |ps| ==> Ordered(ps[p].held, ps[p].script))
    && (forall p, q :: 0 <= p < q < |ps| ==> ps[p].held !! ps[q].held)
  }

  lemma StepSafe(ps: seq<Process>, qs: seq<Process>, p: nat)
    requires Safe(ps) && Step(ps, qs, p)
    ensures Safe(qs)
  {
    var x := ps[p];
    assert Ordered(x.held, x.script);
    if x.script == [] {
      var r :| qs == ps[p := x.(script := Script(r))];
      RegionOrdered(r);
    } else if x.script[0].Try? {
      assert {} + {x.script[0].l} == {x.script[0].l};
    }
  }

  lemma {:induction false} ReachableSafe(n: nat, ps: seq<Process>, steps: nat)
    requires ReachableIn(n, ps, steps)
    ensures Safe(ps) && |ps| == n
    decreases steps
  {
    if steps > 0 {
      var before, p: nat :| ReachableIn(n, before, steps - 1) && Step(before, ps, p);
      ReachableSafe(n, before, steps - 1);
      StepSafe(before, ps, p);
    }
  }

  /** p wants a lock that q holds. */
  ghost predicate WaitsFor(ps: seq<Process>, p: nat, q: nat) {
    p < |ps| && q < |ps| && ps[p].script != [] && ps[p].script[0].Acquire? && ps[p].script[0].l in ps[q].held
  }

  ghost predicate WaitPath(ps: seq<Process>, path: seq<nat>) {
    forall i :: 0 <= i < |path| - 1 ==> WaitsFor(ps, path[i], path[i + 1])
  }

  /** Along a chain of waiting processes the wanted locks go up in the order. */
  lemma {:induction false} WantsIncrease(ps: seq<Process>, path: seq<nat>, i: nat, j: nat)
    requires Safe(ps) && WaitPath(ps, path) && i < j < |path| - 1
    ensures WaitsFor(ps, path[i], path[i + 1]) && WaitsFor(ps, path[j], path[j + 1])
    ensures Before(ps[path[i]].script[0].l, ps[path[j]].script[0].l)
    decreases j - i
  {
    assert WaitsFor(ps, path[i], path[i + 1]) && WaitsFor(ps, path[i + 1], path[i + 2]) && WaitsFor(ps, path[j], path[j + 1]);
    var q := ps[path[i + 1]];
    assert Ordered(q.held, q.script);
    if i + 1 < j {
      WantsIncrease(ps, path, i + 1, j);
    }
  }

  /** The wait-for graph has no cycle in any reachable state. */
  lemma NoCircularWait(n: nat, ps: seq<Process>, steps: nat, path: seq<nat>)
    requires ReachableIn(n, ps, steps) && WaitPath(ps, path) && |path| >= 2
    ensures path[0] != path[|path| - 1]
  {
    ReachableSafe(n, ps, steps);
    Acyclic(ps, path);
  }

  lemma Acyclic(ps: seq<Process>, path: seq<nat>)
    requires Safe(ps) && WaitPath(ps, path) && |path| >= 2
    ensures path[0] != path[|path| - 1]
  {
    if path[0] == path[|path| - 1] {
      var again := path + [path[1]];
      forall i | 0 <= i < |again| - 1
        ensures WaitsFor(ps, again[i], again[i + 1])
      {
        assert WaitsFor(ps, path[0], path[1]);
        assert i < |path| - 1 ==> WaitsFor(ps, path[i], path[i + 1]);
      }
      WantsIncrease(ps, again, 0, |path| - 1);
    }
  }

  /** Following the waits from a blocked process ends at one that is inside a region and not blocked. */
  lemma {:induction false} Unblocked(ps: seq<Process>, path: seq<nat>) returns (q: nat)
    requires Safe(ps) && WaitPath(ps, path) && path != []
    requires path[|path| - 1] < |ps| && ps[path[|path| - 1]].script != []
    requires |path| <= |ps|
    ensures q < |ps| && ps[q].script != [] && forall r :: !WaitsFor(ps, q, r)
    decreases |ps| - |path|
  {
    var last := path[|path| - 1];
    if r: nat :| WaitsFor(ps, last, r) {
      assert Ordered(ps[r].held, ps[r].script);
      var longer := path + [r];
      forall i | 0 <= i < |longer| - 1
        ensures WaitsFor(ps, longer[i], longer[i + 1])
      {
        assert i < |path| - 1 ==> WaitsFor(ps, path[i], path[i + 1]);
      }
      forall i, j | 0 <= i < j < |longer|
        ensures longer[i] != longer[j]
      {
        var part := longer[i..j + 1];
        forall k | 0 <= k < |part| - 1
          ensures WaitsFor(ps, part[k], part[k + 1])
        {
          assert WaitsFor(ps, longer[i + k], longer[i + k + 1]);
        }
        Acyclic(ps, part);
      }
      forall i | 0 <= i < |longer|
        ensures longer[i] < |ps|
      {
        assert i < |longer| - 1 ==> WaitsFor(ps, longer[i], longer[i + 1]);
      }
      DistinctSize(longer, |ps|);
      q := Unblocked(ps, longer);
    } else {
      q := last;
    }
  }

  /** No deadlock: while some process is inside a region, some process inside a region can go on. */
  lemma NoDeadlock(n: nat, ps: seq<Process>, steps: nat, p: nat)
    requires ReachableIn(n, ps, steps) && p < |ps| && ps[p].script != []
    ensures exists q: nat, qs :: q < |ps| && ps[q].script != [] && Step(ps, qs, q)
  {
    ReachableSafe(n, ps, steps);
    var q := Unblocked(ps, [p]);
    var x := ps[q];
    match x.script[0]
    case Acquire(l) =>
      forall r | 0 <= r < |ps|
        ensures l !in ps[r].held
      {
        assert !WaitsFor(ps, q, r);
      }
      assert Step(ps, ps[q := Process(x.held + {l}, x.script[1..])], q);
    case Try(l) =>
      if FreeLock(ps, l) {
        assert Step(ps, ps[q := Process(x.held + {l}, x.script[1..])], q);
      } else {
        assert Step(ps, ps[q := x.(script := [])], q);
      }
    case Release(l) =>
      assert Step(ps, ps[q := Process(x.held - {l}, x.script[1..])], q);
  }
}
