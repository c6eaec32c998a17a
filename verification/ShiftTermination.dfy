/** Under fair scheduling every shift comes to its end. */
module ShiftTermination {
  import opened Counting
  import opened OrderQueues
  import opened Shift
  import opened ShiftResults

  function PcWork(x: Courier): int {
    match x.pc
    case Delivering(_) => 5
    case Noted(_) => 4
    case Tallied(_) => 3
    case Timed => 2
    case Ready => 1
    case Asleep => 1
    case Gone => 0
  }

  function MainWork(n: nat, s: State): nat {
    match s.main
    case Creating => 3 * n + 5 + if |s.couriers| < n then 2 * (n - |s.couriers|) else 0
    case Failing => 3 * n + 4
    case Testing => n + 3
    case Cancelling => n + 3
    case Waiting => n + 3
    case Joining(k) => if k <= |s.couriers| <= n then |s.couriers| - k + 1 else 0
    case Done => 0
  }

  /** What is left to do. */
  function Work(n: nat, s: State): int {
    10 * |s.queue| + Over(s.couriers, PcWork) + MainWork(n, s) + (if s.sigint then 0 else 1) + if s.stopping then 0 else 1
  }

  lemma {:induction false} OverNatural(couriers: seq<Courier>)
    ensures Over(couriers, PcWork) >= 0
  {
    if couriers != [] {
      OverNatural(couriers[..|couriers| - 1]);
    }
  }

  lemma WokenWork(couriers: seq<Courier>)
    ensures Over(Woken(couriers), PcWork) == Over(couriers, PcWork)
  {
    OverSame(couriers, Woken(couriers), PcWork);
  }

  /** A step that changes one courier, and the queue and the totals besides. */
  lemma CourierChange(n: nat, s: State, s': State, c: nat, x: Courier)
    requires c < |s.couriers| && s'.couriers == s.couriers[c := x]
    requires s'.main == s.main && s'.sigint == s.sigint && s'.stopping == s.stopping
    ensures Work(n, s') == Work(n, s) - PcWork(s.couriers[c]) + PcWork(x) + 10 * (|s'.queue| - |s.queue|)
  {
    OverChange(s.couriers, c, x, PcWork);
  }

  lemma CourierWork(n: nat, s: State, step: Step)
    requires Enabled(n, s, step)
    requires step.Wait? || step.Nudge? || step.Start? || step.Deliver? || step.Tally? || step.AddTime?
    ensures Work(n, Apply(n, s, step)) <= Work(n, s) && (!Waits(s, step) ==> Work(n, Apply(n, s, step)) < Work(n, s))
  {
    var s' := Apply(n, s, step);
    CourierChange(n, s, s', step.c, s'.couriers[step.c]);
  }

  /** A courier moves on and everybody may be woken. */
  lemma MovedWork(s: State, c: nat, pc: Pc)
    requires c < |s.couriers|
    ensures Over(SetPc(s, c, pc).couriers, PcWork) == Over(Woken(SetPc(s, c, pc).couriers), PcWork)
            == Over(s.couriers, PcWork) - PcWork(s.couriers[c]) + PcWork(s.couriers[c].(pc := pc))
  {
    OverChange(s.couriers, c, s.couriers[c].(pc := pc), PcWork);
    WokenWork(SetPc(s, c, pc).couriers);
  }

  lemma ReturnWork(n: nat, s: State, c: nat)
    requires Control(n, s) && AtPc(s, c, Timed)
    ensures Work(n, Returned(s, c)) < Work(n, s)
  {
    MovedWork(s, c, Ready);
  }

  lemma LeaveWork(n: nat, s: State, c: nat)
    requires Control(n, s) && AtPc(s, c, Ready)
    ensures Work(n, Left(s, c)) < Work(n, s)
  {
    MovedWork(s, c, Gone);
  }

  lemma CreateWork(n: nat, s: State)
    requires Control(n, s) && Enabled(n, s, CreateCourier)
    ensures Work(n, Apply(n, s, CreateCourier)) < Work(n, s)
  {
    assert (s.couriers + [Courier(Ready, 0, 0, [])])[..|s.couriers|] == s.couriers;
  }

  lemma CancelWork(n: nat, s: State, step: Step)
    requires Control(n, s) && Enabled(n, s, step) && (step.CancelPending? || step.CancelAfterFailure?)
    ensures Work(n, Apply(n, s, step)) <= Work(n, s) && (!Waits(s, step) ==> Work(n, Apply(n, s, step)) < Work(n, s))
  {
    WokenWork(s.couriers);
  }

  lemma MainStepWork(n: nat, s: State, step: Step)
    requires Control(n, s) && Enabled(n, s, step) && OfMain(step)
    requires !step.CreateCourier? && !step.CancelPending? && !step.CancelAfterFailure?
    ensures Work(n, Apply(n, s, step)) <= Work(n, s) && (!Waits(s, step) ==> Work(n, Apply(n, s, step)) < Work(n, s))
  {
  }

  /** No step adds work, and every step that is not mere waiting takes some away. */
  lemma StepWork(n: nat, s: State, step: Step)
    requires Control(n, s) && Enabled(n, s, step)
    ensures Work(n, Apply(n, s, step)) <= Work(n, s) && (!Waits(s, step) ==> Work(n, Apply(n, s, step)) < Work(n, s))
  {
    if step.Return? {
      ReturnWork(n, s, step.c);
    } else if step.Leave? {
      LeaveWork(n, s, step.c);
    } else if step.CreateCourier? {
      CreateWork(n, s);
    } else if step.CancelPending? || step.CancelAfterFailure? {
      CancelWork(n, s, step);
    } else if OfMain(step) {
      MainStepWork(n, s, step);
    } else if !step.Interrupt? {
      CourierWork(n, s, step);
    }
  }

  predicate OfMain(step: Step) {
    step.CreateCourier? || step.CreateFails? || step.CancelAfterFailure? || step.EndShift? || step.NoticeSigint?
    || step.CancelPending? || step.TimedWait? || step.TimeOut? || step.Join?
  }

  predicate OfCourier(step: Step, c: nat) {
    (step.Wait? || step.Leave? || step.Start? || step.Deliver? || step.Tally? || step.AddTime? || step.Return?) && step.c == c
  }

  ghost predicate MainCanAct(n: nat, s: State) {
    exists step :: Enabled(n, s, step) && OfMain(step)
  }

  ghost predicate CourierCanAct(n: nat, s: State, c: nat) {
    exists step :: Enabled(n, s, step) && OfCourier(step, c)
  }

  /** An endless run; once the main thread is done it may stand still. */
  ghost predicate Endless(n: nat, input: seq<Order>, run: nat -> State, steps: nat -> Step) {
    && Init(n, input, run(0))
    && forall i: nat :: Moves(n, run(i), steps(i), run(i + 1))
  }

  ghost predicate Moves(n: nat, s: State, step: Step, s': State) {
    Leads(n, s, step, s') || (s.main.Done? && s' == s)
  }

  /** At moment j the courier acts, or could not act. */
  ghost predicate CourierTurn(n: nat, run: nat -> State, steps: nat -> Step, c: nat, j: nat) {
    OfCourier(steps(j), c) || !CourierCanAct(n, run(j), c)
  }

  ghost predicate MainTurn(n: nat, run: nat -> State, steps: nat -> Step, j: nat) {
    OfMain(steps(j)) || !MainCanAct(n, run(j))
  }

  ghost predicate CourierServed(n: nat, run: nat -> State, steps: nat -> Step, c: nat, i: nat) {
    exists j: nat :: j >= i && CourierTurn(n, run, steps, c, j)
  }

  ghost predicate MainServed(n: nat, run: nat -> State, steps: nat -> Step, i: nat) {
    exists j: nat :: j >= i && MainTurn(n, run, steps, j)
  }

  /** Nobody is passed over for ever: again and again each party acts or has nothing it could do. */
  ghost predicate Fair(n: nat, run: nat -> State, steps: nat -> Step) {
    && (forall c: nat, i: nat :: CourierServed(n, run, steps, c, i))
    && forall i: nat :: MainServed(n, run, steps, i)
  }

  lemma {:induction false} EndlessControl(n: nat, input: seq<Order>, run: nat -> State, steps: nat -> Step, i: nat)
    requires Endless(n, input, run, steps)
    ensures Control(n, run(i))
  {
    if i > 0 {
      EndlessControl(n, input, run, steps, i - 1);
      assert Moves(n, run(i - 1), steps(i - 1), run(i - 1 + 1));
      if Leads(n, run(i - 1), steps(i - 1), run(i)) {
        StepKeepsControl(n, run(i - 1), steps(i - 1));
      }
    }
  }

  /** From i on the main thread is never done. */
  ghost predicate GoesOn(n: nat, run: nat -> State, steps: nat -> Step, i: nat) {
    forall k: nat :: k >= i ==> Leads(n, run(k), steps(k), run(k + 1)) && Control(n, run(k)) && !run(k).main.Done?
  }

  /** Between moments i and j everybody only waits. */
  ghost predicate Stalled(n: nat, run: nat -> State, steps: nat -> Step, i: nat, j: nat) {
    i <= j && forall k: nat :: i <= k < j ==> Leads(n, run(k), steps(k), run(k + 1)) && Waits(run(k), steps(k)) && Control(n, run(k))
  }

  /** A courier that waiting, its own or others', cannot move: in delivery, gone, or nobody is delivering. */
  predicate Still(s: State, c: nat) {
    c < |s.couriers| && (!(s.couriers[c].pc.Ready? || s.couriers[c].pc.Asleep?) || s.active == 0)
  }

  predicate StillMain(s: State) {
    s.main.Creating? || s.main.Failing? || s.main.Joining? || (s.main.Testing? && s.stopping && s.active == 0)
  }

  /** What mere waiting leaves alone. */
  ghost predicate Unmoved(s: State, s': State) {
    && s'.active == s.active && s'.stopping == s.stopping && s'.queue == s.queue && |s'.couriers| == |s.couriers|
    && (forall c: nat :: Still(s, c) ==> s'.couriers[c] == s.couriers[c] && Still(s', c))
    && (StillMain(s) ==> s'.main == s.main)
  }

  lemma WaitingStep(n: nat, s: State, step: Step)
    requires Control(n, s) && Enabled(n, s, step) && Waits(s, step)
    ensures Unmoved(s, Apply(n, s, step))
    ensures s.main.Cancelling? && step.CancelPending? ==> Apply(n, s, step).main.Testing?
  {
    if step.Nudge? {
      assert CourierOk(s, s.couriers[step.c].pc);
    }
  }

  lemma UnmovedJoin(a: State, b: State, c: State)
    requires Unmoved(a, b) && Unmoved(b, c)
    ensures Unmoved(a, c)
  {
  }

  lemma {:induction false} StalledSame(n: nat, run: nat -> State, steps: nat -> Step, i: nat, j: nat)
    requires Stalled(n, run, steps, i, j)
    ensures Unmoved(run(i), run(j))
    decreases j - i
  {
    if i < j {
      StalledSame(n, run, steps, i, j - 1);
      assert Leads(n, run(j - 1), steps(j - 1), run(j - 1 + 1));
      WaitingStep(n, run(j - 1), steps(j - 1));
      UnmovedJoin(run(i), run(j - 1), run(j));
    }
  }

  lemma FindStep(n: nat, run: nat -> State, steps: nat -> Step, i: nat, j: nat) returns (found: bool, k: nat)
    requires GoesOn(n, run, steps, i) && i <= j
    ensures if found then i <= k && !Waits(run(k), steps(k)) else Stalled(n, run, steps, i, j)
  {
    if m: nat :| i <= m < j && !Waits(run(m), steps(m)) {
      found, k := true, m;
    } else {
      found, k := false, 0;
    }
  }

  lemma CanAct(n: nat, s: State, c: nat)
    requires c < |s.couriers| && (InDelivery(s.couriers[c].pc) || (s.couriers[c].pc.Ready? && s.active == 0))
    ensures CourierCanAct(n, s, c)
  {
    var own := match s.couriers[c].pc
      case Delivering(_) => Deliver(c)
      case Noted(_) => Tally(c)
      case Tallied(_) => AddTime(c)
      case Timed => Return(c)
      case _ => if s.queue != [] && !s.stopping then Start(c) else Leave(c);
    assert Enabled(n, s, own) && OfCourier(own, c);
  }

  /** A courier in delivery, or ready with nobody in delivery, acts before long, and that is no waiting. */
  lemma CourierActs(n: nat, run: nat -> State, steps: nat -> Step, i: nat, c: nat) returns (k: nat)
    requires GoesOn(n, run, steps, i) && Fair(n, run, steps) && c < |run(i).couriers|
    requires InDelivery(run(i).couriers[c].pc) || (run(i).couriers[c].pc.Ready? && run(i).active == 0)
    ensures k >= i && !Waits(run(k), steps(k))
  {
    assert CourierServed(n, run, steps, c, i);
    var j: nat :| j >= i && CourierTurn(n, run, steps, c, j);
    var found;
    found, k := FindStep(n, run, steps, i, j);
    if !found {
      StalledSame(n, run, steps, i, j);
      assert Still(run(i), c);
      CanAct(n, run(j), c);
      assert Leads(n, run(j), steps(j), run(j + 1));
      k := j;
    }
  }

  /** With all couriers gone the main thread goes on before long. */
  lemma MainActs(n: nat, run: nat -> State, steps: nat -> Step, i: nat) returns (k: nat)
    requires GoesOn(n, run, steps, i) && Fair(n, run, steps) && !run(i).main.Cancelling?
    requires run(i).active == 0 && forall c :: 0 <= c < |run(i).couriers| ==> run(i).couriers[c].pc.Gone?
    ensures k >= i && !Waits(run(k), steps(k))
  {
    assert Control(n, run(i));
    Settled(n, run(i));
    assert MainServed(n, run, steps, i);
    var j: nat :| j >= i && MainTurn(n, run, steps, j);
    var found;
    found, k := FindStep(n, run, steps, i, j);
    if !found {
      StalledSame(n, run, steps, i, j);
      var own := if run(j).main.Creating? then CreateCourier else if run(j).main.Failing? then CancelAfterFailure
                 else if run(j).main.Testing? then EndShift else Join;
      assert Leads(n, run(j), steps(j), run(j + 1)) && Control(n, run(j));
      assert Enabled(n, run(j), own) && OfMain(own);
      assert MainCanAct(n, run(j));
      k := j;
    }
  }

  /** With all couriers gone and none being created, the shift is stopping. */
  lemma Settled(n: nat, s: State)
    requires Control(n, s) && forall c :: 0 <= c < |s.couriers| ==> s.couriers[c].pc.Gone?
    ensures s.main.Creating? || s.main.Failing? || s.stopping
  {
    if |s.couriers| > 0 {
      assert CourierOk(s, s.couriers[0].pc);
    }
  }

  /** On its way to the cancel section the main thread first gets there. */
  lemma CancellingActs(n: nat, run: nat -> State, steps: nat -> Step, i: nat) returns (k: nat)
    requires GoesOn(n, run, steps, i) && Fair(n, run, steps) && run(i).main.Cancelling?
    requires run(i).active == 0 && forall c :: 0 <= c < |run(i).couriers| ==> run(i).couriers[c].pc.Gone?
    ensures k >= i && !Waits(run(k), steps(k))
  {
    assert Leads(n, run(i), steps(i), run(i + 1)) && Control(n, run(i));
    if !Waits(run(i), steps(i)) {
      k := i;
    } else {
      WaitingStep(n, run(i), steps(i));
      assert forall c: nat :: c < |run(i).couriers| ==> Still(run(i), c);
      k := MainActs(n, run, steps, i + 1);
    }
  }

  /** Somebody takes a step that is no mere waiting. */
  lemma SomebodyActs(n: nat, run: nat -> State, steps: nat -> Step, i: nat) returns (k: nat)
    requires GoesOn(n, run, steps, i) && Fair(n, run, steps)
    ensures k >= i && !Waits(run(k), steps(k))
  {
    assert Control(n, run(i));
    if run(i).active > 0 {
      var c := SomeoneBusy(run(i).couriers);
      k := CourierActs(n, run, steps, i, c);
    } else if c: nat :| c < |run(i).couriers| && run(i).couriers[c].pc.Ready? {
      k := CourierActs(n, run, steps, i, c);
    } else {
      forall c | 0 <= c < |run(i).couriers|
        ensures run(i).couriers[c].pc.Gone?
      {
        assert CourierOk(run(i), run(i).couriers[c].pc);
        if InDelivery(run(i).couriers[c].pc) {
          BusyPositive(run(i).couriers, c);
        }
      }
      if run(i).main.Cancelling? {
        k := CancellingActs(n, run, steps, i);
      } else {
        k := MainActs(n, run, steps, i);
      }
    }
  }

  lemma {:induction false} WorkFalls(n: nat, run: nat -> State, steps: nat -> Step, i: nat, k: nat)
    requires GoesOn(n, run, steps, i) && i <= k
    ensures Work(n, run(k)) <= Work(n, run(i))
    decreases k - i
  {
    if i < k {
      WorkFalls(n, run, steps, i, k - 1);
      assert Leads(n, run(k - 1), steps(k - 1), run(k - 1 + 1)) && Control(n, run(k - 1));
      StepWork(n, run(k - 1), steps(k - 1));
    }
  }

  lemma {:induction false} EndFrom(n: nat, input: seq<Order>, run: nat -> State, steps: nat -> Step, i: nat) returns (k: nat)
    requires Endless(n, input, run, steps) && Fair(n, run, steps)
    ensures run(k).main.Done?
    decreases var w := Work(n, run(i)); if w < 0 then 0 else w
  {
    OverNatural(run(i).couriers);
    if m: nat :| m >= i && run(m).main.Done? {
      k := m;
    } else {
      forall m: nat | m >= i
        ensures Leads(n, run(m), steps(m), run(m + 1)) && Control(n, run(m)) && !run(m).main.Done?
      {
        EndlessControl(n, input, run, steps, m);
        assert Moves(n, run(m), steps(m), run(m + 1));
      }
      var j := SomebodyActs(n, run, steps, i);
      WorkFalls(n, run, steps, i, j);
      assert Leads(n, run(j), steps(j), run(j + 1)) && Control(n, run(j));
      StepWork(n, run(j), steps(j));
      OverNatural(run(j + 1).couriers);
      k := EndFrom(n, input, run, steps, j + 1);
    }
  }

  /** A courier that can go on without anybody waking it. */
  lemma CourierCan(n: nat, s: State, c: nat) returns (step: Step)
    requires Control(n, s) && c < |s.couriers|
    requires InDelivery(s.couriers[c].pc) || (s.couriers[c].pc.Ready? && s.active == 0)
    ensures Enabled(n, s, step) && OfCourier(step, c)
  {
    CanAct(n, s, c);
    step :| Enabled(n, s, step) && OfCourier(step, c);
  }

  /** With nobody in delivery and the shift going on, every courier is ready. */
  lemma AllReady(n: nat, s: State, c: nat)
    requires Control(n, s) && c < |s.couriers| && s.active == 0 && !s.couriers[c].pc.Gone?
    ensures s.couriers[c].pc.Ready?
  {
    assert CourierOk(s, s.couriers[c].pc);
    if InDelivery(s.couriers[c].pc) {
      BusyPositive(s.couriers, c);
    }
  }

  /** No run stops before the end: until the main thread is done, a courier or the main thread can take a
      step of its own, without an interrupt, a stray wake-up or an expired wait. */
  lemma NeverStuck(n: nat, input: seq<Order>, s: State) returns (step: Step)
    requires Reachable(n, input, s) && !s.main.Done?
    ensures Enabled(n, s, step) && !step.Interrupt? && !step.Nudge? && !step.TimeOut? && !step.TimedWait?
  {
    ReachableInvariant(n, input, s);
    if s.active > 0 {
      var c := SomeoneBusy(s.couriers);
      step := CourierCan(n, s, c);
    } else if c: nat :| c < |s.couriers| && !s.couriers[c].pc.Gone? {
      AllReady(n, s, c);
      step := CourierCan(n, s, c);
    } else {
      Settled(n, s);
      step := match s.main
        case Creating => CreateCourier
        case Failing => CancelAfterFailure
        case Cancelling => CancelPending
        case Joining(_) => Join
        case _ => EndShift;
    }
  }

  /** Every fair run ends: wait_for_shift_to_finish returns, all couriers have left and been joined. */
  lemma FairShiftEnds(n: nat, input: seq<Order>, run: nat -> State, steps: nat -> Step) returns (k: nat)
    requires Endless(n, input, run, steps) && Fair(n, run, steps)
    ensures run(k).main.Done? && run(k).queue == []
    ensures forall c :: 0 <= c < |run(k).couriers| ==> run(k).couriers[c].pc.Gone?
  {
    k := EndFrom(n, input, run, steps, 0);
    EndlessControl(n, input, run, steps, k);
  }
}
