/** One courier shift as a transition system: couriers, the main thread and the interrupt. A step is one
    critical section under queue_lock, or one update of a counter; the gaps between them interleave.
    HW5/main.c:191-294, 401-417. */
module Shift {
  import opened Counting
  import opened OrderQueues

  const UNIT_MS: int := 500

  /** A courier is about to lock the queue, blocked on courier_wakeup_cond, delivering, at one of the
      points between its counter updates, or has left. */
  datatype Pc = Ready | Asleep | Delivering(order: Order) | Noted(order: Order) | Tallied(order: Order) | Timed | Gone

  /** delivered lists the orders in the courier's own statistics; count and time are those statistics. */
  datatype Courier = Courier(pc: Pc, count: nat, time: int, delivered: seq<Order>)

  /** The main thread: creating couriers, about to test the end of the shift under the lock, on its way to
      the cancel section, in its timed wait, joining courier k, or done. Failing means pthread_create failed. */
  datatype MainPc = Creating | Failing | Testing | Cancelling | Waiting | Joining(k: nat) | Done

  /** started and cancelled record orders as they leave the queue. */
  datatype State = State(
    queue: seq<Order>, stopping: bool, active: int, sigint: bool,
    completed: int, cancelledCount: int, totalTime: int,
    couriers: seq<Courier>, main: MainPc,
    started: seq<Order>, cancelled: seq<Order>)

  datatype Step =
    | CreateCourier | CreateFails | CancelAfterFailure
    | Interrupt
    | Wait(c: nat) | Leave(c: nat) | Start(c: nat) | Deliver(c: nat) | Tally(c: nat) | AddTime(c: nat) | Return(c: nat)
    | EndShift | NoticeSigint | CancelPending | TimedWait | TimeOut | Join | Nudge(c: nat)

  /** Steps in which somebody only waits, or is stirred from waiting without cause. */
  predicate Waits(s: State, step: Step) {
    step.Wait? || step.Nudge? || step.NoticeSigint? || step.TimedWait? || step.TimeOut? || (step.CancelPending? && s.stopping)
  }

  predicate AtPc(s: State, c: nat, pc: Pc) {
    c < |s.couriers| && s.couriers[c].pc == pc
  }

  function SetPc(s: State, c: nat, pc: Pc): State
    requires c < |s.couriers|
  {
    s.(couriers := s.couriers[c := s.couriers[c].(pc := pc)])
  }

  /** A broadcast on courier_wakeup_cond. */
  function Woken(couriers: seq<Courier>): (r: seq<Courier>)
    ensures |r| == |couriers|
    ensures forall c :: 0 <= c < |r| ==> r[c] == if couriers[c].pc.Asleep? then couriers[c].(pc := Ready) else couriers[c]
  {
    seq(|couriers|, c requires 0 <= c < |couriers| => if couriers[c].pc.Asleep? then couriers[c].(pc := Ready) else couriers[c])
  }

  /** A signal on shift_finished_cond. */
  function Signalled(main: MainPc): MainPc {
    if main.Waiting? then Testing else main
  }

  predicate Enabled(n: nat, s: State, step: Step) {
    match step
    case CreateCourier => s.main.Creating? && |s.couriers| < n
    case CreateFails => s.main.Creating? && |s.couriers| < n
    case CancelAfterFailure => s.main.Failing?
    case Interrupt => !s.sigint
    case Wait(c) => AtPc(s, c, Ready) && s.queue == [] && !s.stopping && s.active > 0
    case Leave(c) => AtPc(s, c, Ready) && (s.stopping || (s.queue == [] && s.active <= 0))
    case Start(c) => AtPc(s, c, Ready) && !s.stopping && s.queue != []
    case Deliver(c) => c < |s.couriers| && s.couriers[c].pc.Delivering?
    case Tally(c) => c < |s.couriers| && s.couriers[c].pc.Noted?
    case AddTime(c) => c < |s.couriers| && s.couriers[c].pc.Tallied?
    case Return(c) => AtPc(s, c, Timed)
    case EndShift => s.main.Testing? && s.stopping && s.active <= 0
    case NoticeSigint => s.main.Testing? && !(s.stopping && s.active <= 0) && s.sigint
    case CancelPending => s.main.Cancelling?
    case TimedWait => s.main.Testing? && !(s.stopping && s.active <= 0) && !s.sigint
    case TimeOut => s.main.Waiting?
    case Join => s.main.Joining? && (s.main.k < |s.couriers| ==> s.couriers[s.main.k].pc.Gone?)
    case Nudge(c) => AtPc(s, c, Asleep)
  }

  /** cancel_pending_orders_after_sigint. */
  function Cancelled(s: State): State {
    if s.stopping then s
    else s.(stopping := true, cancelled := s.cancelled + s.queue, cancelledCount := s.cancelledCount + |s.queue|,
            queue := [], couriers := Woken(s.couriers))
  }

  /** The end of a delivery, under the lock. */
  function Returned(s: State, c: nat): State
    requires c < |s.couriers|
  {
    var s' := SetPc(s.(active := s.active - 1), c, Ready);
    if (s'.queue == [] && s'.active == 0) || s'.stopping then
      s'.(stopping := true, couriers := Woken(s'.couriers), main := Signalled(s'.main))
    else if s'.queue != [] then s'.(couriers := Woken(s'.couriers))
    else s'
  }

  /** A courier that finds nothing to do leaves, and ends the shift when nobody is delivering. */
  function Left(s: State, c: nat): State
    requires c < |s.couriers|
  {
    var s' := SetPc(s, c, Gone);
    if !s.stopping && s.active == 0 then
      s'.(stopping := true, couriers := Woken(s'.couriers), main := Signalled(s'.main))
    else s'
  }

  function Apply(n: nat, s: State, step: Step): State
    requires Enabled(n, s, step)
  {
    match step
    case CreateCourier =>
      var s' := s.(couriers := s.couriers + [Courier(Ready, 0, 0, [])]);
      if |s'.couriers| == n then s'.(main := Testing) else s'
    case CreateFails => s.(main := Failing)
    case CancelAfterFailure => Cancelled(s).(main := Testing)
    case Interrupt => s.(sigint := true)
    case Wait(c) => SetPc(s, c, Asleep)
    case Leave(c) => Left(s, c)
    case Start(c) =>
      SetPc(s, c, Delivering(s.queue[0])).(
        queue := s.queue[1..], active := s.active + 1, started := s.started + [s.queue[0]])
    case Deliver(c) =>
      var x := s.couriers[c];
      var o := x.pc.order;
      s.(couriers := s.couriers[c := Courier(Noted(o), x.count + 1, x.time + o.duration * UNIT_MS, x.delivered + [o])])
    case Tally(c) => SetPc(s, c, Tallied(s.couriers[c].pc.order)).(completed := s.completed + 1)
    case AddTime(c) => SetPc(s, c, Timed).(totalTime := s.totalTime + s.couriers[c].pc.order.duration * UNIT_MS)
    case Return(c) => Returned(s, c)
    case EndShift => s.(main := Joining(0))
    case NoticeSigint => s.(main := Cancelling)
    case CancelPending => Cancelled(s).(main := Testing)
    case TimedWait => s.(main := Waiting)
    case TimeOut => s.(main := Testing)
    case Join => s.(main := if s.main.k < |s.couriers| then Joining(s.main.k + 1) else Done)
    case Nudge(c) => SetPc(s, c, Ready)
  }

  /** The shift opens with the valid orders of the input queued, and n couriers to create. */
  ghost predicate Init(n: nat, input: seq<Order>, s: State) {
    s == State(Queued(input), false, 0, s.sigint, 0, 0, 0, [], Creating, [], []) && n > 0
  }

  lemma ShiftOpens(n: nat, input: seq<Order>) returns (s: State)
    requires n > 0
    ensures Init(n, input, s) && Reachable(n, input, s)
  {
    s := State(Queued(input), false, 0, false, 0, 0, 0, [], Creating, [], []);
    assert Run(n, input, [s], []);
  }

  ghost predicate Leads(n: nat, s: State, step: Step, s': State) {
    Enabled(n, s, step) && s' == Apply(n, s, step)
  }

  ghost predicate Run(n: nat, input: seq<Order>, states: seq<State>, steps: seq<Step>) {
    && |states| == |steps| + 1 && Init(n, input, states[0])
    && forall i :: 0 <= i < |steps| ==> Leads(n, states[i], steps[i], states[i + 1])
  }

  ghost predicate Reachable(n: nat, input: seq<Order>, s: State) {
    exists states, steps :: Run(n, input, states, steps) && states[|states| - 1] == s
  }

  predicate InDelivery(pc: Pc) {
    pc.Delivering? || pc.Noted? || pc.Tallied? || pc.Timed?
  }

  function Busy(couriers: seq<Courier>): (flags: seq<bool>)
    ensures |flags| == |couriers|
  {
    seq(|couriers|, c requires 0 <= c < |couriers| => InDelivery(couriers[c].pc))
  }

  /** Who may be where. */
  ghost predicate Control(n: nat, s: State) {
    && n > 0
    && s.active == Count(Busy(s.couriers))
    && (s.stopping ==> s.queue == [])
    && (s.cancelled != [] ==> s.stopping)
    && (forall c :: 0 <= c < |s.couriers| ==> CourierOk(s, s.couriers[c].pc))
    && (s.main.Waiting? ==> !(s.stopping && s.active == 0))
    && (s.main.Joining? || s.main.Done? ==> s.stopping && s.active == 0)
    && (s.main.Creating? ==> |s.couriers| < n)
    && |s.couriers| <= n
    && (s.main.Joining? || s.main.Done? ==> forall c :: 0 <= c < |s.couriers| && (s.main.Done? || c < s.main.k) ==> s.couriers[c].pc.Gone?)
    && (s.main.Joining? ==> s.main.k <= |s.couriers|)
    && (s.main.Testing? || s.main.Waiting? || s.main.Cancelling? ==> |s.couriers| == n || s.stopping)
  }

  ghost predicate CourierOk(s: State, pc: Pc) {
    && (pc.Asleep? ==> s.queue == [] && !s.stopping && s.active > 0)
    && (pc.Gone? ==> s.stopping)
  }

  lemma BusyChange(couriers: seq<Courier>, c: nat, x: Courier)
    requires c < |couriers|
    ensures Count(Busy(couriers[c := x])) ==
            Count(Busy(couriers)) - (if InDelivery(couriers[c].pc) then 1 else 0) + if InDelivery(x.pc) then 1 else 0
  {
    CountUpdate(Busy(couriers), c, InDelivery(x.pc));
    assert Busy(couriers[c := x]) == Busy(couriers)[c := InDelivery(x.pc)];
  }

  lemma BusyWoken(couriers: seq<Courier>)
    ensures Busy(Woken(couriers)) == Busy(couriers)
  {
  }

  lemma BusyNew(couriers: seq<Courier>, x: Courier)
    requires !InDelivery(x.pc)
    ensures Count(Busy(couriers + [x])) == Count(Busy(couriers))
  {
    assert Busy(couriers + [x])[..|couriers|] == Busy(couriers);
  }

  lemma BusyPositive(couriers: seq<Courier>, c: nat)
    requires c < |couriers| && InDelivery(couriers[c].pc)
    ensures Count(Busy(couriers)) > 0
  {
    CountExtremes(Busy(couriers));
    assert Busy(couriers)[c];
  }

  /** A courier's step that leaves the flags as they are. */
  lemma CourierStep(n: nat, s: State, c: nat, x: Courier)
    requires Control(n, s) && c < |s.couriers| && CourierOk(s, x.pc)
    requires InDelivery(x.pc) == InDelivery(s.couriers[c].pc) && !s.couriers[c].pc.Gone?
    ensures Control(n, s.(couriers := s.couriers[c := x]))
  {
    BusyChange(s.couriers, c, x);
  }

  lemma StartKeeps(n: nat, s: State, c: nat)
    requires Control(n, s) && Enabled(n, s, Start(c))
    ensures Control(n, Apply(n, s, Start(c)))
  {
    BusyChange(s.couriers, c, s.couriers[c].(pc := Delivering(s.queue[0])));
  }

  lemma ReturnKeeps(n: nat, s: State, c: nat)
    requires Control(n, s) && Enabled(n, s, Return(c))
    ensures Control(n, Apply(n, s, Return(c)))
  {
    var s' := SetPc(s.(active := s.active - 1), c, Ready);
    BusyChange(s.couriers, c, s.couriers[c].(pc := Ready));
    BusyWoken(s'.couriers);
    BusyPositive(s.couriers, c);
  }

  lemma LeaveKeeps(n: nat, s: State, c: nat)
    requires Control(n, s) && Enabled(n, s, Leave(c))
    ensures Control(n, Apply(n, s, Leave(c)))
  {
    BusyChange(s.couriers, c, s.couriers[c].(pc := Gone));
    BusyWoken(SetPc(s, c, Gone).couriers);
  }

  lemma CancelKeeps(n: nat, s: State)
    requires Control(n, s) && (s.main.Failing? || s.main.Cancelling?)
    ensures Control(n, Cancelled(s).(main := Testing))
  {
    BusyWoken(s.couriers);
  }

  lemma CreateKeeps(n: nat, s: State)
    requires Control(n, s) && Enabled(n, s, CreateCourier)
    ensures Control(n, Apply(n, s, CreateCourier))
  {
    BusyNew(s.couriers, Courier(Ready, 0, 0, []));
  }

  lemma StepKeepsControl(n: nat, s: State, step: Step)
    requires Control(n, s) && Enabled(n, s, step)
    ensures Control(n, Apply(n, s, step))
  {
    if step.Wait? || step.Deliver? || step.Tally? || step.AddTime? || step.Nudge? {
      CourierStep(n, s, step.c, Apply(n, s, step).couriers[step.c]);
    } else {
      OtherStepKeeps(n, s, step);
    }
  }

  lemma OtherStepKeeps(n: nat, s: State, step: Step)
    requires Control(n, s) && Enabled(n, s, step)
    requires !step.Wait? && !step.Deliver? && !step.Tally? && !step.AddTime? && !step.Nudge?
    ensures Control(n, Apply(n, s, step))
  {
    match step
    case CreateCourier => CreateKeeps(n, s);
    case CancelAfterFailure => CancelKeeps(n, s);
    case CancelPending => CancelKeeps(n, s);
    case Leave(c) => LeaveKeeps(n, s, c);
    case Start(c) => StartKeeps(n, s, c);
    case Return(c) => ReturnKeeps(n, s, c);
    case _ =>
  }
}
