/** What a shift guarantees over all runs: order and conservation of orders, statistics that add up, no
    lost wake-up, and an end. */
module ShiftResults {
  import opened Counting
  import opened OrderQueues
  import opened Shift

  /** Adding up a figure over all couriers. */
  function Over(couriers: seq<Courier>, f: Courier -> int): int {
    if couriers == [] then 0 else Over(couriers[..|couriers| - 1], f) + f(couriers[|couriers| - 1])
  }

  lemma {:induction false} OverChange(couriers: seq<Courier>, c: nat, x: Courier, f: Courier -> int)
    requires c < |couriers|
    ensures Over(couriers[c := x], f) == Over(couriers, f) - f(couriers[c]) + f(x)
  {
    var n := |couriers| - 1;
    if c == n {
      assert couriers[c := x][..n] == couriers[..n];
    } else {
      assert couriers[c := x][..n] == couriers[..n][c := x];
      OverChange(couriers[..n], c, x, f);
    }
  }

  lemma {:induction false} OverSame(a: seq<Courier>, b: seq<Courier>, f: Courier -> int)
    requires |a| == |b| && forall c :: 0 <= c < |a| ==> f(a[c]) == f(b[c])
    ensures Over(a, f) == Over(b, f)
  {
    if a != [] {
      OverSame(a[..|a| - 1], b[..|b| - 1], f);
    }
  }

  function Durations(orders: seq<Order>): int {
    if orders == [] then 0 else Durations(orders[..|orders| - 1]) + orders[|orders| - 1].duration
  }

  /** Deliveries begun by a courier. */
  function Begun(x: Courier): int {
    x.count + if x.pc.Delivering? then 1 else 0
  }

  /** Deliveries of a courier that the shared counter has taken in. */
  function CountedIn(x: Courier): int {
    x.count - if x.pc.Noted? then 1 else 0
  }

  /** Delivery time of a courier that the shared total has taken in. */
  function TimedIn(x: Courier): int {
    x.time - if x.pc.Noted? || x.pc.Tallied? then x.pc.order.duration * UNIT_MS else 0
  }

  /** How often a courier has begun or made the delivery of o. */
  function Carried(x: Courier, o: Order): int {
    multiset(x.delivered)[o] + if x.pc.Delivering? && x.pc.order == o then 1 else 0
  }

  ghost predicate StatsOk(x: Courier) {
    x.count == |x.delivered| && x.time == Durations(x.delivered) * UNIT_MS
  }

  /** Orders leave the queue in its order, each goes to one courier or is cancelled, and every figure
      agrees with the deliveries it stands for. */
  ghost predicate Books(input: seq<Order>, s: State) {
    && s.started + s.cancelled + s.queue == Queued(input)
    && s.cancelledCount == |s.cancelled|
    && (forall c :: 0 <= c < |s.couriers| ==> StatsOk(s.couriers[c]))
    && |s.started| == Over(s.couriers, Begun)
    && s.completed == Over(s.couriers, CountedIn)
    && s.totalTime == Over(s.couriers, TimedIn)
    && forall o :: multiset(s.started)[o] == Over(s.couriers, x => Carried(x, o))
  }

  /** A courier's step in which every figure moves as the books say. */
  lemma BooksStep(input: seq<Order>, s: State, c: nat, x: Courier, s': State)
    requires Books(input, s) && c < |s.couriers| && StatsOk(x)
    requires s'.couriers == s.couriers[c := x]
    requires s'.started + s'.cancelled + s'.queue == s.started + s.cancelled + s.queue
    requires s'.cancelledCount == s.cancelledCount && s'.cancelled == s.cancelled
    requires |s'.started| == |s.started| - Begun(s.couriers[c]) + Begun(x)
    requires s'.completed == s.completed - CountedIn(s.couriers[c]) + CountedIn(x)
    requires s'.totalTime == s.totalTime - TimedIn(s.couriers[c]) + TimedIn(x)
    requires forall o :: multiset(s'.started)[o] == multiset(s.started)[o] - Carried(s.couriers[c], o) + Carried(x, o)
    ensures Books(input, s')
  {
    OverChange(s.couriers, c, x, Begun);
    OverChange(s.couriers, c, x, CountedIn);
    OverChange(s.couriers, c, x, TimedIn);
    forall o
      ensures multiset(s'.started)[o] == Over(s'.couriers, x => Carried(x, o))
    {
      OverChange(s.couriers, c, x, x => Carried(x, o));
    }
  }

  /** Waking everybody, and any change of flags, leaves the books alone. */
  lemma BooksWoken(input: seq<Order>, s: State, s': State)
    requires Books(input, s) && (s'.couriers == s.couriers || s'.couriers == Woken(s.couriers))
    requires s'.started + s'.cancelled + s'.queue == s.started + s.cancelled + s.queue
    requires s'.started == s.started && s'.cancelledCount == |s'.cancelled|
    requires s'.completed == s.completed && s'.totalTime == s.totalTime
    ensures Books(input, s')
  {
    OverSame(s.couriers, s'.couriers, Begun);
    OverSame(s.couriers, s'.couriers, CountedIn);
    OverSame(s.couriers, s'.couriers, TimedIn);
    forall o
      ensures multiset(s'.started)[o] == Over(s'.couriers, x => Carried(x, o))
    {
      OverSame(s.couriers, s'.couriers, x => Carried(x, o));
    }
  }

  lemma BooksStart(n: nat, input: seq<Order>, s: State, c: nat)
    requires Books(input, s) && Control(n, s) && Enabled(n, s, Start(c))
    ensures Books(input, Apply(n, s, Start(c)))
  {
    var o := s.queue[0];
    var s' := Apply(n, s, Start(c));
    assert s.cancelled == [] && s.queue == [o] + s.queue[1..];
    assert s'.started + s'.cancelled + s'.queue == s.started + s.cancelled + s.queue;
    BooksStep(input, s, c, s.couriers[c].(pc := Delivering(o)), s');
  }

  lemma BooksDeliver(n: nat, input: seq<Order>, s: State, c: nat)
    requires Books(input, s) && Enabled(n, s, Deliver(c))
    ensures Books(input, Apply(n, s, Deliver(c)))
  {
    var x := s.couriers[c];
    var x' := Apply(n, s, Deliver(c)).couriers[c];
    assert x'.delivered[..|x.delivered|] == x.delivered;
    BooksStep(input, s, c, x', Apply(n, s, Deliver(c)));
  }

  lemma BooksTally(n: nat, input: seq<Order>, s: State, c: nat)
    requires Books(input, s)
    ensures Enabled(n, s, Tally(c)) ==> Books(input, Apply(n, s, Tally(c)))
    ensures Enabled(n, s, AddTime(c)) ==> Books(input, Apply(n, s, AddTime(c)))
  {
    if Enabled(n, s, Tally(c)) {
      BooksStep(input, s, c, s.couriers[c].(pc := Tallied(s.couriers[c].pc.order)), Apply(n, s, Tally(c)));
    }
    if Enabled(n, s, AddTime(c)) {
      BooksStep(input, s, c, s.couriers[c].(pc := Timed), Apply(n, s, AddTime(c)));
    }
  }

  /** A change of place between points where nothing is in hand. */
  lemma BooksMove(input: seq<Order>, s: State, c: nat, pc: Pc, active: int)
    requires Books(input, s) && c < |s.couriers|
    requires pc.Ready? || pc.Asleep? || pc.Gone?
    requires var p := s.couriers[c].pc; p.Ready? || p.Asleep? || p.Timed?
    ensures Books(input, SetPc(s.(active := active), c, pc))
  {
    BooksStep(input, s, c, s.couriers[c].(pc := pc), SetPc(s.(active := active), c, pc));
  }

  lemma BooksReturn(n: nat, input: seq<Order>, s: State, c: nat)
    requires Books(input, s)
    ensures Enabled(n, s, Return(c)) ==> Books(input, Apply(n, s, Return(c)))
    ensures Enabled(n, s, Leave(c)) ==> Books(input, Apply(n, s, Leave(c)))
  {
    if Enabled(n, s, Return(c)) {
      BooksMove(input, s, c, Ready, s.active - 1);
      BooksWoken(input, SetPc(s.(active := s.active - 1), c, Ready), Returned(s, c));
    }
    if Enabled(n, s, Leave(c)) {
      BooksMove(input, s, c, Gone, s.active);
      assert s.(active := s.active) == s;
      BooksWoken(input, SetPc(s, c, Gone), Left(s, c));
    }
  }

  lemma BooksCreate(input: seq<Order>, s: State, main: MainPc)
    requires Books(input, s)
    ensures Books(input, s.(couriers := s.couriers + [Courier(Ready, 0, 0, [])], main := main))
  {
    var x := Courier(Ready, 0, 0, []);
    var all := s.couriers + [x];
    assert all[..|s.couriers|] == s.couriers;
    forall o
      ensures multiset(s.started)[o] == Over(all, x => Carried(x, o))
    {
      assert Carried(x, o) == 0;
      OverSame(all[..|s.couriers|], s.couriers, x => Carried(x, o));
      OverSame(s.couriers, s.couriers, x => Carried(x, o));
    }
  }

  lemma BooksCancel(input: seq<Order>, s: State, main: MainPc)
    requires Books(input, s)
    ensures Books(input, Cancelled(s).(main := main))
  {
    var s' := Cancelled(s).(main := main);
    assert s'.started + s'.cancelled + s'.queue == s.started + s.cancelled + s.queue;
    BooksWoken(input, s, s');
  }

  lemma StepKeepsBooks(n: nat, input: seq<Order>, s: State, step: Step)
    requires Books(input, s) && Control(n, s) && Enabled(n, s, step)
    ensures Books(input, Apply(n, s, step))
  {
    match step
    case CreateCourier => BooksCreate(input, s, Apply(n, s, step).main);
    case CancelAfterFailure => BooksCancel(input, s, Testing);
    case CancelPending => BooksCancel(input, s, Testing);
    case Wait(c) => BooksMove(input, s, c, Asleep, s.active); assert s.(active := s.active) == s;
    case Nudge(c) => BooksMove(input, s, c, Ready, s.active); assert s.(active := s.active) == s;
    case Leave(c) => BooksReturn(n, input, s, c);
    case Return(c) => BooksReturn(n, input, s, c);
    case Start(c) => BooksStart(n, input, s, c);
    case Deliver(c) => BooksDeliver(n, input, s, c);
    case Tally(c) => BooksTally(n, input, s, c);
    case AddTime(c) => BooksTally(n, input, s, c);
    case _ => BooksWoken(input, s, Apply(n, s, step));
  }

  lemma {:induction false} RunInvariant(n: nat, input: seq<Order>, states: seq<State>, steps: seq<Step>, k: nat)
    requires Run(n, input, states, steps) && k < |states|
    ensures Control(n, states[k]) && Books(input, states[k])
  {
    if k > 0 {
      RunInvariant(n, input, states, steps, k - 1);
      assert Leads(n, states[k - 1], steps[k - 1], states[k]);
      StepKeepsControl(n, states[k - 1], steps[k - 1]);
      StepKeepsBooks(n, input, states[k - 1], steps[k - 1]);
    }
  }

  lemma ReachableInvariant(n: nat, input: seq<Order>, s: State)
    requires Reachable(n, input, s)
    ensures Control(n, s) && Books(input, s)
  {
    var states, steps :| Run(n, input, states, steps) && states[|states| - 1] == s;
    RunInvariant(n, input, states, steps, |states| - 1);
  }

  // ----- results

  /** Orders started, then those cancelled or still pending, are exactly the input in the order of service:
      no order is started while one with a smaller priority number, or with the same one and a smaller id,
      is pending. Each started order is in the hands of, or delivered by, one courier. */
  lemma Linearised(n: nat, input: seq<Order>, s: State) returns (place: seq<nat>)
    requires Reachable(n, input, s)
    ensures StablySorted(input, s.started + s.cancelled + s.queue) && InService(input, s.started + s.cancelled + s.queue, place)
    ensures forall i, j :: 0 <= i < |s.started| && 0 <= j < |s.queue| ==>
              s.started[i].priority < s.queue[j].priority
              || (s.started[i].priority == s.queue[j].priority && s.started[i].id <= s.queue[j].id)
    ensures multiset(s.started + s.cancelled + s.queue) == multiset(input)
    ensures s.cancelled == [] || s.queue == []
    ensures forall o :: multiset(s.started)[o] == Over(s.couriers, x => Carried(x, o))
  {
    ReachableInvariant(n, input, s);
    QueuedIsStableSort(input);
    place := QueuedInService(input);
    var all := s.started + s.cancelled + s.queue;
    var m := |s.started| + |s.cancelled|;
    forall i, j | 0 <= i < |s.started| && 0 <= j < |s.queue|
      ensures NotAfter(s.started[i], s.queue[j])
    {
      assert all[i] == s.started[i] && all[m + j] == s.queue[j];
    }
  }

  /** Each courier's own statistics are right at every moment. */
  lemma CourierStatistics(n: nat, input: seq<Order>, s: State, c: nat)
    requires Reachable(n, input, s) && c < |s.couriers|
    ensures s.couriers[c].count == |s.couriers[c].delivered|
    ensures s.couriers[c].time == Durations(s.couriers[c].delivered) * 500
  {
    ReachableInvariant(n, input, s);
  }

  /** When the shift is over, all couriers have left, nothing is pending, completed and cancelled add up
      to the valid orders, and the couriers' counts and times to the totals. */
  lemma ShiftAddsUp(n: nat, input: seq<Order>, s: State)
    requires Reachable(n, input, s) && s.main.Done?
    ensures s.queue == [] && forall c :: 0 <= c < |s.couriers| ==> s.couriers[c].pc.Gone?
    ensures s.completed + s.cancelledCount == |input|
    ensures s.completed == Over(s.couriers, (x: Courier) => x.count) == |s.started|
    ensures s.totalTime == Over(s.couriers, (x: Courier) => x.time)
    ensures s.started + s.cancelled == Queued(input)
  {
    ReachableInvariant(n, input, s);
    QueuedIsStableSort(input);
    SumsWhenGone(s.couriers);
    assert s.started + s.cancelled + s.queue == s.started + s.cancelled;
  }

  /** The main thread cancels for an interrupt, or because it could not create all couriers. */
  ghost predicate CancelOk(n: nat, s: State) {
    && (s.main.Cancelling? ==> s.sigint)
    && (s.main.Failing? ==> |s.couriers| < n)
    && (s.cancelled != [] ==> s.sigint || (|s.couriers| < n && !s.main.Creating?))
  }

  lemma StepKeepsCancelOk(n: nat, s: State, step: Step)
    requires Control(n, s) && CancelOk(n, s) && Enabled(n, s, step)
    ensures CancelOk(n, Apply(n, s, step))
  {
  }

  lemma {:induction false} RunCancelOk(n: nat, input: seq<Order>, states: seq<State>, steps: seq<Step>, k: nat)
    requires Run(n, input, states, steps) && k < |states|
    ensures CancelOk(n, states[k])
  {
    if k > 0 {
      RunCancelOk(n, input, states, steps, k - 1);
      RunInvariant(n, input, states, steps, k - 1);
      assert Leads(n, states[k - 1], steps[k - 1], states[k]);
      StepKeepsCancelOk(n, states[k - 1], steps[k - 1]);
    }
  }

  /** No order is cancelled without an interrupt when all couriers were created: the shift then ends with
      every order delivered, in the order of service. */
  lemma UninterruptedDeliversAll(n: nat, input: seq<Order>, s: State)
    requires Reachable(n, input, s) && !s.sigint && |s.couriers| == n
    ensures s.cancelled == []
    ensures s.main.Done? ==> s.completed == |input| && s.started == Queued(input)
  {
    var states, steps :| Run(n, input, states, steps) && states[|states| - 1] == s;
    RunCancelOk(n, input, states, steps, |states| - 1);
    if s.main.Done? {
      ShiftAddsUp(n, input, s);
      ReachableInvariant(n, input, s);
    }
  }

  lemma {:induction false} SumsWhenGone(couriers: seq<Courier>)
    requires forall c :: 0 <= c < |couriers| ==> couriers[c].pc.Gone?
    ensures Over(couriers, Begun) == Over(couriers, CountedIn) == Over(couriers, (x: Courier) => x.count)
    ensures Over(couriers, TimedIn) == Over(couriers, (x: Courier) => x.time)
  {
    if couriers != [] {
      SumsWhenGone(couriers[..|couriers| - 1]);
    }
  }

  /** A stopping shift has no pending orders; a courier asleep has a colleague in delivery, whose return
      is still to come, so a wake-up is on its way; and the main thread never sleeps past the end. */
  lemma NobodyForgotten(n: nat, input: seq<Order>, s: State)
    requires Reachable(n, input, s)
    ensures s.stopping ==> s.queue == []
    ensures forall c :: 0 <= c < |s.couriers| && s.couriers[c].pc.Asleep? ==>
              !s.stopping && exists d :: 0 <= d < |s.couriers| && InDelivery(s.couriers[d].pc)
    ensures s.main.Waiting? ==> !(s.stopping && s.active == 0)
  {
    ReachableInvariant(n, input, s);
    if s.active > 0 {
      var d := SomeoneBusy(s.couriers);
    }
    assert forall c :: 0 <= c < |s.couriers| ==> CourierOk(s, s.couriers[c].pc);
  }

  lemma SomeoneBusy(couriers: seq<Courier>) returns (d: nat)
    requires Count(Busy(couriers)) > 0
    ensures d < |couriers| && InDelivery(couriers[d].pc)
  {
    CountExtremes(Busy(couriers));
    d :| d < |Busy(couriers)| && Busy(couriers)[d];
  }
}
