/** The dispatcher's time-out exit. HW4/dispatcher.c:15-40, 76-97. When its wait for Region A expires, the
    dispatcher gives the mutex up, takes it again and leaves if every reader has written all its markers;
    it does not look at Region A again. Here the exit is part of the system, and the exact condition under
    which the pipeline can still complete is proved. */
module PipelineTimeout {
  import opened Basics
  import opened Counting
  import opened Channels
  import opened Pipeline
  import opened PipelineInvariant
  import opened PipelineResults
  import opened PipelineTermination

  /** expired: the wait has expired and the check is still to come. left: the exit has been taken. */
  datatype Timed = Timed(s: State, expired: bool, left: bool)

  datatype TimedStep = Own(step: Step) | Expire | Check

  /** The test of the exit: every reader has written its marker of every level. */
  predicate AllMarked(s: State)
    requires Shaped(s)
  {
    forall l :: 0 <= l < LEVELS ==> s.eofCount[l] >= |s.readers|
  }

  predicate TimedEnabled(t: Timed, step: TimedStep) {
    && Shaped(t.s)
    && match step
       case Own(own) => Enabled(t.s, own) && (t.expired ==> !own.Dispatch? && !own.DispatcherSleeps?)
       case Expire => !t.expired && CanNudge(t.s.a, false, 0)
       case Check => t.expired
  }

  function TimedApply(c: Config, t: Timed, step: TimedStep): Timed
    requires TimedEnabled(t, step)
  {
    match step
    case Own(own) => t.(s := Apply(c, t.s, own))
    case Expire => t.(s := t.s.(a := Nudged(t.s.a, false, 0)), expired := true)
    case Check =>
      if AllMarked(t.s) then Timed(t.s.(a := Leave(t.s.a, 0), dispatcher := SetDone), false, true)
      else t.(expired := false)
  }

  ghost predicate TimedLeads(c: Config, t: Timed, step: TimedStep, t': Timed) {
    TimedEnabled(t, step) && t' == TimedApply(c, t, step)
  }

  /** A stretch of a run. */
  ghost predicate TimedPath(c: Config, ts: seq<Timed>, steps: seq<TimedStep>) {
    |ts| == |steps| + 1 && forall i :: 0 <= i < |steps| ==> TimedLeads(c, ts[i], steps[i], ts[i + 1])
  }

  ghost predicate TimedRun(c: Config, ts: seq<Timed>, steps: seq<TimedStep>) {
    TimedPath(c, ts, steps) && Init(c, ts[0].s) && !ts[0].expired && !ts[0].left
  }

  ghost predicate TimedReachable(c: Config, t: Timed) {
    exists ts: seq<Timed>, steps :: TimedRun(c, ts, steps) && ts[|ts| - 1] == t
  }

  /** The pipeline can still come to its end from here. */
  ghost predicate CanComplete(c: Config, t: Timed) {
    exists ts: seq<Timed>, steps :: TimedPath(c, ts, steps) && ts[0] == t && Final(ts[|ts| - 1].s)
  }

  // ----- before the exit nothing is different

  /** A level whose end-of-file flag is unset and whose workers all still work. */
  ghost predicate Unfinished(v: Level) {
    && !v.queue.closed && v.workers != [] && v.analyzer.Joining?
    && forall w :: 0 <= w < |v.workers| ==> v.workers[w].stage.Working?
  }

  /** The dispatcher has left, or is leaving, and will not look at Region A again. */
  ghost predicate Away(s: State) {
    Shaped(s) && (s.dispatcher.SetDone? || s.dispatcher.Left?) && !At(s.a.take, 0)
  }

  /** With the dispatcher away, an unfinished level is never finished. */
  ghost predicate Doomed(s: State, l: nat) {
    l < LEVELS && Away(s) && Unfinished(s.levels[l])
  }

  /** Before the exit the system is that of Pipeline, with the dispatcher at Region A while its wait has
      expired; after it some level is doomed. */
  ghost predicate TimedOk(c: Config, t: Timed) {
    if t.left then !t.expired && exists l: nat :: Doomed(t.s, l)
    else Reachable(c, t.s) && (t.expired ==> t.s.dispatcher.Fetch? && 0 in t.s.a.take.awake)
  }

  lemma ReachesOn(c: Config, s: State, step: Step)
    requires Reachable(c, s) && Shaped(s) && Enabled(s, step)
    ensures Reachable(c, Apply(c, s, step))
  {
    var states, steps :| Run(c, states, steps) && states[|states| - 1] == s;
    var longer, taken := states + [Apply(c, s, step)], steps + [step];
    forall i | 0 <= i < |taken|
      ensures Leads(c, longer[i], taken[i], longer[i + 1])
    {
      assert i < |steps| ==> Leads(c, states[i], steps[i], states[i + 1]);
    }
    assert Run(c, longer, taken);
  }

  /** While its wait has expired the dispatcher stays where it is. */
  lemma ExpiredStays(c: Config, s: State, step: Step)
    requires Shaped(s) && Enabled(s, step) && !step.Dispatch? && !step.DispatcherSleeps?
    requires s.dispatcher.Fetch? && 0 in s.a.take.awake
    ensures Apply(c, s, step).dispatcher.Fetch? && 0 in Apply(c, s, step).a.take.awake
  {
    if Elsewhere(step) {
      ElsewhereSame(c, s, step);
    }
  }

  lemma OpenIsUnfinished(v: Level, l: nat, d: Dispatcher)
    requires LevelOk(v, l, d) && !v.queue.closed
    ensures Unfinished(v)
  {
    assert v.workers[0].stage.Working?;
  }

  lemma ExitLeavesRegionA(s: State)
    requires Control(s) && s.dispatcher.Fetch? && 0 in s.a.take.awake
    ensures Away(s.(a := Leave(s.a, 0), dispatcher := SetDone))
  {
    DepartSide(s.a.take, 0);
  }

  /** Taking the exit dooms a level. */
  lemma ExitDooms(c: Config, s: State)
    requires ConfigOk(c) && Reachable(c, s) && Shaped(s) && AllMarked(s) && s.dispatcher.Fetch? && 0 in s.a.take.awake
    ensures exists l: nat :: Doomed(s.(a := Leave(s.a, 0), dispatcher := SetDone), l)
  {
    ReachableInvariant(c, s);
    TimeoutExitIsNeverClean(c, s);
    var l: nat, r :| l < LEVELS && !s.levels[l].queue.closed && Eof(r, l) in s.a.items;
    OpenIsUnfinished(s.levels[l], l, s.dispatcher);
    ExitLeavesRegionA(s);
    assert Doomed(s.(a := Leave(s.a, 0), dispatcher := SetDone), l);
  }

  /** Steps that touch neither Region A nor the dispatcher nor the count of markers. */
  predicate Elsewhere(step: Step) {
    ThreadStep(step) || WorkerStep(step) || AnalyzerStep(step) || DrainStep(step) || ReportStep(step) || ReceiveStep(step)
  }

  /** Region A, the dispatcher and the count of markers are as before. */
  predicate SameFront(s: State, s': State) {
    && s'.a == s.a && s'.dispatcher == s.dispatcher && s'.eofCount == s.eofCount && |s'.readers| == |s.readers|
    && (Shaped(s) ==> Shaped(s'))
  }

  lemma ThreadSameFront(c: Config, s: State, step: Step)
    requires Shaped(s) && Enabled(s, step) && ThreadStep(step)
    ensures SameFront(s, Apply(c, s, step))
  {
  }

  lemma WorkerSameFront(c: Config, s: State, step: Step)
    requires Shaped(s) && Enabled(s, step) && WorkerStep(step)
    ensures SameFront(s, Apply(c, s, step))
  {
  }

  lemma AnalyzerSameFront(c: Config, s: State, step: Step)
    requires Shaped(s) && Enabled(s, step) && AnalyzerStep(step)
    ensures SameFront(s, Apply(c, s, step))
  {
  }

  lemma DrainSameFront(c: Config, s: State, step: Step)
    requires Shaped(s) && Enabled(s, step) && DrainStep(step)
    ensures SameFront(s, Apply(c, s, step))
  {
  }

  lemma ReportSameFront(c: Config, s: State, step: Step)
    requires Shaped(s) && Enabled(s, step) && ReportStep(step)
    ensures SameFront(s, Apply(c, s, step))
  {
  }

  lemma ReceiveSameFront(c: Config, s: State, step: Step)
    requires Shaped(s) && Enabled(s, step) && ReceiveStep(step)
    ensures SameFront(s, Apply(c, s, step))
  {
  }

  lemma ElsewhereSame(c: Config, s: State, step: Step)
    requires Shaped(s) && Enabled(s, step) && Elsewhere(step)
    ensures SameFront(s, Apply(c, s, step))
  {
    if ThreadStep(step) {
      ThreadSameFront(c, s, step);
    } else if WorkerStep(step) {
      WorkerSameFront(c, s, step);
    } else if AnalyzerStep(step) {
      AnalyzerSameFront(c, s, step);
    } else if DrainStep(step) {
      DrainSameFront(c, s, step);
    } else if ReportStep(step) {
      ReportSameFront(c, s, step);
    } else {
      ReceiveSameFront(c, s, step);
    }
  }

  lemma AwayStays(c: Config, s: State, step: Step)
    requires Away(s) && Enabled(s, step)
    ensures Away(Apply(c, s, step))
  {
    if Elsewhere(step) {
      ElsewhereSame(c, s, step);
    } else {
      AwayNear(c, s, step);
    }
  }

  lemma AwayNear(c: Config, s: State, step: Step)
    requires Away(s) && Enabled(s, step) && !Elsewhere(step)
    ensures Away(Apply(c, s, step))
  {
  }

  lemma UnfinishedWorker(c: Config, s: State, step: Step, l: nat)
    requires Away(s) && l < LEVELS && Unfinished(s.levels[l]) && Enabled(s, step) && WorkerStep(step)
    ensures Unfinished(Apply(c, s, step).levels[l])
  {
  }

  lemma UnfinishedOther(c: Config, s: State, step: Step, l: nat)
    requires Away(s) && l < LEVELS && Unfinished(s.levels[l]) && Enabled(s, step) && !WorkerStep(step)
    ensures |Apply(c, s, step).levels| == LEVELS && Unfinished(Apply(c, s, step).levels[l])
  {
    assert s.levels[l].workers[0].stage.Working?;
  }

  /** Nothing saves a doomed level. */
  lemma DoomedStays(c: Config, s: State, step: Step, l: nat)
    requires Doomed(s, l) && Enabled(s, step)
    ensures Doomed(Apply(c, s, step), l)
  {
    AwayStays(c, s, step);
    if WorkerStep(step) {
      UnfinishedWorker(c, s, step, l);
    } else {
      UnfinishedOther(c, s, step, l);
    }
  }

  lemma TimedStepOk(c: Config, t: Timed, step: TimedStep)
    requires ConfigOk(c) && TimedOk(c, t) && TimedEnabled(t, step)
    ensures TimedOk(c, TimedApply(c, t, step))
  {
    if t.left {
      var l: nat :| Doomed(t.s, l);
      match step {
        case Own(own) => DoomedStays(c, t.s, own, l);
        case Expire => assert false;
      }
    } else {
      match step {
        case Own(own) =>
          ReachesOn(c, t.s, own);
          if t.expired {
            ExpiredStays(c, t.s, own);
          }
        case Expire =>
          ReachableInvariant(c, t.s);
          assert At(t.s.a.take, 0);
          ReachesOn(c, t.s, NudgeA(false, 0));
        case Check =>
          if AllMarked(t.s) {
            ExitDooms(c, t.s);
          }
      }
    }
  }

  lemma {:induction false} TimedRunOk(c: Config, ts: seq<Timed>, steps: seq<TimedStep>, k: nat)
    requires ConfigOk(c) && TimedRun(c, ts, steps) && k < |ts|
    ensures TimedOk(c, ts[k])
  {
    if k == 0 {
      assert Run(c, [ts[0].s], []);
    } else {
      TimedRunOk(c, ts, steps, k - 1);
      assert TimedLeads(c, ts[k - 1], steps[k - 1], ts[k]);
      TimedStepOk(c, ts[k - 1], steps[k - 1]);
    }
  }

  /** As long as the exit has not been taken, the state is one of the system without it, so everything
      proved there holds. */
  lemma ExitlessIsReachable(c: Config, t: Timed)
    requires ConfigOk(c) && TimedReachable(c, t) && !t.left
    ensures Reachable(c, t.s)
  {
    var ts, steps :| TimedRun(c, ts, steps) && ts[|ts| - 1] == t;
    TimedRunOk(c, ts, steps, |ts| - 1);
  }

  // ----- the exact condition

  /** The exit has been taken, or its test is due and would be passed. */
  predicate Lost(t: Timed)
    requires Shaped(t.s)
  {
    t.left || (t.expired && AllMarked(t.s))
  }

  /** Markers once written stay written. */
  lemma MarkedStays(c: Config, s: State, step: Step)
    requires Shaped(s) && Enabled(s, step) && AllMarked(s)
    ensures Shaped(Apply(c, s, step)) ==> AllMarked(Apply(c, s, step))
  {
    if Elsewhere(step) {
      ElsewhereSame(c, s, step);
    }
  }

  lemma LostStays(c: Config, t: Timed, step: TimedStep)
    requires ConfigOk(c) && TimedOk(c, t) && TimedEnabled(t, step) && Lost(t)
    ensures Shaped(TimedApply(c, t, step).s) ==> Lost(TimedApply(c, t, step))
  {
    if !t.left && step.Own? {
      MarkedStays(c, t.s, step.step);
    }
  }

  lemma TimedShaped(c: Config, t: Timed)
    requires ConfigOk(c) && TimedOk(c, t)
    ensures Shaped(t.s)
  {
    if !t.left {
      ReachableInvariant(c, t.s);
    }
  }

  lemma {:induction false} LostForEver(c: Config, ts: seq<Timed>, steps: seq<TimedStep>, k: nat)
    requires ConfigOk(c) && TimedPath(c, ts, steps) && k < |ts|
    requires TimedOk(c, ts[0]) && Shaped(ts[0].s) && Lost(ts[0])
    ensures TimedOk(c, ts[k]) && Shaped(ts[k].s) && Lost(ts[k])
  {
    if k > 0 {
      LostForEver(c, ts, steps, k - 1);
      assert TimedLeads(c, ts[k - 1], steps[k - 1], ts[k]);
      TimedStepOk(c, ts[k - 1], steps[k - 1]);
      TimedShaped(c, ts[k]);
      LostStays(c, ts[k - 1], steps[k - 1]);
    }
  }

  /** A lost state is not the end. */
  lemma LostIsNotFinal(c: Config, t: Timed)
    requires TimedOk(c, t) && Shaped(t.s) && Lost(t)
    ensures !Final(t.s)
  {
    if t.left {
      var l: nat :| Doomed(t.s, l);
      assert t.s.levels[l].analyzer.Joining?;
    }
  }

  lemma {:induction false} OwnPath(c: Config, t: Timed, states: seq<State>, steps: seq<Step>)
    returns (ts: seq<Timed>, taken: seq<TimedStep>)
    requires Path(c, states, steps) && states[0] == t.s && !t.expired
    ensures TimedPath(c, ts, taken) && ts[0] == t && ts[|ts| - 1] == t.(s := states[|states| - 1])
    decreases |steps|
  {
    if steps == [] {
      ts, taken := [t], [];
    } else {
      assert Leads(c, states[0], steps[0], states[1]);
      var next := TimedApply(c, t, Own(steps[0]));
      forall i | 0 <= i < |steps[1..]|
        ensures Leads(c, states[1..][i], steps[1..][i], states[1..][i + 1]) && !Spurious(steps[1..][i])
      {
        assert Leads(c, states[i + 1], steps[i + 1], states[i + 2]);
      }
      ts, taken := OwnPath(c, next, states[1..], steps[1..]);
      TimedPathCons(c, t, Own(steps[0]), ts, taken);
      ts, taken := [t] + ts, [Own(steps[0])] + taken;
    }
  }

  lemma TimedPathCons(c: Config, t: Timed, step: TimedStep, ts: seq<Timed>, steps: seq<TimedStep>)
    requires TimedPath(c, ts, steps) && TimedLeads(c, t, step, ts[0])
    ensures TimedPath(c, [t] + ts, [step] + steps)
  {
    var longer, taken := [t] + ts, [step] + steps;
    forall i | 0 <= i < |taken|
      ensures TimedLeads(c, longer[i], taken[i], longer[i + 1])
    {
      assert i > 0 ==> TimedLeads(c, ts[i - 1], steps[i - 1], ts[i]);
    }
  }

  /** In every reachable state the pipeline can complete if and only if the time-out exit has not been taken
      and is not about to be: no expired wait is still to be followed by a check that every reader's markers
      have been written. */
  lemma CompletesUnlessTimedOut(c: Config, t: Timed)
    requires ConfigOk(c) && TimedReachable(c, t)
    ensures Shaped(t.s)
    ensures CanComplete(c, t) <==> !Lost(t)
  {
    var past, taken :| TimedRun(c, past, taken) && past[|past| - 1] == t;
    TimedRunOk(c, past, taken, |past| - 1);
    TimedShaped(c, t);
    if Lost(t) {
      forall ts: seq<Timed>, steps | TimedPath(c, ts, steps) && ts[0] == t
        ensures !Final(ts[|ts| - 1].s)
      {
        LostForEver(c, ts, steps, |ts| - 1);
        LostIsNotFinal(c, ts[|ts| - 1]);
      }
    } else {
      var u := if t.expired then TimedApply(c, t, Check) else t;
      var states, steps := AlwaysCompletes(c, t.s);
      var ts: seq<Timed>, own := OwnPath(c, u, states, steps);
      if t.expired {
        TimedPathCons(c, t, Check, ts, own);
        ts, own := [t] + ts, [Check] + own;
      }
      assert TimedPath(c, ts, own) && ts[0] == t && Final(ts[|ts| - 1].s);
    }
  }

  // ----- the exit can be taken

  /** One empty file, one thread, one worker a level, and the smallest capacities the program accepts. */
  function SmallConfig(): Config {
    Config([[]], [], 1, 1, 4, 4, 2)
  }

  function SmallStart(): Timed {
    Timed(StartState(SmallConfig(), [[[]]]), false, false)
  }

  /** The dispatcher waits, its wait expires, and before it has the mutex back the reader brings all its
      markers. */
  function SmallSteps(): seq<TimedStep> {
    [Own(DispatcherSleeps), Expire, Own(EndProducers(0)), Own(ParserEnds(0)),
     Own(PushItem(0, 0)), Own(PushItem(0, 0)), Own(PushItem(0, 0)), Own(PushItem(0, 0)), Check]
  }

  lemma SmallReader()
    ensures var x := StartReader(SmallConfig(), [[]]);
            && x.buffer == Empty(4, {}, {0}) && x.parser == Popping && AllPushed(x.todo)
  {
  }

  /** The wait has expired, the reader has closed its buffer, and its parser has written k markers. */
  function SmallMarking(k: nat): Timed {
    var s := SmallStart().s;
    Timed(s.(readers := [Reader([[]], Channel([], 4, true, Side({}, {}), Side({}, {})), if k < LEVELS then Marking(k) else Through)],
             a := Channel(Markers(k), 4, false, Side(if k < LEVELS then {0} else {}, {}), Side({0}, {})),
             eofCount := [if k > 0 then 1 else 0, if k > 1 then 1 else 0, if k > 2 then 1 else 0, if k > 3 then 1 else 0]),
          true, false)
  }

  function Markers(k: nat): (items: seq<Item>)
    ensures |items| == k
  {
    seq(k, l requires 0 <= l < k => Eof(0, l))
  }

  lemma SmallOpening() returns (ts: seq<Timed>)
    ensures TimedPath(SmallConfig(), ts, SmallSteps()[..4]) && ts[0] == SmallStart() && ts[4] == SmallMarking(0)
  {
    var c := SmallConfig();
    SmallReader();
    var t0 := SmallStart();
    var t1 := TimedApply(c, t0, Own(DispatcherSleeps));
    assert t1.s.a.take == Side({}, {0});
    var t2 := TimedApply(c, t1, Expire);
    assert t2.s.a.take == Side({0}, {});
    var t3 := TimedApply(c, t2, Own(EndProducers(0)));
    assert t3.s.readers == [Reader([[]], Channel([], 4, true, Side({}, {}), Side({0}, {})), Popping)];
    var t4 := TimedApply(c, t3, Own(ParserEnds(0)));
    assert t4 == SmallMarking(0);
    ts := [t0, t1, t2, t3, t4];
    var steps := SmallSteps()[..4];
    assert TimedLeads(c, t0, steps[0], t1) && TimedLeads(c, t1, steps[1], t2);
    assert TimedLeads(c, t2, steps[2], t3) && TimedLeads(c, t3, steps[3], t4);
  }

  lemma SmallMark(k: nat)
    requires k < LEVELS
    ensures TimedLeads(SmallConfig(), SmallMarking(k), Own(PushItem(0, 0)), SmallMarking(k + 1))
  {
    var c := SmallConfig();
    var t := SmallMarking(k);
    assert Markers(k) + [Eof(0, k)] == Markers(k + 1);
    assert TimedEnabled(t, Own(PushItem(0, 0)));
    assert TimedApply(c, t, Own(PushItem(0, 0))) == SmallMarking(k + 1);
  }

  lemma SmallRun() returns (ts: seq<Timed>)
    ensures TimedRun(SmallConfig(), ts, SmallSteps()) && ts[|ts| - 1] == TimedApply(SmallConfig(), SmallMarking(4), Check)
  {
    var c := SmallConfig();
    assert Flatten([[]]) == [] + Flatten<Entry>([[]][1..]);
    StartIsInitial(c, [[[]]]);
    var opening := SmallOpening();
    var steps := SmallSteps();
    ts := opening + [SmallMarking(1), SmallMarking(2), SmallMarking(3), SmallMarking(4), TimedApply(c, SmallMarking(4), Check)];
    forall i | 0 <= i < |steps|
      ensures TimedLeads(c, ts[i], steps[i], ts[i + 1])
    {
      if i < 4 {
        assert TimedLeads(c, opening[i], steps[..4][i], opening[i + 1]);
      } else if i < 8 {
        SmallMark(i - 4);
      }
    }
  }

  /** A run in which the exit is taken: the pipeline cannot complete after it. */
  lemma ExitIsTaken() returns (ts: seq<Timed>)
    ensures ConfigOk(SmallConfig()) && TimedRun(SmallConfig(), ts, SmallSteps())
    ensures ts[|ts| - 1].left && !CanComplete(SmallConfig(), ts[|ts| - 1])
  {
    ts := SmallRun();
    var last := ts[|ts| - 1];
    assert last.left;
    assert TimedReachable(SmallConfig(), last);
    CompletesUnlessTimedOut(SmallConfig(), last);
  }
}
