/** Every run of the pipeline ends: a measure that each step of a party's own makes smaller. */
module PipelineTermination {
  import opened Basics
  import opened Counting
  import opened Channels
  import opened Pipeline
  import opened PipelineInvariant
  import opened PipelineFlow
  import opened PipelineResults

  function ParserWork(p: Parser): nat {
    match p
    case Popping => 26
    case Pushing(_) => 32
    case Marking(l) => if l < LEVELS then 6 * (LEVELS - l) + 1 else 0
    case Through => 0
  }

  function ReaderWork(x: Reader): nat {
    8 * |Flatten(x.todo)| + 7 * |x.buffer.items| + ParserWork(x.parser) + if x.buffer.closed then 0 else 1
  }

  function DispatcherWork(d: Dispatcher): nat {
    match d
    case Fetch => 2
    case ToLevel(_) => 6
    case ToPriority(_) => 4
    case PostEof(_) => 3
    case SetDone => 1
    case Left => 0
  }

  function StageWork(w: Worker): nat {
    if w.stage.Working? then 2 else if w.stage.AtBarrier? then 1 else 0
  }

  function StageList(workers: seq<Worker>): (r: seq<nat>)
    ensures |r| == |workers|
  {
    seq(|workers|, w requires 0 <= w < |workers| => StageWork(workers[w]))
  }

  function LevelWork(v: Level): nat {
    |v.queue.items| + Sum(StageList(v.workers)) + if v.analyzer.Joining? then 2 else if v.analyzer.Posting? then 1 else 0
  }

  function AggregatorWork(g: Aggregator): nat {
    match g
    case Draining => 10
    case AwaitReady(l) => if l < LEVELS then 2 * (LEVELS - l) else 0
    case AwaitSemaphore(l) => if l < LEVELS then 2 * (LEVELS - l) - 1 else 0
    case Written => 0
  }

  function ReaderWorks(readers: seq<Reader>): (r: seq<nat>)
    ensures |r| == |readers|
  {
    seq(|readers|, i requires 0 <= i < |readers| => ReaderWork(readers[i]))
  }

  function LevelWorks(levels: seq<Level>): (r: seq<nat>)
    ensures |r| == |levels|
  {
    seq(|levels|, i requires 0 <= i < |levels| => LevelWork(levels[i]))
  }

  /** What is left to do: an entry counts less the further it has come. */
  function Work(s: State): nat {
    Sum(ReaderWorks(s.readers)) + 5 * |s.a.items| + DispatcherWork(s.dispatcher)
    + Sum(LevelWorks(s.levels)) + |s.d.items| + AggregatorWork(s.aggregator)
  }

  function BufferVigils(readers: seq<Reader>): (r: seq<nat>)
    ensures |r| == |readers|
  {
    seq(|readers|, i requires 0 <= i < |readers| => Awake(readers[i].buffer))
  }

  function QueueVigils(levels: seq<Level>): (r: seq<nat>)
    ensures |r| == |levels|
  {
    seq(|levels|, i requires 0 <= i < |levels| => Awake(levels[i].queue))
  }

  /** How many parties are awake. */
  function Vigil(s: State): nat {
    Sum(BufferVigils(s.readers)) + Awake(s.a) + Sum(QueueVigils(s.levels)) + Awake(s.d) + if s.asleep then 0 else 1
  }

  lemma ReaderChange(readers: seq<Reader>, r: nat, x: Reader)
    requires r < |readers|
    ensures Sum(ReaderWorks(readers[r := x])) == Sum(ReaderWorks(readers)) - ReaderWork(readers[r]) + ReaderWork(x)
    ensures Sum(BufferVigils(readers[r := x])) == Sum(BufferVigils(readers)) - Awake(readers[r].buffer) + Awake(x.buffer)
  {
    SumUpdate(ReaderWorks(readers), r, ReaderWork(x));
    assert ReaderWorks(readers[r := x]) == ReaderWorks(readers)[r := ReaderWork(x)];
    SumUpdate(BufferVigils(readers), r, Awake(x.buffer));
    assert BufferVigils(readers[r := x]) == BufferVigils(readers)[r := Awake(x.buffer)];
  }

  lemma LevelChange(levels: seq<Level>, l: nat, v: Level)
    requires l < |levels|
    ensures Sum(LevelWorks(levels[l := v])) == Sum(LevelWorks(levels)) - LevelWork(levels[l]) + LevelWork(v)
    ensures Sum(QueueVigils(levels[l := v])) == Sum(QueueVigils(levels)) - Awake(levels[l].queue) + Awake(v.queue)
  {
    SumUpdate(LevelWorks(levels), l, LevelWork(v));
    assert LevelWorks(levels[l := v]) == LevelWorks(levels)[l := LevelWork(v)];
    SumUpdate(QueueVigils(levels), l, Awake(v.queue));
    assert QueueVigils(levels[l := v]) == QueueVigils(levels)[l := Awake(v.queue)];
  }

  lemma WorkerChange(workers: seq<Worker>, w: nat, x: Worker)
    requires w < |workers|
    ensures Sum(StageList(workers[w := x])) == Sum(StageList(workers)) - StageWork(workers[w]) + StageWork(x)
  {
    SumUpdate(StageList(workers), w, StageWork(x));
    assert StageList(workers[w := x]) == StageList(workers)[w := StageWork(x)];
  }

  lemma {:induction false} FlattenShorter(todo: seq<seq<Entry>>, t: nat)
    requires HasLines(todo, t)
    ensures |Flatten(todo)| == |Flatten(todo[t := todo[t][1..]])| + 1
  {
    var next := todo[t := todo[t][1..]];
    if t == 0 {
      assert next[1..] == todo[1..];
    } else {
      assert HasLines(todo[1..], t - 1);
      FlattenShorter(todo[1..], t - 1);
      assert next[1..] == todo[1..][t - 1 := todo[1..][t - 1][1..]];
    }
  }

  /** Less work, or the same with one party fewer awake. */
  predicate Smaller(s': State, s: State) {
    Work(s') < Work(s) || (Work(s') == Work(s) && Vigil(s') < Vigil(s))
  }

  /** A step that changes one reader alone. */
  lemma ReaderMove(s: State, r: nat, x: Reader)
    requires r < |s.readers|
    ensures ReaderWork(x) < ReaderWork(s.readers[r]) ==> Work(SetReader(s, r, x)) < Work(s)
    ensures ReaderWork(x) == ReaderWork(s.readers[r]) && Awake(x.buffer) < Awake(s.readers[r].buffer) ==> Smaller(SetReader(s, r, x), s)
  {
    ReaderChange(s.readers, r, x);
  }

  /** The same when parties arrive at Region A. */
  lemma ReaderArrives(s: State, r: nat, x: Reader, a: Channel<Item>)
    requires r < |s.readers| && ReaderWork(x) < ReaderWork(s.readers[r]) && |a.items| == |s.a.items|
    ensures Work(SetReader(s, r, x).(a := a)) < Work(s)
  {
    ReaderChange(s.readers, r, x);
  }

  lemma LevelMove(s: State, l: nat, v: Level)
    requires l < |s.levels|
    ensures LevelWork(v) < LevelWork(s.levels[l]) ==> Work(SetLevel(s, l, v)) < Work(s)
    ensures LevelWork(v) == LevelWork(s.levels[l]) ==> Work(SetLevel(s, l, v)) == Work(s)
    ensures LevelWork(v) == LevelWork(s.levels[l]) && Awake(v.queue) < Awake(s.levels[l].queue) ==> Smaller(SetLevel(s, l, v), s)
  {
    LevelChange(s.levels, l, v);
  }

  lemma PushLineWork(x: Reader, t: nat, pick: nat)
    requires HasLines(x.todo, t)
    ensures ReaderWork(AfterPush(x, t, pick)) < ReaderWork(x)
  {
    FlattenShorter(x.todo, t);
  }

  lemma ThreadSmaller(c: Config, s: State, step: Step)
    requires Control(s) && Shaped(s) && Enabled(s, step) && ThreadStep(step) && !Spurious(step)
    ensures Smaller(Apply(c, s, step), s)
  {
    var r := step.r;
    var x := s.readers[r];
    assert ReaderOk(x, r);
    if step.PushLine? {
      PushLineWork(x, step.t, step.pick);
    } else if step.ThreadSleeps? {
      SleepPutOk(x.buffer, step.t);
    } else if step.ParserSleeps? {
      SleepTakeOk(x.buffer, 0);
    }
    ReaderMove(s, r, Apply(c, s, step).readers[r]);
  }

  lemma ParserTakesSmaller(c: Config, s: State, r: nat, pick: nat)
    requires Control(s) && Shaped(s) && Enabled(s, ParserTakes(r, pick))
    ensures Smaller(Apply(c, s, ParserTakes(r, pick)), s)
  {
    var x := s.readers[r];
    assert ReaderOk(x, r) && At(x.buffer.take, 0);
    ReaderArrives(s, r, x.(parser := Pushing(x.buffer.items[0]), buffer := Take(x.buffer, 0, pick)), ArrivePut(s.a, r));
  }

  lemma ParserEndsSmaller(c: Config, s: State, r: nat)
    requires Control(s) && Shaped(s) && Enabled(s, ParserEnds(r))
    ensures Smaller(Apply(c, s, ParserEnds(r)), s)
  {
    var x := s.readers[r];
    assert ReaderOk(x, r) && At(x.buffer.take, 0);
    ReaderArrives(s, r, x.(parser := Marking(0), buffer := Leave(x.buffer, 0)), ArrivePut(s.a, r));
  }

  lemma WriterWork(x: Reader, r: nat, a: Channel<Item>, pick: nat)
    requires ReaderOk(x, r) && Pushes(x.parser)
    ensures ReaderWork(AfterItem(x)) + 5 < ReaderWork(x)
    ensures |RegionAfter(a, x, r, pick).items| == |a.items| + 1
  {
  }

  lemma WriterSmaller(c: Config, s: State, r: nat, pick: nat)
    requires Control(s) && Shaped(s) && Enabled(s, PushItem(r, pick))
    ensures Smaller(Apply(c, s, PushItem(r, pick)), s)
  {
    var x := s.readers[r];
    WriterWork(x, r, s.a, pick);
    ReaderChange(s.readers, r, AfterItem(x));
  }

  lemma ArrivedWork(levels: seq<Level>, l: nat)
    requires l < |levels|
    ensures Sum(LevelWorks(levels[l := levels[l].(queue := ArrivePut(levels[l].queue, 0))])) == Sum(LevelWorks(levels))
  {
    LevelChange(levels, l, levels[l].(queue := ArrivePut(levels[l].queue, 0)));
  }

  lemma DispatchSmaller(s: State, pick: nat)
    requires Shaped(s) && s.dispatcher.Fetch? && s.a.items != [] && ItemLevel(s.a.items[0]) < LEVELS
    ensures Work(Routed(s.(a := Take(s.a, 0, pick)), s.a.items[0])) < Work(s)
  {
    var x := s.a.items[0];
    if x.Line? {
      ArrivedWork(s.levels, x.entry.level);
    }
  }

  /** Falling asleep at Region A. */
  lemma RegionASleepSmaller(s: State, a: Channel<Item>)
    requires a.items == s.a.items && Awake(a) < Awake(s.a)
    ensures Smaller(s.(a := a), s)
  {
  }

  lemma DispatchSideSmaller(c: Config, s: State, step: Step)
    requires Control(s) && Shaped(s) && Enabled(s, step) && (step.PusherSleeps? || step.DispatcherSleeps?)
    ensures Smaller(Apply(c, s, step), s)
  {
    if step.PusherSleeps? {
      SleepPutOk(s.a, step.r);
      RegionASleepSmaller(s, SleepPut(s.a, step.r));
    } else {
      SleepTakeOk(s.a, 0);
      RegionASleepSmaller(s, SleepTake(s.a, 0));
    }
  }

  lemma FinishSmaller(c: Config, s: State)
    requires Shaped(s) && s.dispatcher.SetDone?
    ensures Smaller(Apply(c, s, FinishDispatch), s)
  {
  }

  lemma RoutedWork(levels: seq<Level>, l: nat, e: Entry, pick: nat)
    requires l < |levels|
    ensures Sum(LevelWorks(levels[l := levels[l].(queue := Put(levels[l].queue, 0, e, pick))])) == Sum(LevelWorks(levels)) + 1
    ensures Sum(LevelWorks(levels[l := levels[l].(queue := Close(levels[l].queue))])) == Sum(LevelWorks(levels))
  {
    LevelChange(levels, l, levels[l].(queue := Put(levels[l].queue, 0, e, pick)));
    LevelChange(levels, l, levels[l].(queue := Close(levels[l].queue)));
  }

  lemma RouteSmaller(c: Config, s: State, pick: nat)
    requires Shaped(s) && s.dispatcher.ToLevel? && CanPut(s.levels[s.dispatcher.entry.level].queue, 0, pick)
    ensures Smaller(Apply(c, s, RouteLevel(pick)), s)
  {
    RoutedWork(s.levels, s.dispatcher.entry.level, s.dispatcher.entry, pick);
  }

  lemma PostSmaller(c: Config, s: State, e: Entry)
    requires Shaped(s) && s.dispatcher.PostEof?
    ensures Smaller(Apply(c, s, PostLevel), s)
  {
    RoutedWork(s.levels, s.dispatcher.level, e, 0);
  }

  lemma RoutingSmaller(c: Config, s: State, step: Step)
    requires Control(s) && Shaped(s) && Enabled(s, step) && (step.LevelFull? || step.RoutePriority? || step.PriorityFull?)
    ensures Smaller(Apply(c, s, step), s)
  {
    match step
    case LevelFull =>
      var l := s.dispatcher.entry.level;
      var q := s.levels[l].queue;
      assert LevelOk(s.levels[l], l, s.dispatcher);
      SleepPutOk(q, 0);
      LevelChange(s.levels, l, s.levels[l].(queue := SleepPut(q, 0)));
    case PriorityFull => SleepPutOk(s.d, 0);
    case RoutePriority(_) =>
  }

  lemma WorkerWork(v: Level, w: nat, x: Worker, q: Channel<Entry>)
    requires w < |v.workers|
    ensures LevelWork(v.(queue := q, workers := v.workers[w := x])) ==
            LevelWork(v) - StageWork(v.workers[w]) + StageWork(x) - |v.queue.items| + |q.items|
  {
    WorkerChange(v.workers, w, x);
  }

  lemma WorkerTakesSmaller(c: Config, s: State, l: nat, w: nat, pick: nat)
    requires Shaped(s) && Enabled(s, WorkerTakes(l, w, pick))
    ensures Smaller(Apply(c, s, WorkerTakes(l, w, pick)), s)
  {
    var v := s.levels[l];
    var v' := Worked(v, w, pick);
    WorkerWork(v, w, v'.workers[w], v'.queue);
    LevelMove(s, l, v');
  }

  lemma WorkerEndsSmaller(c: Config, s: State, l: nat, w: nat)
    requires Control(s) && Shaped(s) && Enabled(s, WorkerEnds(l, w))
    ensures Smaller(Apply(c, s, WorkerEnds(l, w)), s)
  {
    var v := s.levels[l];
    assert LevelOk(v, l, s.dispatcher) && At(v.queue.take, w);
    WorkerWork(v, w, v.workers[w].(stage := AtBarrier), Leave(v.queue, w));
    LevelMove(s, l, v.(queue := Leave(v.queue, w), workers := v.workers[w := v.workers[w].(stage := AtBarrier)]));
  }

  lemma WorkerExitsSmaller(c: Config, s: State, l: nat, w: nat)
    requires Shaped(s) && Enabled(s, WorkerExits(l, w))
    ensures Smaller(Apply(c, s, WorkerExits(l, w)), s)
  {
    var v := s.levels[l];
    WorkerWork(v, w, v.workers[w].(stage := Exited), v.queue);
    LevelMove(s, l, v.(workers := v.workers[w := v.workers[w].(stage := Exited)]));
  }

  lemma WorkerSleepSmaller(c: Config, s: State, l: nat, w: nat)
    requires Control(s) && Shaped(s) && Enabled(s, WorkerSleeps(l, w))
    ensures Smaller(Apply(c, s, WorkerSleeps(l, w)), s)
  {
    var v := s.levels[l];
    assert LevelOk(v, l, s.dispatcher);
    SleepTakeOk(v.queue, w);
    LevelMove(s, l, v.(queue := SleepTake(v.queue, w)));
  }

  lemma PublishSmaller(c: Config, s: State, l: nat)
    requires Shaped(s) && Enabled(s, Publish(l))
    ensures Smaller(Apply(c, s, Publish(l)), s)
  {
    LevelMove(s, l, s.levels[l].(analyzer := Posting, ready := true));
  }

  lemma PostReadySmaller(c: Config, s: State, l: nat)
    requires Shaped(s) && Enabled(s, PostReady(l))
    ensures Smaller(Apply(c, s, PostReady(l)), s)
  {
    LevelMove(s, l, s.levels[l].(analyzer := Published, semaphore := s.levels[l].semaphore + 1));
  }

  lemma DrainSmaller(c: Config, s: State, step: Step)
    requires Control(s) && Shaped(s) && Enabled(s, step) && DrainStep(step) && !Spurious(step)
    ensures Smaller(Apply(c, s, step), s)
  {
    if step.DrainSleeps? {
      SleepTakeOk(s.d, 0);
    }
  }

  lemma DrainEndsSmaller(c: Config, s: State)
    requires Shaped(s) && Enabled(s, DrainEnds)
    ensures Smaller(Apply(c, s, DrainEnds), s)
  {
  }

  lemma ReportSmaller(c: Config, s: State, step: Step)
    requires Shaped(s) && Enabled(s, step) && (step.SeeReady? || step.ReadySleeps?)
    ensures Smaller(Apply(c, s, step), s)
  {
  }

  lemma ReceiveSmaller(c: Config, s: State)
    requires Shaped(s) && s.aggregator.AwaitSemaphore? && s.levels[s.aggregator.level].semaphore > 0
    ensures Smaller(Apply(c, s, Receive), s)
  {
    var l := s.aggregator.level;
    LevelMove(s, l, s.levels[l].(semaphore := s.levels[l].semaphore - 1));
  }

  lemma StepSmaller(c: Config, s: State, step: Step)
    requires Control(s) && Shaped(s) && Enabled(s, step) && !Spurious(step)
    ensures Smaller(Apply(c, s, step), s)
  {
    if ThreadStep(step) {
      ThreadSmaller(c, s, step);
    } else if step.PushItem? {
      WriterSmaller(c, s, step.r, step.pick);
    } else if step.ParserTakes? {
      ParserTakesSmaller(c, s, step.r, step.pick);
    } else if step.ParserEnds? {
      ParserEndsSmaller(c, s, step.r);
    } else if step.Dispatch? {
      assert At(s.a.take, 0);
      DispatchSmaller(s, step.pick);
    } else if step.FinishDispatch? {
      FinishSmaller(c, s);
    } else if DispatchStep(step) {
      DispatchSideSmaller(c, s, step);
    } else if step.RouteLevel? {
      RouteSmaller(c, s, step.pick);
    } else if step.PostLevel? {
      PostSmaller(c, s, Entry(0, 0, [], []));
    } else if RoutingStep(step) {
      RoutingSmaller(c, s, step);
    } else if step.WorkerSleeps? {
      WorkerSleepSmaller(c, s, step.l, step.w);
    } else if step.WorkerTakes? {
      WorkerTakesSmaller(c, s, step.l, step.w, step.pick);
    } else if step.WorkerEnds? {
      WorkerEndsSmaller(c, s, step.l, step.w);
    } else if step.WorkerExits? {
      WorkerExitsSmaller(c, s, step.l, step.w);
    } else if step.Publish? {
      PublishSmaller(c, s, step.l);
    } else if step.PostReady? {
      PostReadySmaller(c, s, step.l);
    } else if step.Receive? {
      ReceiveSmaller(c, s);
    } else if DrainStep(step) {
      DrainSmaller(c, s, step);
    } else if step.DrainEnds? {
      DrainEndsSmaller(c, s);
    } else {
      ReportSmaller(c, s, step);
    }
  }

  /** Every endless sequence of steps has stray wake-ups or expired waits without end: otherwise the
      pipeline stops, and by NeverStuck it stops only when everybody has exited. */
  lemma {:induction false} EndlessOnlyByTimeouts(c: Config, run: nat -> State, steps: nat -> Step, n: nat)
    requires ConfigOk(c) && Init(c, run(0)) && forall i: nat :: Leads(c, run(i), steps(i), run(i + 1))
    ensures exists i: nat :: i >= n && Spurious(steps(i))
  {
    InfiniteInvariant(c, run, steps, n);
    FindSpurious(c, run, steps, n);
  }

  lemma {:induction false} InfiniteInvariant(c: Config, run: nat -> State, steps: nat -> Step, n: nat)
    requires ConfigOk(c) && Init(c, run(0)) && forall i: nat :: Leads(c, run(i), steps(i), run(i + 1))
    ensures Control(run(n))
  {
    if n == 0 {
      InitControl(c, run(0));
    } else {
      InfiniteInvariant(c, run, steps, n - 1);
      assert Leads(c, run(n - 1), steps(n - 1), run(n - 1 + 1));
      StepKeepsControl(c, run(n - 1), steps(n - 1));
    }
  }

  lemma {:induction false} FindSpurious(c: Config, run: nat -> State, steps: nat -> Step, n: nat)
    requires ConfigOk(c) && Control(run(n)) && forall i: nat :: Leads(c, run(i), steps(i), run(i + 1))
    ensures exists i: nat :: i >= n && Spurious(steps(i))
    decreases Work(run(n)), Vigil(run(n))
  {
    assert Leads(c, run(n), steps(n), run(n + 1));
    if !Spurious(steps(n)) {
      StepSmaller(c, run(n), steps(n));
      StepKeepsControl(c, run(n), steps(n));
      FindSpurious(c, run, steps, n + 1);
    }
  }

  /** A stretch of a run, by steps of the parties' own. */
  ghost predicate Path(c: Config, states: seq<State>, steps: seq<Step>) {
    && |states| == |steps| + 1
    && forall i :: 0 <= i < |steps| ==> Leads(c, states[i], steps[i], states[i + 1]) && !Spurious(steps[i])
  }

  lemma PathCons(c: Config, s: State, step: Step, states: seq<State>, steps: seq<Step>)
    requires Path(c, states, steps) && Leads(c, s, step, states[0]) && !Spurious(step)
    ensures Path(c, [s] + states, [step] + steps)
  {
    var longer, taken := [s] + states, [step] + steps;
    forall i | 0 <= i < |taken|
      ensures Leads(c, longer[i], taken[i], longer[i + 1]) && !Spurious(taken[i])
    {
      if i > 0 {
        assert Leads(c, states[i - 1], steps[i - 1], states[i]);
      }
    }
  }

  lemma {:induction false} Finish(c: Config, s: State) returns (states: seq<State>, steps: seq<Step>)
    requires Control(s)
    ensures Path(c, states, steps) && states[0] == s && Final(states[|states| - 1])
    decreases Work(s), Vigil(s)
  {
    if Final(s) {
      return [s], [];
    }
    var step := NextStep(s);
    StepSmaller(c, s, step);
    StepKeepsControl(c, s, step);
    states, steps := Finish(c, Apply(c, s, step));
    PathCons(c, s, step, states, steps);
    states, steps := [s] + states, [step] + steps;
  }

  /** From every reachable state the parties, by steps of their own, reach the end. */
  lemma AlwaysCompletes(c: Config, s: State) returns (states: seq<State>, steps: seq<Step>)
    requires ConfigOk(c) && Reachable(c, s)
    ensures Path(c, states, steps) && states[0] == s && Final(states[|states| - 1])
  {
    ReachableInvariant(c, s);
    states, steps := Finish(c, s);
  }

  /** Every configuration has a run to the end, in which all levels are published. */
  lemma RunsComplete(c: Config) returns (states: seq<State>, steps: seq<Step>)
    requires ConfigOk(c)
    ensures Run(c, states, steps) && Final(states[|states| - 1])
  {
    var s := RunsExist(c);
    states, steps := AlwaysCompletes(c, s);
  }
}
