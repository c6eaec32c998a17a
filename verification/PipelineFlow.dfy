/** Where the entries are: every valid line of every file is, at all times, in exactly one place on its
    way to a worker, and every priority line that has reached its level is also on its way to, or with,
    the aggregator. */
module PipelineFlow {
  import opened Basics
  import opened Counting
  import opened Channels
  import opened Pipeline
  import opened PipelineInvariant

  /** How often e occurs in s. */
  function Occ(s: seq<Entry>, e: Entry): nat {
    multiset(s)[e]
  }

  function One(x: Entry, e: Entry): nat {
    if x == e then 1 else 0
  }

  lemma OccHead(s: seq<Entry>, e: Entry)
    requires s != []
    ensures Occ(s, e) == One(s[0], e) + Occ(s[1..], e)
  {
    assert s == [s[0]] + s[1..];
  }

  lemma OccSnoc(s: seq<Entry>, x: Entry, e: Entry)
    ensures Occ(s + [x], e) == Occ(s, e) + One(x, e)
  {
  }

  function LinesOf(items: seq<Item>, e: Entry): nat {
    if items == [] then 0 else OneLine(items[0], e) + LinesOf(items[1..], e)
  }

  function OneLine(x: Item, e: Entry): nat {
    if x == Line(e) then 1 else 0
  }

  lemma {:induction false} LinesOfSnoc(items: seq<Item>, x: Item, e: Entry)
    ensures LinesOf(items + [x], e) == LinesOf(items, e) + OneLine(x, e)
  {
    if items == [] {
      assert items + [x] == [x];
      assert LinesOf([x], e) == OneLine(x, e) + LinesOf([x][1..], e);
    } else {
      assert (items + [x])[1..] == items[1..] + [x];
      LinesOfSnoc(items[1..], x, e);
    }
  }

  /** Occurrences of an entry in a reader, before Region A. */
  function Rest(x: Reader, e: Entry): nat {
    Occ(Flatten(x.todo), e) + Occ(x.buffer.items, e) + if x.parser.Pushing? then One(x.parser.entry, e) else 0
  }

  function RestList(readers: seq<Reader>, e: Entry): (counts: seq<nat>)
    ensures |counts| == |readers|
  {
    seq(|readers|, r requires 0 <= r < |readers| => Rest(readers[r], e))
  }

  /** Occurrences in a level's queue or taken by its workers. */
  function Arrived(v: Level, e: Entry): nat {
    Occ(v.queue.items, e) + Taken(v.workers, e)
  }

  function Taken(workers: seq<Worker>, e: Entry): nat {
    Sum(TakenList(workers, e))
  }

  function TakenList(workers: seq<Worker>, e: Entry): (counts: seq<nat>)
    ensures |counts| == |workers|
  {
    seq(|workers|, w requires 0 <= w < |workers| => Occ(workers[w].taken, e))
  }

  function ArrivedList(levels: seq<Level>, e: Entry): (counts: seq<nat>)
    ensures |counts| == |levels|
  {
    seq(|levels|, l requires 0 <= l < |levels| => Arrived(levels[l], e))
  }

  function Upstream(readers: seq<Reader>, items: seq<Item>, d: Dispatcher, e: Entry): nat {
    Sum(RestList(readers, e)) + LinesOf(items, e) + if d.ToLevel? then One(d.entry, e) else 0
  }

  function Downstream(levels: seq<Level>, e: Entry): nat {
    Sum(ArrivedList(levels, e))
  }

  function PriorityLane(d: Dispatcher, queue: seq<Entry>, scored: seq<Entry>, e: Entry): nat {
    (if d.ToPriority? then One(d.entry, e) else 0) + Occ(queue, e) + Occ(scored, e)
  }

  function Input(c: Config, e: Entry): nat {
    Occ(Flatten(c.files), e)
  }

  /** No occurrence of e is lost or doubled, on the main path and on the priority lane. */
  ghost predicate FlowOf(c: Config, s: State, e: Entry) {
    && Upstream(s.readers, s.a.items, s.dispatcher, e) + Downstream(s.levels, e) == Input(c, e)
    && PriorityLane(s.dispatcher, s.d.items, s.scored, e) == if IsPriority(c, e) then Downstream(s.levels, e) else 0
  }

  ghost predicate Flow(c: Config, s: State) {
    forall e :: FlowOf(c, s, e)
  }

  lemma ReaderTotal(readers: seq<Reader>, r: nat, x: Reader, e: Entry)
    requires r < |readers|
    ensures Sum(RestList(readers[r := x], e)) == Sum(RestList(readers, e)) - Rest(readers[r], e) + Rest(x, e)
  {
    SumUpdate(RestList(readers, e), r, Rest(x, e));
    assert RestList(readers[r := x], e) == RestList(readers, e)[r := Rest(x, e)];
  }

  lemma LevelTotal(levels: seq<Level>, l: nat, v: Level, e: Entry)
    requires l < |levels|
    ensures Downstream(levels[l := v], e) == Downstream(levels, e) - Arrived(levels[l], e) + Arrived(v, e)
  {
    SumUpdate(ArrivedList(levels, e), l, Arrived(v, e));
    assert ArrivedList(levels[l := v], e) == ArrivedList(levels, e)[l := Arrived(v, e)];
  }

  lemma WorkerTotal(workers: seq<Worker>, w: nat, x: Worker, e: Entry)
    requires w < |workers|
    ensures Taken(workers[w := x], e) == Taken(workers, e) - Occ(workers[w].taken, e) + Occ(x.taken, e)
  {
    SumUpdate(TakenList(workers, e), w, Occ(x.taken, e));
    assert TakenList(workers[w := x], e) == TakenList(workers, e)[w := Occ(x.taken, e)];
  }

  lemma {:induction false} FlattenTake(todo: seq<seq<Entry>>, t: nat, e: Entry)
    requires HasLines(todo, t)
    ensures Occ(Flatten(todo), e) == Occ(Flatten(todo[t := todo[t][1..]]), e) + One(todo[t][0], e)
  {
    var next := todo[t := todo[t][1..]];
    if t == 0 {
      assert todo[0] == [todo[0][0]] + todo[0][1..];
      assert next[1..] == todo[1..];
      assert Flatten(todo) == [todo[0][0]] + Flatten(next);
    } else {
      assert HasLines(todo[1..], t - 1);
      FlattenTake(todo[1..], t - 1, e);
      assert next[1..] == todo[1..][t - 1 := todo[1..][t - 1][1..]];
    }
  }

  /** A reader that keeps its entries, or hands one to Region A, keeps the flow. */
  lemma ReaderFlow(c: Config, s: State, r: nat, x: Reader, items: seq<Item>, e: Entry)
    requires FlowOf(c, s, e) && r < |s.readers|
    requires Rest(x, e) + LinesOf(items, e) == Rest(s.readers[r], e) + LinesOf(s.a.items, e)
    ensures Upstream(s.readers[r := x], items, s.dispatcher, e) == Upstream(s.readers, s.a.items, s.dispatcher, e)
  {
    ReaderTotal(s.readers, r, x, e);
  }

  lemma PushLineFlow(x: Reader, t: nat, pick: nat, e: Entry)
    requires HasLines(x.todo, t)
    ensures Rest(AfterPush(x, t, pick), e) == Rest(x, e)
  {
    FlattenTake(x.todo, t, e);
    OccSnoc(x.buffer.items, x.todo[t][0], e);
  }

  lemma PushItemFlow(x: Reader, r: nat, a: Channel<Item>, pick: nat, e: Entry)
    requires Pushes(x.parser)
    ensures Rest(AfterItem(x), e) + LinesOf(RegionAfter(a, x, r, pick).items, e) == Rest(x, e) + LinesOf(a.items, e)
  {
    LinesOfSnoc(a.items, NextItem(x.parser, r), e);
  }

  lemma ThreadFlow(c: Config, s: State, step: Step, e: Entry)
    requires FlowOf(c, s, e) && Shaped(s) && Enabled(s, step) && ThreadStep(step)
    ensures FlowOf(c, Apply(c, s, step), e)
  {
    var r := step.r;
    if step.PushLine? {
      PushLineFlow(s.readers[r], step.t, step.pick, e);
    }
    ReaderFlow(c, s, r, Apply(c, s, step).readers[r], s.a.items, e);
  }

  lemma ParserFlow(c: Config, s: State, step: Step, e: Entry)
    requires FlowOf(c, s, e) && Control(s) && Shaped(s) && Enabled(s, step) && (step.ParserTakes? || step.ParserEnds?)
    ensures FlowOf(c, Apply(c, s, step), e)
  {
    var r := step.r;
    var x := s.readers[r];
    assert ReaderOk(x, r) && At(x.buffer.take, 0);
    if step.ParserTakes? {
      OccHead(x.buffer.items, e);
    }
    ReaderFlow(c, s, r, Apply(c, s, step).readers[r], s.a.items, e);
  }

  lemma WriterFlow(c: Config, s: State, r: nat, pick: nat, e: Entry)
    requires FlowOf(c, s, e) && Shaped(s) && Enabled(s, PushItem(r, pick))
    ensures FlowOf(c, Apply(c, s, PushItem(r, pick)), e)
  {
    var x := s.readers[r];
    PushItemFlow(x, r, s.a, pick, e);
    ReaderFlow(c, s, r, AfterItem(x), RegionAfter(s.a, x, r, pick).items, e);
  }

  /** A change that keeps what is upstream, downstream and on the priority lane. */
  lemma SameFlow(c: Config, s: State, s': State, e: Entry)
    requires FlowOf(c, s, e)
    requires Upstream(s'.readers, s'.a.items, s'.dispatcher, e) == Upstream(s.readers, s.a.items, s.dispatcher, e)
    requires Downstream(s'.levels, e) == Downstream(s.levels, e)
    requires PriorityLane(s'.dispatcher, s'.d.items, s'.scored, e) == PriorityLane(s.dispatcher, s.d.items, s.scored, e)
    ensures FlowOf(c, s', e)
  {
  }

  /** The dispatcher takes a line or a marker out of Region A. */
  lemma DispatchFlow(c: Config, s: State, pick: nat, e: Entry)
    requires FlowOf(c, s, e) && Shaped(s) && s.dispatcher.Fetch? && s.a.items != [] && ItemLevel(s.a.items[0]) < LEVELS
    ensures FlowOf(c, Routed(s.(a := Take(s.a, 0, pick)), s.a.items[0]), e)
  {
    var x := s.a.items[0];
    var s' := Routed(s.(a := Take(s.a, 0, pick)), x);
    assert LinesOf(s.a.items, e) == OneLine(x, e) + LinesOf(s.a.items[1..], e);
    if x.Line? {
      DispatchLineFlow(s.levels, x.entry.level, e);
    }
    SameFlow(c, s, s', e);
  }

  lemma DispatchLineFlow(levels: seq<Level>, l: nat, e: Entry)
    requires l < |levels|
    ensures Downstream(levels[l := levels[l].(queue := ArrivePut(levels[l].queue, 0))], e) == Downstream(levels, e)
  {
    LevelTotal(levels, l, levels[l].(queue := ArrivePut(levels[l].queue, 0)), e);
  }

  lemma RoutedFlow(c: Config, s: State, pick: nat, e: Entry)
    requires FlowOf(c, s, e) && s.dispatcher.ToLevel? && s.dispatcher.entry.level < |s.levels|
    ensures var x := s.dispatcher.entry;
            var v := s.levels[x.level];
            Downstream(s.levels[x.level := v.(queue := Put(v.queue, 0, x, pick))], e) == Downstream(s.levels, e) + One(x, e)
  {
    var x := s.dispatcher.entry;
    var v := s.levels[x.level];
    LevelTotal(s.levels, x.level, v.(queue := Put(v.queue, 0, x, pick)), e);
    OccSnoc(v.queue.items, x, e);
  }

  lemma RouteFlow(c: Config, s: State, pick: nat, e: Entry)
    requires FlowOf(c, s, e) && Shaped(s) && Enabled(s, RouteLevel(pick))
    ensures FlowOf(c, Apply(c, s, RouteLevel(pick)), e)
  {
    RoutedFlow(c, s, pick, e);
  }

  /** A level that keeps its entries keeps the flow. */
  lemma LevelFlow(c: Config, s: State, l: nat, v: Level, e: Entry)
    requires FlowOf(c, s, e) && l < |s.levels| && Arrived(v, e) == Arrived(s.levels[l], e)
    ensures FlowOf(c, SetLevel(s, l, v), e)
  {
    LevelTotal(s.levels, l, v, e);
  }

  lemma WorkedFlow(v: Level, w: nat, pick: nat, e: Entry)
    requires w < |v.workers| && v.queue.items != []
    ensures Arrived(Worked(v, w, pick), e) == Arrived(v, e)
  {
    OccHead(v.queue.items, e);
    WorkerTotal(v.workers, w, Worked(v, w, pick).workers[w], e);
    OccSnoc(v.workers[w].taken, v.queue.items[0], e);
  }

  lemma StagedFlow(v: Level, w: nat, stage: Stage, e: Entry)
    requires w < |v.workers|
    ensures Taken(v.workers[w := v.workers[w].(stage := stage)], e) == Taken(v.workers, e)
  {
    WorkerTotal(v.workers, w, v.workers[w].(stage := stage), e);
  }

  lemma WorkerFlow(c: Config, s: State, step: Step, e: Entry)
    requires FlowOf(c, s, e) && Shaped(s) && Enabled(s, step) && WorkerStep(step)
    ensures FlowOf(c, Apply(c, s, step), e)
  {
    var l := step.l;
    var v := s.levels[l];
    if step.WorkerTakes? {
      WorkedFlow(v, step.w, step.pick, e);
    } else if step.WorkerEnds? {
      StagedFlow(v, step.w, AtBarrier, e);
    } else if step.WorkerExits? {
      StagedFlow(v, step.w, Exited, e);
    }
    LevelFlow(c, s, l, Apply(c, s, step).levels[l], e);
  }

  lemma RoutingFlow(c: Config, s: State, step: Step, e: Entry)
    requires FlowOf(c, s, e) && Shaped(s) && Enabled(s, step) && RoutingStep(step) && !step.RouteLevel? && !step.PostLevel?
    ensures FlowOf(c, Apply(c, s, step), e)
  {
    match step
    case LevelFull =>
      var l := s.dispatcher.entry.level;
      LevelFlow(c, s, l, s.levels[l].(queue := SleepPut(s.levels[l].queue, 0)), e);
    case RoutePriority(_) => OccSnoc(s.d.items, s.dispatcher.entry, e);
    case PriorityFull =>
  }

  lemma PostLevelFlow(c: Config, s: State, e: Entry)
    requires FlowOf(c, s, e) && Shaped(s) && s.dispatcher.PostEof?
    ensures FlowOf(c, Apply(c, s, PostLevel), e)
  {
    var l := s.dispatcher.level;
    var s' := Apply(c, s, PostLevel);
    ClosedFlow(s.levels, l, e);
    assert s'.levels == s.levels[l := s.levels[l].(queue := Close(s.levels[l].queue))];
    assert s'.readers == s.readers && s'.a.items == s.a.items && s'.d == s.d && s'.scored == s.scored;
    assert s'.dispatcher.Fetch? || s'.dispatcher.SetDone?;
    SameFlow(c, s, s', e);
  }

  lemma ClosedFlow(levels: seq<Level>, l: nat, e: Entry)
    requires l < |levels|
    ensures Downstream(levels[l := levels[l].(queue := Close(levels[l].queue))], e) == Downstream(levels, e)
  {
    LevelTotal(levels, l, levels[l].(queue := Close(levels[l].queue)), e);
  }

  lemma DispatchSideFlow(c: Config, s: State, step: Step, e: Entry)
    requires FlowOf(c, s, e) && Shaped(s) && Enabled(s, step) && DispatchStep(step) && !step.Dispatch?
    ensures FlowOf(c, Apply(c, s, step), e)
  {
  }

  lemma AnalyzerFlow(c: Config, s: State, step: Step, e: Entry)
    requires FlowOf(c, s, e) && Shaped(s) && Enabled(s, step) && AnalyzerStep(step)
    ensures FlowOf(c, Apply(c, s, step), e)
  {
    LevelTotal(s.levels, step.l, Apply(c, s, step).levels[step.l], e);
  }

  lemma DrainFlow(c: Config, s: State, step: Step, e: Entry)
    requires FlowOf(c, s, e) && Shaped(s) && Enabled(s, step) && DrainStep(step)
    ensures FlowOf(c, Apply(c, s, step), e)
  {
    if step.Drain? {
      OccHead(s.d.items, e);
      OccSnoc(s.scored, s.d.items[0], e);
    }
  }

  lemma ReportFlow(c: Config, s: State, step: Step, e: Entry)
    requires FlowOf(c, s, e) && Shaped(s) && Enabled(s, step) && ReportStep(step)
    ensures FlowOf(c, Apply(c, s, step), e)
  {
  }

  lemma ReceiveFlow(c: Config, s: State, e: Entry)
    requires FlowOf(c, s, e) && Shaped(s) && Enabled(s, Receive)
    ensures FlowOf(c, Apply(c, s, Receive), e)
  {
    var l := s.aggregator.level;
    LevelFlow(c, s, l, s.levels[l].(semaphore := s.levels[l].semaphore - 1), e);
  }

  /** No step loses, doubles or misroutes a line. */
  lemma StepKeepsFlow(c: Config, s: State, step: Step)
    requires Flow(c, s) && Control(s) && Shaped(s) && Enabled(s, step)
    ensures Flow(c, Apply(c, s, step))
  {
    forall e
      ensures FlowOf(c, Apply(c, s, step), e)
    {
      StepKeepsFlowOf(c, s, step, e);
    }
  }

  lemma StepKeepsFlowOf(c: Config, s: State, step: Step, e: Entry)
    requires FlowOf(c, s, e) && Control(s) && Shaped(s) && Enabled(s, step)
    ensures FlowOf(c, Apply(c, s, step), e)
  {
    if ThreadStep(step) {
      ThreadFlow(c, s, step, e);
    } else if step.PushItem? {
      WriterFlow(c, s, step.r, step.pick, e);
    } else if ParserStep(step) {
      ParserFlow(c, s, step, e);
    } else if step.Dispatch? {
      assert At(s.a.take, 0);
      DispatchFlow(c, s, step.pick, e);
    } else if DispatchStep(step) {
      DispatchSideFlow(c, s, step, e);
    } else if step.RouteLevel? {
      RouteFlow(c, s, step.pick, e);
    } else if step.PostLevel? {
      PostLevelFlow(c, s, e);
    } else if RoutingStep(step) {
      RoutingFlow(c, s, step, e);
    } else if WorkerStep(step) {
      WorkerFlow(c, s, step, e);
    } else if AnalyzerStep(step) {
      AnalyzerFlow(c, s, step, e);
    } else if DrainStep(step) {
      DrainFlow(c, s, step, e);
    } else if ReportStep(step) {
      ReportFlow(c, s, step, e);
    } else {
      ReceiveFlow(c, s, e);
    }
  }
}
