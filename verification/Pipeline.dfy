/** The log pipeline as a transition system: per file some reader threads and a parser, then the
    dispatcher, per level some workers and their analyzer, and the aggregator. One step is one critical
    section with the local work after it; a signalled party runs again only in a later step of its own.
    HW4/reader.c, HW4/dispatcher.c:15-130, HW4/analyzer.c:58-73, 158-240, HW4/aggregator.c:22-67, 176-202. */
module Pipeline {
  import opened Basics
  import opened Counting
  import opened Channels

  const LEVELS: nat := 4

  datatype Entry = Entry(reader: nat, level: nat, source: string, message: string)

  /** What Region A carries: log lines and end-of-file markers, one for each reader and level. */
  datatype Item = Line(entry: Entry) | Eof(reader: nat, level: nat)

  /** files[r] holds the valid lines of file r in order. */
  datatype Config = Config(files: seq<seq<Entry>>, priority: seq<string>, threads: nat, workers: nat,
                           capacityA: nat, capacityB: nat, capacityD: nat)

  datatype Parser = Popping | Pushing(entry: Entry) | Marking(level: nat) | Through
  /** todo[t] is what reader thread t still has to push. */
  datatype Reader = Reader(todo: seq<seq<Entry>>, buffer: Channel<Entry>, parser: Parser)

  datatype Dispatcher = Fetch | ToLevel(entry: Entry) | ToPriority(entry: Entry) | PostEof(level: nat) | SetDone | Left

  /** A worker takes entries until its queue has ended, waits at the barrier, and exits through its destructor. */
  datatype Stage = Working | AtBarrier | Exited
  datatype Worker = Worker(stage: Stage, taken: seq<Entry>)
  datatype Analyzer = Joining | Posting | Published
  datatype Level = Level(queue: Channel<Entry>, workers: seq<Worker>, analyzer: Analyzer, ready: bool, semaphore: nat)

  datatype Aggregator = Draining | AwaitReady(level: nat) | AwaitSemaphore(level: nat) | Written

  /** seen[l] lists the readers whose marker for level l the dispatcher has counted. */
  datatype State = State(
    readers: seq<Reader>, a: Channel<Item>, eofCount: seq<nat>,
    dispatcher: Dispatcher, eofSeen: seq<nat>, seen: seq<set<nat>>, finished: nat,
    levels: seq<Level>, d: Channel<Entry>,
    aggregator: Aggregator, asleep: bool, scored: seq<Entry>)

  datatype Step =
    | PushLine(r: nat, t: nat, pick: nat) | ThreadSleeps(r: nat, t: nat) | EndProducers(r: nat)
    | ParserTakes(r: nat, pick: nat) | ParserSleeps(r: nat) | ParserEnds(r: nat)
    | PushItem(r: nat, pick: nat) | PusherSleeps(r: nat)
    | Dispatch(pick: nat) | DispatcherSleeps
    | RouteLevel(pick: nat) | LevelFull | RoutePriority(pick: nat) | PriorityFull | PostLevel | FinishDispatch
    | WorkerTakes(l: nat, w: nat, pick: nat) | WorkerSleeps(l: nat, w: nat) | WorkerEnds(l: nat, w: nat)
    | WorkerExits(l: nat, w: nat) | Publish(l: nat) | PostReady(l: nat)
    | Drain(pick: nat) | DrainSleeps | DrainEnds
    | SeeReady | ReadySleeps | Receive
    // wake-ups without a signal, and timed waits that expire
    | NudgeReader(r: nat, put: bool, k: nat) | NudgeA(put: bool, k: nat)
    | NudgeLevel(l: nat, put: bool, k: nat) | NudgeD(put: bool, k: nat) | NudgeAggregator

  predicate Spurious(step: Step) {
    step.NudgeReader? || step.NudgeA? || step.NudgeLevel? || step.NudgeD? || step.NudgeAggregator?
  }

  predicate Pushes(p: Parser) {
    p.Pushing? || p.Marking?
  }

  /** Thread t still has lines to push. */
  predicate HasLines(todo: seq<seq<Entry>>, t: nat) {
    t < |todo| && todo[t] != []
  }

  predicate AllPushed(todo: seq<seq<Entry>>) {
    forall t :: 0 <= t < |todo| ==> !HasLines(todo, t)
  }

  /** The item a pushing parser is about to write. */
  function NextItem(p: Parser, r: nat): Item
    requires Pushes(p)
  {
    if p.Pushing? then Line(p.entry) else Eof(r, p.level)
  }

  predicate IsPriority(c: Config, e: Entry) {
    e.source in c.priority
  }

  predicate NobodyWorking(v: Level) {
    forall w :: 0 <= w < |v.workers| ==> !v.workers[w].stage.Working?
  }

  predicate EverybodyExited(v: Level) {
    forall w :: 0 <= w < |v.workers| ==> v.workers[w].stage.Exited?
  }

  predicate Shaped(s: State) {
    && |s.levels| == |s.eofSeen| == |s.seen| == |s.eofCount| == LEVELS
    && (s.dispatcher.ToLevel? || s.dispatcher.ToPriority? ==> s.dispatcher.entry.level < LEVELS)
    && (s.dispatcher.PostEof? ==> s.dispatcher.level < LEVELS)
    && (s.aggregator.AwaitReady? || s.aggregator.AwaitSemaphore? ==> s.aggregator.level < LEVELS)
  }

  predicate IsWorker(s: State, l: nat, w: nat)
    requires Shaped(s)
  {
    l < LEVELS && w < |s.levels[l].workers|
  }

  predicate Enabled(s: State, step: Step)
    requires Shaped(s)
  {
    match step
    case PushLine(r, t, pick) =>
      r < |s.readers| && HasLines(s.readers[r].todo, t) && CanPut(s.readers[r].buffer, t, pick)
    case ThreadSleeps(r, t) => r < |s.readers| && MustSleepPut(s.readers[r].buffer, t)
    case EndProducers(r) =>
      r < |s.readers| && !s.readers[r].buffer.closed && AllPushed(s.readers[r].todo)
    case ParserTakes(r, pick) => r < |s.readers| && CanTake(s.readers[r].buffer, 0, pick)
    case ParserSleeps(r) => r < |s.readers| && MustSleepTake(s.readers[r].buffer, 0)
    case ParserEnds(r) => r < |s.readers| && AtEnd(s.readers[r].buffer, 0)
    case PushItem(r, pick) =>
      && r < |s.readers| && Pushes(s.readers[r].parser) && CanPut(s.a, r, pick)
      && (s.readers[r].parser.Marking? ==> s.readers[r].parser.level < LEVELS)
    case PusherSleeps(r) => MustSleepPut(s.a, r)
    case Dispatch(pick) => CanTake(s.a, 0, pick) && ItemLevel(s.a.items[0]) < LEVELS
    case DispatcherSleeps => MustSleepTake(s.a, 0)
    case RouteLevel(pick) => s.dispatcher.ToLevel? && CanPut(s.levels[s.dispatcher.entry.level].queue, 0, pick)
    case LevelFull => s.dispatcher.ToLevel? && MustSleepPut(s.levels[s.dispatcher.entry.level].queue, 0)
    case RoutePriority(pick) => s.dispatcher.ToPriority? && CanPut(s.d, 0, pick)
    case PriorityFull => s.dispatcher.ToPriority? && MustSleepPut(s.d, 0)
    case PostLevel => s.dispatcher.PostEof?
    case FinishDispatch => s.dispatcher.SetDone?
    case WorkerTakes(l, w, pick) => IsWorker(s, l, w) && CanTake(s.levels[l].queue, w, pick)
    case WorkerSleeps(l, w) => IsWorker(s, l, w) && MustSleepTake(s.levels[l].queue, w)
    case WorkerEnds(l, w) => IsWorker(s, l, w) && AtEnd(s.levels[l].queue, w)
    case WorkerExits(l, w) =>
      IsWorker(s, l, w) && s.levels[l].workers[w].stage.AtBarrier? && NobodyWorking(s.levels[l])
    case Publish(l) => l < LEVELS && s.levels[l].analyzer.Joining? && EverybodyExited(s.levels[l])
    case PostReady(l) => l < LEVELS && s.levels[l].analyzer.Posting?
    case Drain(pick) => s.aggregator.Draining? && CanTake(s.d, 0, pick)
    case DrainSleeps => s.aggregator.Draining? && MustSleepTake(s.d, 0)
    case DrainEnds => s.aggregator.Draining? && AtEnd(s.d, 0)
    case SeeReady => s.aggregator.AwaitReady? && !s.asleep && s.levels[s.aggregator.level].ready
    case ReadySleeps => s.aggregator.AwaitReady? && !s.asleep && !s.levels[s.aggregator.level].ready
    case Receive => s.aggregator.AwaitSemaphore? && s.levels[s.aggregator.level].semaphore > 0
    case NudgeReader(r, put, k) => r < |s.readers| && CanNudge(s.readers[r].buffer, put, k)
    case NudgeA(put, k) => CanNudge(s.a, put, k)
    case NudgeLevel(l, put, k) => l < LEVELS && CanNudge(s.levels[l].queue, put, k)
    case NudgeD(put, k) => CanNudge(s.d, put, k)
    case NudgeAggregator => s.asleep
  }

  function ItemLevel(x: Item): nat {
    if x.Line? then x.entry.level else x.level
  }

  /** A thread writes its next line; it comes back when it has another. */
  function AfterPush(x: Reader, t: nat, pick: nat): Reader
    requires HasLines(x.todo, t)
  {
    var rest := x.todo[t][1..];
    var b := Put(x.buffer, t, x.todo[t][0], pick);
    x.(todo := x.todo[t := rest], buffer := if rest == [] then b else ArrivePut(b, t))
  }

  /** The parser after writing its item to Region A, which is then a. */
  function AfterItem(x: Reader): Reader
    requires Pushes(x.parser)
  {
    if x.parser.Pushing? then x.(parser := Popping, buffer := ArriveTake(x.buffer, 0))
    else x.(parser := if x.parser.level + 1 < LEVELS then Marking(x.parser.level + 1) else Through)
  }

  /** The dispatcher goes back to Region A. */
  function FetchAgain(s: State): State {
    s.(dispatcher := Fetch, a := ArriveTake(s.a, 0))
  }

  function SetReader(s: State, r: nat, x: Reader): State
    requires r < |s.readers|
  {
    s.(readers := s.readers[r := x])
  }

  function SetLevel(s: State, l: nat, v: Level): State
    requires l < |s.levels|
  {
    s.(levels := s.levels[l := v])
  }

  function SetQueue(s: State, l: nat, q: Channel<Entry>): State
    requires l < |s.levels|
  {
    SetLevel(s, l, s.levels[l].(queue := q))
  }

  /** Routing one item out of Region A. */
  function Routed(s: State, x: Item): State
    requires Shaped(s) && ItemLevel(x) < LEVELS
  {
    match x
    case Line(e) =>
      SetQueue(s.(dispatcher := ToLevel(e)), e.level, ArrivePut(s.levels[e.level].queue, 0))
    case Eof(r, l) =>
      var s' := s.(eofSeen := s.eofSeen[l := s.eofSeen[l] + 1], seen := s.seen[l := s.seen[l] + {r}]);
      if s'.eofSeen[l] == |s.readers| && !s.levels[l].queue.closed then s'.(dispatcher := PostEof(l))
      else FetchAgain(s')
  }

  function Worked(v: Level, w: nat, pick: nat): Level
    requires w < |v.workers| && v.queue.items != []
  {
    v.(queue := ArriveTake(Take(v.queue, w, pick), w),
       workers := v.workers[w := v.workers[w].(taken := v.workers[w].taken + [v.queue.items[0]])])
  }

  function Apply(c: Config, s: State, step: Step): State
    requires Shaped(s) && Enabled(s, step)
  {
    match step
    case PushLine(r, t, pick) => SetReader(s, r, AfterPush(s.readers[r], t, pick))
    case ThreadSleeps(r, t) => SetReader(s, r, s.readers[r].(buffer := SleepPut(s.readers[r].buffer, t)))
    case EndProducers(r) => SetReader(s, r, s.readers[r].(buffer := Close(s.readers[r].buffer)))
    case ParserTakes(r, pick) =>
      var x := s.readers[r];
      SetReader(s, r, x.(parser := Pushing(x.buffer.items[0]), buffer := Take(x.buffer, 0, pick))).(
        a := ArrivePut(s.a, r))
    case ParserSleeps(r) => SetReader(s, r, s.readers[r].(buffer := SleepTake(s.readers[r].buffer, 0)))
    case ParserEnds(r) =>
      var x := s.readers[r];
      SetReader(s, r, x.(parser := Marking(0), buffer := Leave(x.buffer, 0))).(a := ArrivePut(s.a, r))
    case PushItem(r, pick) =>
      var x := s.readers[r];
      var a := Put(s.a, r, NextItem(x.parser, r), pick);
      SetReader(s, r, AfterItem(x)).(
        a := if Pushes(AfterItem(x).parser) then ArrivePut(a, r) else a,
        eofCount := if x.parser.Marking? then s.eofCount[x.parser.level := s.eofCount[x.parser.level] + 1] else s.eofCount)
    case PusherSleeps(r) => s.(a := SleepPut(s.a, r))
    case Dispatch(pick) => Routed(s.(a := Take(s.a, 0, pick)), s.a.items[0])
    case DispatcherSleeps => s.(a := SleepTake(s.a, 0))
    case RouteLevel(pick) =>
      var e := s.dispatcher.entry;
      var s' := SetQueue(s, e.level, Put(s.levels[e.level].queue, 0, e, pick));
      if IsPriority(c, e) then s'.(dispatcher := ToPriority(e), d := ArrivePut(s.d, 0)) else FetchAgain(s')
    case LevelFull => SetQueue(s, s.dispatcher.entry.level, SleepPut(s.levels[s.dispatcher.entry.level].queue, 0))
    case RoutePriority(pick) => FetchAgain(s.(d := Put(s.d, 0, s.dispatcher.entry, pick)))
    case PriorityFull => s.(d := SleepPut(s.d, 0))
    case PostLevel =>
      var l := s.dispatcher.level;
      var s' := SetQueue(s, l, Close(s.levels[l].queue)).(finished := s.finished + 1);
      if s'.finished < LEVELS then FetchAgain(s') else s'.(dispatcher := SetDone)
    case FinishDispatch => s.(dispatcher := Left, d := Close(s.d))
    case WorkerTakes(l, w, pick) => SetLevel(s, l, Worked(s.levels[l], w, pick))
    case WorkerSleeps(l, w) => SetQueue(s, l, SleepTake(s.levels[l].queue, w))
    case WorkerEnds(l, w) =>
      var v := s.levels[l];
      SetLevel(s, l, v.(queue := Leave(v.queue, w), workers := v.workers[w := v.workers[w].(stage := AtBarrier)]))
    case WorkerExits(l, w) =>
      var v := s.levels[l];
      SetLevel(s, l, v.(workers := v.workers[w := v.workers[w].(stage := Exited)]))
    case Publish(l) => SetLevel(s, l, s.levels[l].(analyzer := Posting, ready := true)).(asleep := false)
    case PostReady(l) => SetLevel(s, l, s.levels[l].(analyzer := Published, semaphore := s.levels[l].semaphore + 1))
    case Drain(pick) => s.(d := ArriveTake(Take(s.d, 0, pick), 0), scored := s.scored + [s.d.items[0]])
    case DrainSleeps => s.(d := SleepTake(s.d, 0))
    case DrainEnds => s.(d := Leave(s.d, 0), aggregator := AwaitReady(0))
    case SeeReady => s.(aggregator := AwaitSemaphore(s.aggregator.level))
    case ReadySleeps => s.(asleep := true)
    case Receive =>
      var l := s.aggregator.level;
      SetLevel(s, l, s.levels[l].(semaphore := s.levels[l].semaphore - 1)).(
        aggregator := if l + 1 < LEVELS then AwaitReady(l + 1) else Written)
    case NudgeReader(r, put, k) => SetReader(s, r, s.readers[r].(buffer := Nudged(s.readers[r].buffer, put, k)))
    case NudgeA(put, k) => s.(a := Nudged(s.a, put, k))
    case NudgeLevel(l, put, k) => SetQueue(s, l, Nudged(s.levels[l].queue, put, k))
    case NudgeD(put, k) => s.(d := Nudged(s.d, put, k))
    case NudgeAggregator => s.(asleep := false)
  }

  /** The entries of file r carry its number and a level. */
  ghost predicate ConfigOk(c: Config) {
    && c.files != [] && c.threads > 0 && c.workers > 0
    && c.capacityA > 0 && c.capacityB > 0 && c.capacityD > 0
    && forall r, i :: 0 <= r < |c.files| && 0 <= i < |c.files[r]| ==>
         c.files[r][i].reader == r && c.files[r][i].level < LEVELS
  }

  /** Each file is shared out among its threads, and every party is at its first push or pop. */
  ghost predicate Init(c: Config, s: State) {
    && |s.readers| == |c.files|
    && (forall r :: 0 <= r < |c.files| ==> InitReader(c, s.readers[r], c.files[r]))
    && s.a == Empty(c.capacityA, {}, {0})
    && s.eofCount == s.eofSeen == [0, 0, 0, 0] && s.seen == [{}, {}, {}, {}]
    && s.dispatcher == Fetch && s.finished == 0
    && |s.levels| == LEVELS && (forall l :: 0 <= l < LEVELS ==> InitLevel(c, s.levels[l]))
    && s.d == Empty(c.capacityD, {}, {0})
    && s.aggregator == Draining && !s.asleep && s.scored == []
  }

  /** The threads that have lines to push. */
  function Pushers(todo: seq<seq<Entry>>): (r: set<nat>)
    ensures forall t: nat :: t in r <==> HasLines(todo, t)
  {
    set t: nat | t < |todo| && HasLines(todo, t)
  }

  function StartReader(c: Config, shares: seq<seq<Entry>>): Reader {
    Reader(shares, Empty(c.capacityB, Pushers(shares), {0}), Popping)
  }

  function StartLevel(c: Config): Level {
    Level(Empty(c.capacityB, {}, Below(c.workers)), seq(c.workers, _ => Worker(Working, [])), Joining, false, 0)
  }

  ghost predicate InitReader(c: Config, x: Reader, file: seq<Entry>) {
    |x.todo| == c.threads && Flatten(x.todo) == file && x == StartReader(c, x.todo)
  }

  ghost predicate InitLevel(c: Config, v: Level) {
    v == StartLevel(c)
  }

  /** The state in which the lines of file r are shared out among its threads as shares[r] says. */
  function StartState(c: Config, shares: seq<seq<seq<Entry>>>): State {
    State(seq(|shares|, r requires 0 <= r < |shares| => StartReader(c, shares[r])),
          Empty(c.capacityA, {}, {0}), [0, 0, 0, 0], Fetch, [0, 0, 0, 0], [{}, {}, {}, {}], 0,
          seq(LEVELS, _ => StartLevel(c)), Empty(c.capacityD, {}, {0}), Draining, false, [])
  }

  /** Every way of sharing the files' lines out among the threads starts a run. */
  lemma StartIsInitial(c: Config, shares: seq<seq<seq<Entry>>>)
    requires |shares| == |c.files|
    requires forall r :: 0 <= r < |shares| ==> |shares[r]| == c.threads && Flatten(shares[r]) == c.files[r]
    ensures Init(c, StartState(c, shares)) && Reachable(c, StartState(c, shares))
  {
    var s := StartState(c, shares);
    forall r | 0 <= r < |c.files|
      ensures InitReader(c, s.readers[r], c.files[r])
    {
      assert s.readers[r] == StartReader(c, shares[r]);
    }
    assert Run(c, [s], []);
  }

  /** For every configuration there is a run: the first thread of each file may have all its lines. */
  lemma RunsExist(c: Config) returns (s: State)
    requires ConfigOk(c)
    ensures Init(c, s) && Reachable(c, s)
  {
    var shares := seq(|c.files|, r requires 0 <= r < |c.files| => FirstTakesAll(c.files[r], c.threads));
    forall r | 0 <= r < |shares|
      ensures |shares[r]| == c.threads && Flatten(shares[r]) == c.files[r]
    {
      FirstTakesAllFlat(c.files[r], c.threads);
    }
    StartIsInitial(c, shares);
    s := StartState(c, shares);
  }

  function FirstTakesAll(file: seq<Entry>, threads: nat): seq<seq<Entry>>
    requires threads > 0
  {
    [file] + seq(threads - 1, _ => [])
  }

  lemma FirstTakesAllFlat(file: seq<Entry>, threads: nat)
    requires threads > 0
    ensures Flatten(FirstTakesAll(file, threads)) == file
  {
    assert FirstTakesAll(file, threads)[1..] == seq(threads - 1, _ => []);
    FlattenNothing(seq(threads - 1, _ => []));
  }

  lemma {:induction false} FlattenNothing(parts: seq<seq<Entry>>)
    requires forall i :: 0 <= i < |parts| ==> parts[i] == []
    ensures Flatten(parts) == []
  {
    if parts != [] {
      FlattenNothing(parts[1..]);
    }
  }

  /** A run: from an initial state by enabled steps. */
  ghost predicate Run(c: Config, states: seq<State>, steps: seq<Step>) {
    && |states| == |steps| + 1 && Init(c, states[0])
    && forall i :: 0 <= i < |steps| ==> Leads(c, states[i], steps[i], states[i + 1])
  }

  ghost predicate Leads(c: Config, s: State, step: Step, s': State) {
    Shaped(s) && Enabled(s, step) && s' == Apply(c, s, step)
  }

  ghost predicate Reachable(c: Config, s: State) {
    exists states, steps :: Run(c, states, steps) && states[|states| - 1] == s
  }

  /** Everybody has exited. */
  predicate Final(s: State) {
    && (forall r :: 0 <= r < |s.readers| ==>
          s.readers[r].parser.Through? && AllPushed(s.readers[r].todo))
    && s.dispatcher.Left? && s.aggregator.Written?
    && forall l :: 0 <= l < |s.levels| ==> s.levels[l].analyzer.Published? && EverybodyExited(s.levels[l])
  }
}
