/** What the pipeline guarantees over all runs, for every number of files, threads and workers and all
    positive capacities: each line reaches the right worker pool exactly once, end-of-file flags never
    come early, no party is ever stuck, and every run ends. */
module PipelineResults {
  import opened Basics
  import opened Counting
  import opened Channels
  import opened FileSplit
  import opened Pipeline
  import opened PipelineInvariant
  import opened PipelineFlow

  lemma {:induction false} FlattenOcc(parts: seq<seq<Entry>>, counts: seq<nat>, e: Entry)
    requires |counts| == |parts| && forall i :: 0 <= i < |parts| ==> counts[i] == Occ(parts[i], e)
    ensures Occ(Flatten(parts), e) == Sum(counts)
  {
    if parts != [] {
      var n := |parts| - 1;
      assert parts == parts[..n] + [parts[n]];
      FlattenSnoc(parts[..n], parts[n]);
      FlattenOcc(parts[..n], counts[..n], e);
    }
  }

  lemma {:induction false} SumZero(s: seq<nat>)
    requires forall i :: 0 <= i < |s| ==> s[i] == 0
    ensures Sum(s) == 0
  {
    if s != [] {
      SumZero(s[..|s| - 1]);
    }
  }

  lemma InitReaderOk(c: Config, x: Reader, r: nat)
    requires ConfigOk(c) && r < |c.files| && InitReader(c, x, c.files[r])
    ensures ReaderOk(x, r)
  {
    forall t, i | 0 <= t < |x.todo| && 0 <= i < |x.todo[t]|
      ensures Own(x.todo[t][i], r)
    {
      FlattenContains(x.todo, t, i);
      var k :| 0 <= k < |c.files[r]| && c.files[r][k] == x.todo[t][i];
    }
  }

  lemma {:induction false} FlattenContains(parts: seq<seq<Entry>>, t: nat, i: nat)
    requires t < |parts| && i < |parts[t]|
    ensures parts[t][i] in Flatten(parts)
  {
    if t > 0 {
      FlattenContains(parts[1..], t - 1, i);
    }
  }

  lemma InitReadersOk(c: Config, s: State)
    requires ConfigOk(c) && Init(c, s)
    ensures forall r :: 0 <= r < |s.readers| ==> ReaderOk(s.readers[r], r) && s.readers[r].parser == Popping
    ensures EofCountOk(s.eofCount, s.readers)
  {
    forall r | 0 <= r < |s.readers|
      ensures ReaderOk(s.readers[r], r) && s.readers[r].parser == Popping
    {
      assert InitReader(c, s.readers[r], c.files[r]);
      InitReaderOk(c, s.readers[r], r);
    }
    forall l | 0 <= l < LEVELS
      ensures Count(MarkedFlags(s.readers, l)) == 0
    {
      CountExtremes(MarkedFlags(s.readers, l));
    }
  }

  lemma InitLevelsOk(c: Config, s: State)
    requires ConfigOk(c) && Init(c, s)
    ensures LevelsOk(s.levels, s.dispatcher) && Count(ClosedFlags(s.levels)) == 0
    ensures AggregatorOk(s.aggregator, s.asleep, s.levels)
  {
    forall l | 0 <= l < LEVELS
      ensures LevelOk(s.levels[l], l, s.dispatcher) && LevelPure(s.levels[l], l) && !s.levels[l].queue.closed
    {
      assert InitLevel(c, s.levels[l]);
    }
    CountExtremes(ClosedFlags(s.levels));
  }

  lemma InitControl(c: Config, s: State)
    requires ConfigOk(c) && Init(c, s)
    ensures Control(s)
  {
    InitReadersOk(c, s);
    InitLevelsOk(c, s);
    InitFront(c, s);
  }

  lemma InitFront(c: Config, s: State)
    requires ConfigOk(c) && Init(c, s) && forall r :: 0 <= r < |s.readers| ==> s.readers[r].parser == Popping
    ensures RegionAOk(s.a, s.readers, s.dispatcher.Fetch?) && RegionDOk(s.d, s.dispatcher, s.aggregator)
    ensures ItemsOk(s.a.items, s.readers) && Ordered(s.a.items)
    ensures SeenOk(s.a.items, s.readers, s.seen) && MarkersKept(s.a.items, s.readers, s.seen)
    ensures CountsOk(s.eofSeen, s.seen, |s.readers|)
  {
  }

  lemma InitUpstream(c: Config, s: State, e: Entry)
    requires Init(c, s)
    ensures Upstream(s.readers, s.a.items, s.dispatcher, e) == Input(c, e)
  {
    forall r | 0 <= r < |s.readers|
      ensures RestList(s.readers, e)[r] == Occ(c.files[r], e)
    {
      assert InitReader(c, s.readers[r], c.files[r]);
    }
    FlattenOcc(c.files, RestList(s.readers, e), e);
  }

  lemma InitDownstream(c: Config, s: State, e: Entry)
    requires Init(c, s)
    ensures Downstream(s.levels, e) == 0
  {
    forall l | 0 <= l < |s.levels|
      ensures ArrivedList(s.levels, e)[l] == 0
    {
      assert InitLevel(c, s.levels[l]);
      SumZero(TakenList(s.levels[l].workers, e));
    }
    SumZero(ArrivedList(s.levels, e));
  }

  lemma InitFlow(c: Config, s: State)
    requires Init(c, s)
    ensures Flow(c, s)
  {
    forall e
      ensures FlowOf(c, s, e)
    {
      InitUpstream(c, s, e);
      InitDownstream(c, s, e);
    }
  }

  lemma {:induction false} RunInvariant(c: Config, states: seq<State>, steps: seq<Step>, k: nat)
    requires ConfigOk(c) && Run(c, states, steps) && k < |states|
    ensures Control(states[k]) && Flow(c, states[k])
  {
    if k == 0 {
      InitControl(c, states[0]);
      InitFlow(c, states[0]);
    } else {
      RunInvariant(c, states, steps, k - 1);
      assert Leads(c, states[k - 1], steps[k - 1], states[k]);
      StepKeepsControl(c, states[k - 1], steps[k - 1]);
      StepKeepsFlow(c, states[k - 1], steps[k - 1]);
    }
  }

  lemma ReachableInvariant(c: Config, s: State)
    requires ConfigOk(c) && Reachable(c, s)
    ensures Control(s) && Flow(c, s)
  {
    var states, steps :| Run(c, states, steps) && states[|states| - 1] == s;
    RunInvariant(c, states, steps, |states| - 1);
  }

  /** The byte ranges of a reader's threads make it an initial reader over the parsed lines of its file. */
  lemma SharesStartTheRun(c: Config, text: string, parse: string -> Option<Entry>)
    requires c.threads > 0
    ensures InitReader(c, StartReader(c, ShareList(text, c.threads, c.threads, parse)), FileSplit.Parsed(Lines(text), parse))
  {
    SharesArePushed(text, c.threads, c.threads, parse);
  }

  // ----- end-of-file flags and conservation

  lemma AllSeen(s: State, l: nat, r: nat)
    requires Control(s) && l < LEVELS && r < |s.readers| && s.eofSeen[l] == |s.readers|
    ensures r in s.seen[l]
  {
    if r !in s.seen[l] {
      SeenBounded(s.seen[l] + {r}, |s.readers|);
    }
  }

  lemma {:induction false} NoLines(items: seq<Item>, e: Entry)
    requires forall i :: 0 <= i < |items| && items[i].Line? ==> items[i].entry != e
    ensures LinesOf(items, e) == 0
  {
    if items != [] {
      NoLines(items[1..], e);
    }
  }

  lemma {:induction false} FlattenEmpty(todo: seq<seq<Entry>>)
    requires AllPushed(todo)
    ensures Flatten(todo) == []
  {
    if todo != [] {
      assert !HasLines(todo, 0);
      forall t | 0 <= t < |todo[1..]|
        ensures !HasLines(todo[1..], t)
      {
        assert !HasLines(todo, t + 1);
      }
      FlattenEmpty(todo[1..]);
    }
  }

  lemma ReadersEmpty(s: State, l: nat, e: Entry)
    requires Control(s) && l < LEVELS && s.eofSeen[l] == |s.readers|
    ensures forall r :: 0 <= r < |s.readers| ==> r in s.seen[l] && LinesGone(s.a.items, r)
    ensures Sum(RestList(s.readers, e)) == 0
  {
    forall r | 0 <= r < |s.readers|
      ensures RestList(s.readers, e)[r] == 0 && LinesGone(s.a.items, r) && r in s.seen[l]
    {
      AllSeen(s, l, r);
      assert l < Marked(s.readers[r].parser) && ReaderOk(s.readers[r], r);
      FlattenEmpty(s.readers[r].todo);
    }
    SumZero(RestList(s.readers, e));
  }

  /** Once all markers of one level have been counted, no line of any file is left before the level queues. */
  lemma NothingUpstream(s: State, l: nat, e: Entry)
    requires Control(s) && l < LEVELS && s.eofSeen[l] == |s.readers|
    ensures Upstream(s.readers, s.a.items, s.dispatcher, e) == 0
  {
    ReadersEmpty(s, l, e);
    forall i | 0 <= i < |s.a.items| && s.a.items[i].Line?
      ensures s.a.items[i].entry != e
    {
      assert ItemOk(s.a.items[i], s.readers);
      assert e.reader < |s.readers| ==> LinesGone(s.a.items, e.reader);
    }
    NoLines(s.a.items, e);
  }

  /** A level's entries are in that level or nowhere downstream. */
  lemma OneLevel(s: State, e: Entry)
    requires Control(s)
    ensures Downstream(s.levels, e) == if e.level < LEVELS then Arrived(s.levels[e.level], e) else 0
  {
    forall l | 0 <= l < LEVELS && l != e.level
      ensures ArrivedList(s.levels, e)[l] == 0
    {
      NotHere(s.levels[l], l, e);
    }
    if e.level < LEVELS {
      OnlyOne(ArrivedList(s.levels, e), e.level);
    } else {
      SumZero(ArrivedList(s.levels, e));
    }
  }

  lemma NotHere(v: Level, l: nat, e: Entry)
    requires LevelPure(v, l) && e.level != l
    ensures Arrived(v, e) == 0
  {
    assert e !in v.queue.items;
    forall w | 0 <= w < |v.workers|
      ensures TakenList(v.workers, e)[w] == 0
    {
      assert e !in v.workers[w].taken;
    }
    SumZero(TakenList(v.workers, e));
  }

  lemma OnlyOne(s: seq<nat>, k: nat)
    requires k < |s| && forall i :: 0 <= i < |s| && i != k ==> s[i] == 0
    ensures Sum(s) == s[k]
  {
    SumUpdate(s, k, 0);
    SumZero(s[k := 0]);
  }

  /** eof_posted is set only after every entry of the level, from every file, has entered the level's
      Region B. */
  lemma EofPostedComesLast(c: Config, s: State, l: nat, e: Entry)
    requires ConfigOk(c) && Reachable(c, s) && Shaped(s)
    requires l < LEVELS && s.levels[l].queue.closed && e.level == l
    ensures Arrived(s.levels[l], e) == Input(c, e)
  {
    ReachableInvariant(c, s);
    NothingUpstream(s, l, e);
    OneLevel(s, e);
    assert FlowOf(c, s, e);
  }

  /** When a level's result is published, its workers have taken each line of that level exactly as
      often as it stands in the files, and no other line. */
  lemma WorkersTakeEachOnce(c: Config, s: State, l: nat, e: Entry)
    requires ConfigOk(c) && Reachable(c, s) && Shaped(s) && l < LEVELS && s.levels[l].ready
    ensures Taken(s.levels[l].workers, e) == if e.level == l then Input(c, e) else 0
  {
    ReachableInvariant(c, s);
    var v := s.levels[l];
    assert LevelOk(v, l, s.dispatcher) && LevelPure(v, l);
    assert v.workers[0].stage.Exited?;
    if e.level == l {
      EofPostedComesLast(c, s, l, e);
    } else {
      NotHere(v, l, e);
    }
  }

  /** When the aggregator stops draining Region D, it has scored exactly the lines from priority sources. */
  lemma AggregatorScoresPriority(c: Config, s: State, e: Entry)
    requires ConfigOk(c) && Reachable(c, s) && !s.aggregator.Draining?
    ensures Occ(s.scored, e) == if e.source in c.priority then Input(c, e) else 0
  {
    ReachableInvariant(c, s);
    CountExtremes(ClosedFlags(s.levels));
    assert ClosedFlags(s.levels)[0];
    NothingUpstream(s, 0, e);
    assert FlowOf(c, s, e);
  }

  /** No line beyond those of the files, and none twice, at any time. */
  lemma NeverDoubled(c: Config, s: State, e: Entry)
    requires ConfigOk(c) && Reachable(c, s) && Shaped(s) && e.level < LEVELS
    ensures Taken(s.levels[e.level].workers, e) <= Input(c, e) && Occ(s.scored, e) <= Input(c, e)
  {
    ReachableInvariant(c, s);
    OneLevel(s, e);
    assert FlowOf(c, s, e);
  }

  /** The dispatcher's timeout exit: whenever it could be taken at the head of the loop, because every
      reader has written all its markers, an unfinished level's marker is still in Region A. The exit
      is never clean. */
  lemma TimeoutExitIsNeverClean(c: Config, s: State)
    requires ConfigOk(c) && Reachable(c, s) && s.dispatcher.Fetch? && Shaped(s)
    requires forall l :: 0 <= l < LEVELS ==> s.eofCount[l] >= |s.readers|
    ensures exists l, r :: 0 <= l < LEVELS && !s.levels[l].queue.closed && Eof(r, l) in s.a.items
  {
    ReachableInvariant(c, s);
    CountExtremes(ClosedFlags(s.levels));
    var l: nat :| l < LEVELS && !s.levels[l].queue.closed;
    CountExtremes(MarkedFlags(s.readers, l));
    assert s.eofSeen[l] != |s.readers|;
    var r := Unseen(s.seen[l], |s.readers|);
    assert MarkedFlags(s.readers, l)[r];
    assert Eof(r, l) in s.a.items;
  }

  lemma Unseen(seen: set<nat>, n: nat) returns (r: nat)
    requires |seen| != n && forall k :: k in seen ==> k < n
    ensures r < n && r !in seen
  {
    SeenBounded(seen, n);
    if forall k: nat :: k < n ==> k in seen {
      SubsetSize(Below(n), seen);
    }
    r :| r < n && r !in seen;
  }


  // ----- no party is stuck

  lemma SomePick(s: Side) returns (pick: nat)
    ensures Picks(s, pick)
  {
    pick := 0;
    if s.asleep != {} {
      pick :| pick in s.asleep;
    }
  }

  /** Anyone awake at a buffer can take a step. */
  lemma BufferStep(s: State, r: nat, k: nat) returns (step: Step)
    requires Control(s) && Shaped(s) && r < |s.readers|
    requires k in s.readers[r].buffer.put.awake || k in s.readers[r].buffer.take.awake
    ensures Enabled(s, step) && !Spurious(step)
  {
    var b := s.readers[r].buffer;
    assert ReaderOk(s.readers[r], r);
    if k in b.put.awake {
      assert At(b.put, k);
      var pick := SomePick(b.take);
      step := if |b.items| == b.capacity then ThreadSleeps(r, k) else PushLine(r, k, pick);
    } else {
      assert At(b.take, k);
      var pick := SomePick(b.put);
      step := if b.items != [] then ParserTakes(r, pick) else if b.closed then ParserEnds(r) else ParserSleeps(r);
    }
  }

  lemma RegionAStep(s: State, k: nat) returns (step: Step)
    requires Control(s) && Shaped(s) && (k in s.a.put.awake || k in s.a.take.awake)
    ensures Enabled(s, step) && !Spurious(step)
  {
    if k in s.a.put.awake {
      assert At(s.a.put, k) && ReaderOk(s.readers[k], k);
      var pick := SomePick(s.a.take);
      step := if |s.a.items| == s.a.capacity then PusherSleeps(k) else PushItem(k, pick);
    } else {
      assert At(s.a.take, k);
      var pick := SomePick(s.a.put);
      assert s.a.items != [] ==> ItemOk(s.a.items[0], s.readers);
      step := if s.a.items != [] then Dispatch(pick) else DispatcherSleeps;
    }
  }

  lemma QueueStep(s: State, l: nat, k: nat) returns (step: Step)
    requires Control(s) && Shaped(s) && l < LEVELS
    requires k in s.levels[l].queue.put.awake || k in s.levels[l].queue.take.awake
    ensures Enabled(s, step) && !Spurious(step)
  {
    var q := s.levels[l].queue;
    assert LevelOk(s.levels[l], l, s.dispatcher);
    if k in q.put.awake {
      assert At(q.put, k);
      var pick := SomePick(q.take);
      step := if |q.items| == q.capacity then LevelFull else RouteLevel(pick);
    } else {
      assert At(q.take, k);
      var pick := SomePick(q.put);
      step := if q.items != [] then WorkerTakes(l, k, pick) else if q.closed then WorkerEnds(l, k) else WorkerSleeps(l, k);
    }
  }

  lemma RegionDStep(s: State, k: nat) returns (step: Step)
    requires Control(s) && Shaped(s) && (k in s.d.put.awake || k in s.d.take.awake)
    ensures Enabled(s, step) && !Spurious(step)
  {
    if k in s.d.put.awake {
      assert At(s.d.put, k);
      var pick := SomePick(s.d.take);
      step := if |s.d.items| == s.d.capacity then PriorityFull else RoutePriority(pick);
    } else {
      assert At(s.d.take, k);
      var pick := SomePick(s.d.put);
      step := if s.d.items != [] then Drain(pick) else if s.d.closed then DrainEnds else DrainSleeps;
    }
  }

  predicate Quiet<T>(c: Channel<T>) {
    c.put.awake == {} && c.take.awake == {}
  }

  /** Nobody is awake at any channel. */
  predicate AllQuiet(s: State) {
    && (forall r :: 0 <= r < |s.readers| ==> Quiet(s.readers[r].buffer))
    && Quiet(s.a) && Quiet(s.d)
    && forall l :: 0 <= l < |s.levels| ==> Quiet(s.levels[l].queue)
  }

  lemma AwakeStep(s: State) returns (step: Step)
    requires Control(s) && Shaped(s) && !AllQuiet(s)
    ensures Enabled(s, step) && !Spurious(step)
  {
    if !Quiet(s.a) {
      var k :| k in s.a.put.awake + s.a.take.awake;
      step := RegionAStep(s, k);
    } else if !Quiet(s.d) {
      var k :| k in s.d.put.awake + s.d.take.awake;
      step := RegionDStep(s, k);
    } else if r: nat :| r < |s.readers| && !Quiet(s.readers[r].buffer) {
      var k :| k in s.readers[r].buffer.put.awake + s.readers[r].buffer.take.awake;
      step := BufferStep(s, r, k);
    } else {
      var l: nat :| l < LEVELS && !Quiet(s.levels[l].queue);
      var k :| k in s.levels[l].queue.put.awake + s.levels[l].queue.take.awake;
      step := QueueStep(s, l, k);
    }
  }

  /** With everybody asleep or gone, a reader that still has lines or markers to bring could go on. */
  lemma QuietReader(s: State, r: nat)
    requires Control(s) && AllQuiet(s) && r < |s.readers| && s.a.items == []
    requires s.readers[r].buffer.closed || !AllPushed(s.readers[r].todo)
    ensures s.readers[r].parser.Through?
  {
    var x := s.readers[r];
    assert ReaderOk(x, r);
    OnlyBlocked(s.a, r, 0);
    assert !At(s.a.put, r);
    if x.parser.Popping? {
      assert At(x.buffer.take, 0);
      var t: nat := 0;
      if !AllPushed(x.todo) {
        t :| 0 <= t < |x.todo| && HasLines(x.todo, t);
        assert At(x.buffer.put, t);
      }
      OnlyBlocked(x.buffer, t, 0);
    }
  }

  /** With everybody asleep, the dispatcher cannot be waiting for Region A, a level queue or Region D. */
  lemma QuietDispatcher(s: State)
    requires Control(s) && AllQuiet(s)
    requires forall r :: 0 <= r < |s.readers| ==> s.readers[r].buffer.closed || !AllPushed(s.readers[r].todo)
    ensures s.dispatcher.PostEof? || s.dispatcher.SetDone? || s.dispatcher.Left?
  {
    match s.dispatcher {
      case Fetch => QuietFetch(s);
      case ToLevel(e) => QuietRouting(s);
      case ToPriority(_) =>
        assert At(s.d.put, 0) && At(s.d.take, 0);
        OnlyBlocked(s.d, 0, 0);
      case _ =>
    }
  }

  lemma QuietRouting(s: State)
    requires Control(s) && AllQuiet(s)
    ensures !s.dispatcher.ToLevel?
  {
    if s.dispatcher.ToLevel? {
      var e := s.dispatcher.entry;
      var v := s.levels[e.level];
      assert LevelOk(v, e.level, s.dispatcher);
      assert At(v.queue.put, 0);
      NotFinished(s, e.level);
      assert v.workers[0].stage.Working?;
      assert At(v.queue.take, 0);
      OnlyBlocked(v.queue, 0, 0);
    }
  }

  /** While the dispatcher fetches, some reader's marker is in Region A or still to be written. */
  lemma MarkerMissing(s: State) returns (r: nat, l: nat)
    requires Control(s) && s.dispatcher.Fetch?
    ensures r < |s.readers| && l < LEVELS && (Eof(r, l) in s.a.items || !s.readers[r].parser.Through?)
  {
    CountExtremes(ClosedFlags(s.levels));
    l :| l < LEVELS && !s.levels[l].queue.closed;
    assert s.eofSeen[l] != |s.readers|;
    r := Unseen(s.seen[l], |s.readers|);
    assert s.readers[r].parser.Through? ==> l < Marked(s.readers[r].parser);
  }

  lemma QuietFetch(s: State)
    requires Control(s) && AllQuiet(s)
    requires forall r :: 0 <= r < |s.readers| ==> s.readers[r].buffer.closed || !AllPushed(s.readers[r].todo)
    ensures !s.dispatcher.Fetch?
  {
    if s.dispatcher.Fetch? {
      assert At(s.a.take, 0);
      OnlyBlocked(s.a, 0, 0);
      var r, l := MarkerMissing(s);
      QuietReader(s, r);
      assert false;
    }
  }

  /** After the dispatcher has left, the workers, the analyzers and the aggregator still come to their ends. */
  /** With everybody asleep, the workers of a closed level have stopped working. */
  lemma ClosedQuiet(v: Level, l: nat, d: Dispatcher)
    requires LevelOk(v, l, d) && Quiet(v.queue) && v.queue.closed
    ensures NobodyWorking(v)
  {
    forall w | 0 <= w < |v.workers|
      ensures !v.workers[w].stage.Working?
    {
      OnlyBlocked(v.queue, 0, w);
      assert !At(v.queue.take, w);
    }
  }

  lemma NobodyWorksOn(s: State, l: nat)
    requires Control(s) && AllQuiet(s) && s.dispatcher.Left? && l < LEVELS
    ensures NobodyWorking(s.levels[l])
  {
    CountExtremes(ClosedFlags(s.levels));
    assert ClosedFlags(s.levels)[l];
    ClosedQuiet(s.levels[l], l, s.dispatcher);
  }

  lemma LevelAdvance(s: State, l: nat) returns (step: Step)
    requires Shaped(s) && l < LEVELS && NobodyWorking(s.levels[l]) && !s.levels[l].analyzer.Published?
    ensures Enabled(s, step) && !Spurious(step)
  {
    var v := s.levels[l];
    if w: nat :| w < |v.workers| && v.workers[w].stage.AtBarrier? {
      step := WorkerExits(l, w);
    } else {
      assert EverybodyExited(v);
      step := if v.analyzer.Joining? then Publish(l) else PostReady(l);
    }
  }

  lemma ReportAdvance(s: State) returns (step: Step)
    requires Control(s) && Shaped(s) && AllQuiet(s) && s.dispatcher.Left? && !s.aggregator.Written?
    requires forall l :: 0 <= l < LEVELS ==> s.levels[l].analyzer.Published?
    ensures Enabled(s, step) && !Spurious(step)
  {
    OnlyBlocked(s.d, 0, 0);
    assert !At(s.d.take, 0);
    var l := s.aggregator.level;
    assert LevelOk(s.levels[l], l, s.dispatcher);
    step := if s.aggregator.AwaitReady? then SeeReady else Receive;
  }

  lemma ReadersThrough(s: State, r: nat)
    requires Control(s) && s.dispatcher.Left? && r < |s.readers|
    ensures s.readers[r].parser.Through? && AllPushed(s.readers[r].todo)
  {
    CountExtremes(ClosedFlags(s.levels));
    assert ClosedFlags(s.levels)[LEVELS - 1];
    AllSeen(s, LEVELS - 1, r);
    assert ReaderOk(s.readers[r], r);
  }

  /** When the dispatcher has left and everybody sleeps, the last steps remain. */
  lemma LastStep(s: State) returns (step: Step)
    requires Control(s) && Shaped(s) && AllQuiet(s) && s.dispatcher.Left? && !Final(s)
    ensures Enabled(s, step) && !Spurious(step)
  {
    if l: nat :| l < LEVELS && !s.levels[l].analyzer.Published? {
      NobodyWorksOn(s, l);
      step := LevelAdvance(s, l);
    } else {
      forall r | 0 <= r < |s.readers|
        ensures s.readers[r].parser.Through? && AllPushed(s.readers[r].todo)
      {
        ReadersThrough(s, r);
      }
      assert forall l :: 0 <= l < LEVELS ==> LevelOk(s.levels[l], l, s.dispatcher);
      step := ReportAdvance(s);
    }
  }

  lemma NextStep(s: State) returns (step: Step)
    requires Control(s) && !Final(s)
    ensures Shaped(s) && Enabled(s, step) && !Spurious(step)
  {
    ControlShaped(s);
    if !AllQuiet(s) {
      step := AwakeStep(s);
    } else if r: nat :| r < |s.readers| && !s.readers[r].buffer.closed && AllPushed(s.readers[r].todo) {
      step := EndProducers(r);
    } else {
      QuietDispatcher(s);
      if s.dispatcher.PostEof? {
        step := PostLevel;
      } else if s.dispatcher.SetDone? {
        step := FinishDispatch;
      } else {
        step := LastStep(s);
      }
    }
  }

  /** Deadlock freedom: in every reachable state that is not the end, some party can take a step of its
      own, without any time-out or stray wake-up. */
  lemma NeverStuck(c: Config, s: State) returns (step: Step)
    requires ConfigOk(c) && Reachable(c, s) && !Final(s)
    ensures Shaped(s) && Enabled(s, step) && !Spurious(step)
  {
    ReachableInvariant(c, s);
    step := NextStep(s);
  }
}
