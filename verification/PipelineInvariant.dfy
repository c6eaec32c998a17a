/** What every step of the pipeline keeps: who waits where, markers after lines, and nothing lost. */
module PipelineInvariant {
  import opened Counting
  import opened Channels
  import opened Pipeline

  /** An entry of reader r with a proper level. */
  predicate Own(e: Entry, r: nat) {
    e.reader == r && e.level < LEVELS
  }

  /** The levels whose marker the parser has written. */
  function Marked(p: Parser): nat {
    match p
    case Popping => 0
    case Pushing(_) => 0
    case Marking(l) => l
    case Through => LEVELS
  }

  /** A reader process: its threads wait exactly while they have lines, and the parser writes markers
      only when every line of the file has left the private buffer. */
  ghost predicate ReaderOk(x: Reader, r: nat) {
    && ChannelOk(x.buffer)
    && (forall t: nat :: At(x.buffer.put, t) <==> HasLines(x.todo, t))
    && (forall k: nat :: At(x.buffer.take, k) <==> k == 0 && x.parser.Popping?)
    && (x.buffer.closed ==> AllPushed(x.todo))
    && (x.parser.Marking? || x.parser.Through? ==> x.buffer.closed && x.buffer.items == [])
    && (x.parser.Marking? ==> x.parser.level < LEVELS)
    && (x.parser.Pushing? ==> Own(x.parser.entry, r))
    && (forall i :: 0 <= i < |x.buffer.items| ==> Own(x.buffer.items[i], r))
    && forall t, i :: 0 <= t < |x.todo| && 0 <= i < |x.todo[t]| ==> Own(x.todo[t][i], r)
  }

  ghost predicate RegionAOk(a: Channel<Item>, readers: seq<Reader>, fetching: bool) {
    && ChannelOk(a) && !a.closed
    && (forall r: nat :: At(a.put, r) <==> r < |readers| && Pushes(readers[r].parser))
    && forall k: nat :: At(a.take, k) <==> k == 0 && fetching
  }

  /** No two markers are alike, and a reader's lines come before its markers. */
  ghost predicate Ordered(items: seq<Item>) {
    forall i, j :: 0 <= i < j < |items| && items[i].Eof? ==>
      items[i] != items[j] && (items[j].Line? ==> items[j].entry.reader != items[i].reader)
  }

  ghost predicate ItemsOk(items: seq<Item>, readers: seq<Reader>) {
    forall i :: 0 <= i < |items| ==> ItemOk(items[i], readers)
  }

  ghost predicate ItemOk(x: Item, readers: seq<Reader>) {
    match x
    case Line(e) => e.reader < |readers| && e.level < LEVELS
    case Eof(r, l) => r < |readers| && l < LEVELS && l < Marked(readers[r].parser)
  }

  /** No line of this reader is left in Region A. */
  ghost predicate LinesGone(items: seq<Item>, r: nat) {
    forall i :: 0 <= i < |items| && items[i].Line? ==> items[i].entry.reader != r
  }

  /** A counted marker is out of Region A, and so are all lines of its reader. */
  ghost predicate Gone(items: seq<Item>, readers: seq<Reader>, l: nat, r: nat) {
    r < |readers| && l < Marked(readers[r].parser) && Eof(r, l) !in items && LinesGone(items, r)
  }

  ghost predicate SeenOk(items: seq<Item>, readers: seq<Reader>, seen: seq<set<nat>>) {
    |seen| == LEVELS && forall l: nat, r: nat :: l < LEVELS && r in seen[l] ==> Gone(items, readers, l, r)
  }

  /** No marker is lost. */
  ghost predicate MarkersKept(items: seq<Item>, readers: seq<Reader>, seen: seq<set<nat>>) {
    && |seen| == LEVELS
    && forall r: nat, l: nat :: r < |readers| && l < Marked(readers[r].parser) && l < LEVELS ==>
         r in seen[l] || Eof(r, l) in items
  }

  function ClosedFlags(levels: seq<Level>): (flags: seq<bool>)
    ensures |flags| == |levels|
  {
    seq(|levels|, l requires 0 <= l < |levels| => levels[l].queue.closed)
  }

  ghost predicate CountsOk(eofSeen: seq<nat>, seen: seq<set<nat>>, n: nat) {
    && |eofSeen| == |seen| == LEVELS
    && forall l :: 0 <= l < LEVELS ==> eofSeen[l] == |seen[l]| && forall r: nat :: r in seen[l] ==> r < n
  }

  ghost predicate DispatcherOk(d: Dispatcher, eofSeen: seq<nat>, seen: seq<set<nat>>, finished: nat, levels: seq<Level>, n: nat) {
    && |levels| == |eofSeen| == |seen| == LEVELS
    && finished == Count(ClosedFlags(levels))
    && (d.SetDone? || d.Left? <==> finished == LEVELS)
    && (forall l :: 0 <= l < LEVELS ==>
          (eofSeen[l] == n <==> levels[l].queue.closed || d == PostEof(l)) && !(levels[l].queue.closed && d == PostEof(l)))
    && (d.PostEof? ==> d.level < LEVELS)
    && (d.ToLevel? ==> d.entry.level < LEVELS && d.entry.reader < n && forall l :: 0 <= l < LEVELS ==> d.entry.reader !in seen[l])
    && (d.ToPriority? ==> d.entry.level < LEVELS)
  }

  ghost predicate LevelOk(v: Level, l: nat, d: Dispatcher) {
    && ChannelOk(v.queue) && v.workers != []
    && (forall k: nat :: At(v.queue.put, k) <==> k == 0 && d.ToLevel? && d.entry.level == l)
    && (forall w: nat :: At(v.queue.take, w) <==> w < |v.workers| && v.workers[w].stage.Working?)
    && (forall w :: 0 <= w < |v.workers| && !v.workers[w].stage.Working? ==> v.queue.closed && v.queue.items == [])
    && (forall w :: 0 <= w < |v.workers| && v.workers[w].stage.Exited? ==> NobodyWorking(v))
    && (v.ready <==> !v.analyzer.Joining?)
    && (v.ready ==> EverybodyExited(v))
  }

  /** A level's queue and its workers hold entries of that level only. */
  ghost predicate LevelPure(v: Level, l: nat) {
    && (forall i :: 0 <= i < |v.queue.items| ==> v.queue.items[i].level == l)
    && forall w, i :: 0 <= w < |v.workers| && 0 <= i < |v.workers[w].taken| ==> v.workers[w].taken[i].level == l
  }

  ghost predicate RegionDOk(d: Channel<Entry>, p: Dispatcher, g: Aggregator) {
    && ChannelOk(d) && (d.closed <==> p.Left?)
    && (forall k: nat :: At(d.put, k) <==> k == 0 && p.ToPriority?)
    && (forall k: nat :: At(d.take, k) <==> k == 0 && g.Draining?)
    && (!g.Draining? ==> d.closed && d.items == [])
  }

  /** The levels whose result the aggregator has received. */
  function Received(g: Aggregator): nat {
    match g
    case Draining => 0
    case AwaitReady(l) => l
    case AwaitSemaphore(l) => l
    case Written => LEVELS
  }

  ghost predicate AggregatorOk(g: Aggregator, asleep: bool, levels: seq<Level>) {
    && |levels| == LEVELS
    && (g.AwaitReady? || g.AwaitSemaphore? ==> g.level < LEVELS)
    && (asleep ==> g.AwaitReady? && !levels[g.level].ready)
    && (g.AwaitSemaphore? ==> levels[g.level].ready)
    && forall l :: 0 <= l < LEVELS ==>
         levels[l].semaphore + (if l < Received(g) then 1 else 0) == if levels[l].analyzer.Published? then 1 else 0
  }

  /** eof_count_per_level counts the readers that have written the marker of the level. */
  function MarkedFlags(readers: seq<Reader>, l: nat): (flags: seq<bool>)
    ensures |flags| == |readers|
  {
    seq(|readers|, r requires 0 <= r < |readers| => l < Marked(readers[r].parser))
  }

  ghost predicate EofCountOk(eofCount: seq<nat>, readers: seq<Reader>) {
    && |eofCount| == LEVELS
    && forall l :: 0 <= l < LEVELS ==> eofCount[l] == Count(MarkedFlags(readers, l))
  }

  /** Everything but the whereabouts of the entries. */
  ghost predicate Control(s: State) {
    && s.readers != []
    && (forall r :: 0 <= r < |s.readers| ==> ReaderOk(s.readers[r], r))
    && RegionAOk(s.a, s.readers, s.dispatcher.Fetch?)
    && ItemsOk(s.a.items, s.readers) && Ordered(s.a.items)
    && SeenOk(s.a.items, s.readers, s.seen) && MarkersKept(s.a.items, s.readers, s.seen)
    && CountsOk(s.eofSeen, s.seen, |s.readers|)
    && EofCountOk(s.eofCount, s.readers)
    && DispatcherOk(s.dispatcher, s.eofSeen, s.seen, s.finished, s.levels, |s.readers|)
    && (forall l :: 0 <= l < LEVELS ==> LevelOk(s.levels[l], l, s.dispatcher) && LevelPure(s.levels[l], l))
    && RegionDOk(s.d, s.dispatcher, s.aggregator)
    && AggregatorOk(s.aggregator, s.asleep, s.levels)
  }

  lemma ControlShaped(s: State)
    requires Control(s)
    ensures Shaped(s)
  {
  }

  /** Steps that only touch one reader and keep its parser. */
  lemma ReaderStep(s: State, r: nat, x: Reader)
    requires Control(s) && r < |s.readers| && ReaderOk(x, r) && x.parser == s.readers[r].parser
    ensures Control(SetReader(s, r, x))
  {
    SameMarks(s, s.readers[r := x]);
    assert RegionAOk(s.a, s.readers[r := x], s.dispatcher.Fetch?);
  }

  lemma PushedTodo(x: Reader, r: nat, t: nat, pick: nat)
    requires ReaderOk(x, r) && HasLines(x.todo, t)
    ensures forall u, i :: 0 <= u < |x.todo| && 0 <= i < |AfterPush(x, t, pick).todo[u]| ==>
              Own(AfterPush(x, t, pick).todo[u][i], r)
    ensures forall u: nat :: u != t ==> (HasLines(AfterPush(x, t, pick).todo, u) <==> HasLines(x.todo, u))
  {
    forall u, i | 0 <= u < |x.todo| && 0 <= i < |AfterPush(x, t, pick).todo[u]|
      ensures Own(AfterPush(x, t, pick).todo[u][i], r)
    {
      if u == t {
        assert Own(x.todo[t][i + 1], r);
      } else {
        assert Own(x.todo[u][i], r);
      }
    }
  }

  lemma PushedBuffer(x: Reader, t: nat, pick: nat)
    requires ChannelOk(x.buffer) && HasLines(x.todo, t) && CanPut(x.buffer, t, pick)
    ensures var x' := AfterPush(x, t, pick);
            && ChannelOk(x'.buffer) && (forall k :: At(x'.buffer.take, k) <==> At(x.buffer.take, k))
            && forall k :: At(x'.buffer.put, k) <==> At(x.buffer.put, k) && (k != t || HasLines(x'.todo, t))
  {
    var b := Put(x.buffer, t, x.todo[t][0], pick);
    PutOk(x.buffer, t, x.todo[t][0], pick);
    if |x.todo[t]| > 1 {
      ArrivePutOk(b, t);
      assert At(x.buffer.put, t);
    }
  }

  lemma PushLineOk(x: Reader, r: nat, t: nat, pick: nat)
    requires ReaderOk(x, r) && HasLines(x.todo, t) && CanPut(x.buffer, t, pick)
    ensures ReaderOk(AfterPush(x, t, pick), r)
  {
    PushedBuffer(x, t, pick);
    assert Own(x.todo[t][0], r);
    PushedTodo(x, r, t, pick);
  }

  /** Steps inside one reader: pushing a line, closing the buffer, falling asleep, waking. */
  lemma KeepPushLine(s: State, r: nat, t: nat, pick: nat)
    requires Control(s) && r < |s.readers| && HasLines(s.readers[r].todo, t) && CanPut(s.readers[r].buffer, t, pick)
    ensures Control(SetReader(s, r, AfterPush(s.readers[r], t, pick)))
  {
    PushLineOk(s.readers[r], r, t, pick);
    ReaderStep(s, r, AfterPush(s.readers[r], t, pick));
  }

  /** A reader whose buffer changes sleepers only stays in order. */
  lemma BufferStep(s: State, r: nat, b: Channel<Entry>)
    requires Control(s) && r < |s.readers| && ChannelOk(b)
    requires b.items == s.readers[r].buffer.items
    requires b.closed == (s.readers[r].buffer.closed || AllPushed(s.readers[r].todo)) || b.closed == s.readers[r].buffer.closed
    requires forall k :: At(b.put, k) <==> At(s.readers[r].buffer.put, k)
    requires forall k :: At(b.take, k) <==> At(s.readers[r].buffer.take, k)
    ensures Control(SetReader(s, r, s.readers[r].(buffer := b)))
  {
    assert ReaderOk(s.readers[r], r);
    ReaderStep(s, r, s.readers[r].(buffer := b));
  }

  lemma KeepThreadSleeps(s: State, r: nat, t: nat)
    requires Control(s) && r < |s.readers| && MustSleepPut(s.readers[r].buffer, t)
    ensures Control(SetReader(s, r, s.readers[r].(buffer := SleepPut(s.readers[r].buffer, t))))
  {
    SleepPutOk(s.readers[r].buffer, t);
    BufferStep(s, r, SleepPut(s.readers[r].buffer, t));
  }

  lemma KeepEndProducers(s: State, r: nat)
    requires Control(s) && r < |s.readers| && AllPushed(s.readers[r].todo)
    ensures Control(SetReader(s, r, s.readers[r].(buffer := Close(s.readers[r].buffer))))
  {
    CloseOk(s.readers[r].buffer);
    BufferStep(s, r, Close(s.readers[r].buffer));
  }

  lemma KeepParserSleeps(s: State, r: nat)
    requires Control(s) && r < |s.readers| && MustSleepTake(s.readers[r].buffer, 0)
    ensures Control(SetReader(s, r, s.readers[r].(buffer := SleepTake(s.readers[r].buffer, 0))))
  {
    SleepTakeOk(s.readers[r].buffer, 0);
    BufferStep(s, r, SleepTake(s.readers[r].buffer, 0));
  }

  lemma KeepNudgeReader(s: State, r: nat, put: bool, k: nat)
    requires Control(s) && r < |s.readers| && CanNudge(s.readers[r].buffer, put, k)
    ensures Control(SetReader(s, r, s.readers[r].(buffer := Nudged(s.readers[r].buffer, put, k))))
  {
    NudgeOk(s.readers[r].buffer, put, k);
    BufferStep(s, r, Nudged(s.readers[r].buffer, put, k));
  }

  /** A parser that leaves Popping: Region A gains a party at its push. */
  lemma ParserArrives(s: State, r: nat, x: Reader)
    requires Control(s) && r < |s.readers| && ReaderOk(x, r)
    requires s.readers[r].parser.Popping? && (x.parser.Pushing? || x.parser == Marking(0))
    ensures Control(SetReader(s, r, x).(a := ArrivePut(s.a, r)))
  {
    var readers := s.readers[r := x];
    ArrivePutOk(s.a, r);
    SameMarks(s, readers);
    assert RegionAOk(ArrivePut(s.a, r), readers, s.dispatcher.Fetch?);
  }

  /** Everything about markers depends only on how many each parser has written. */
  lemma SameMarks(s: State, readers: seq<Reader>)
    requires Control(s) && |readers| == |s.readers|
    requires forall q :: 0 <= q < |readers| ==> Marked(readers[q].parser) == Marked(s.readers[q].parser)
    ensures ItemsOk(s.a.items, readers)
    ensures SeenOk(s.a.items, readers, s.seen) && MarkersKept(s.a.items, readers, s.seen)
    ensures EofCountOk(s.eofCount, readers)
  {
    forall l | 0 <= l < LEVELS
      ensures MarkedFlags(readers, l) == MarkedFlags(s.readers, l)
    {
    }
    forall i | 0 <= i < |s.a.items|
      ensures ItemOk(s.a.items[i], readers)
    {
      assert ItemOk(s.a.items[i], s.readers);
    }
  }

  lemma KeepParserTakes(s: State, r: nat, pick: nat)
    requires Control(s) && r < |s.readers| && CanTake(s.readers[r].buffer, 0, pick)
    ensures var x := s.readers[r];
            Control(SetReader(s, r, x.(parser := Pushing(x.buffer.items[0]), buffer := Take(x.buffer, 0, pick))).(
                      a := ArrivePut(s.a, r)))
  {
    var x := s.readers[r];
    assert ReaderOk(x, r);
    TakeOk(x.buffer, 0, pick);
    assert At(x.buffer.take, 0);
    ParserArrives(s, r, x.(parser := Pushing(x.buffer.items[0]), buffer := Take(x.buffer, 0, pick)));
  }

  lemma KeepParserEnds(s: State, r: nat)
    requires Control(s) && r < |s.readers| && AtEnd(s.readers[r].buffer, 0)
    ensures var x := s.readers[r];
            Control(SetReader(s, r, x.(parser := Marking(0), buffer := Leave(x.buffer, 0))).(a := ArrivePut(s.a, r)))
  {
    var x := s.readers[r];
    assert ReaderOk(x, r);
    LeaveOk(x.buffer, 0);
    assert At(x.buffer.take, 0);
    ParserArrives(s, r, x.(parser := Marking(0), buffer := Leave(x.buffer, 0)));
  }

  /** Appending the item that a pushing parser writes keeps the order of markers and lines. */
  lemma AppendItem(items: seq<Item>, readers: seq<Reader>, seen: seq<set<nat>>, r: nat)
    requires ItemsOk(items, readers) && Ordered(items) && SeenOk(items, readers, seen) && MarkersKept(items, readers, seen)
    requires r < |readers| && ReaderOk(readers[r], r) && Pushes(readers[r].parser)
    ensures var x := readers[r];
            var items' := items + [NextItem(x.parser, r)];
            var readers' := readers[r := AfterItem(x)];
            ItemsOk(items', readers') && Ordered(items') && SeenOk(items', readers', seen)
  {
    var x := readers[r];
    var next := NextItem(x.parser, r);
    var items' := items + [next];
    var readers' := readers[r := AfterItem(x)];
    forall i | 0 <= i < |items'|
      ensures ItemOk(items'[i], readers')
    {
      if i < |items| {
        assert ItemOk(items[i], readers);
      }
    }
    forall i | 0 <= i < |items| && items[i].Eof?
      ensures items[i] != next && (next.Line? ==> next.entry.reader != items[i].reader)
    {
      assert ItemOk(items[i], readers);
    }
    forall l: nat, q: nat | l < LEVELS && q in seen[l]
      ensures Gone(items', readers', l, q)
    {
      assert Gone(items, readers, l, q);
    }
  }

  lemma AppendKeepsMarkers(items: seq<Item>, readers: seq<Reader>, seen: seq<set<nat>>, r: nat)
    requires MarkersKept(items, readers, seen)
    requires r < |readers| && ReaderOk(readers[r], r) && Pushes(readers[r].parser)
    ensures MarkersKept(items + [NextItem(readers[r].parser, r)], readers[r := AfterItem(readers[r])], seen)
  {
    var x := readers[r];
    var items' := items + [NextItem(x.parser, r)];
    var readers' := readers[r := AfterItem(x)];
    forall q: nat, l: nat | q < |readers'| && l < Marked(readers'[q].parser) && l < LEVELS
      ensures q in seen[l] || Eof(q, l) in items'
    {
      if q == r && l >= Marked(x.parser) {
        assert items'[|items|] == Eof(r, l);
      } else {
        assert q in seen[l] || Eof(q, l) in items;
      }
    }
  }

  /** eof_count_per_level after an item has been written. */
  function Counted(eofCount: seq<nat>, p: Parser): seq<nat>
    requires p.Marking? ==> p.level < |eofCount|
  {
    if p.Marking? then eofCount[p.level := eofCount[p.level] + 1] else eofCount
  }

  lemma CountedOk(eofCount: seq<nat>, readers: seq<Reader>, r: nat)
    requires EofCountOk(eofCount, readers)
    requires r < |readers| && ReaderOk(readers[r], r) && Pushes(readers[r].parser)
    ensures EofCountOk(Counted(eofCount, readers[r].parser), readers[r := AfterItem(readers[r])])
  {
    var x := readers[r];
    var readers' := readers[r := AfterItem(x)];
    forall l | 0 <= l < LEVELS
      ensures Count(MarkedFlags(readers', l)) == Counted(eofCount, x.parser)[l]
    {
      assert MarkedFlags(readers', l) == MarkedFlags(readers, l)[r := l < Marked(AfterItem(x).parser)];
      CountUpdate(MarkedFlags(readers, l), r, l < Marked(AfterItem(x).parser));
    }
  }

  lemma AfterItemOk(x: Reader, r: nat)
    requires ReaderOk(x, r) && Pushes(x.parser)
    ensures ReaderOk(AfterItem(x), r)
  {
    if x.parser.Pushing? {
      ArriveTakeOk(x.buffer, 0);
    }
  }

  /** Region A after parser r has written an item, with the parser back in line when it has another. */
  function RegionAfter(a: Channel<Item>, x: Reader, r: nat, pick: nat): Channel<Item>
    requires Pushes(x.parser)
  {
    var b := Put(a, r, NextItem(x.parser, r), pick);
    if Pushes(AfterItem(x).parser) then ArrivePut(b, r) else b
  }

  lemma RegionAfterOk(s: State, r: nat, pick: nat)
    requires Control(s) && r < |s.readers| && Pushes(s.readers[r].parser) && CanPut(s.a, r, pick)
    ensures RegionAOk(RegionAfter(s.a, s.readers[r], r, pick), s.readers[r := AfterItem(s.readers[r])], s.dispatcher.Fetch?)
  {
    var x := s.readers[r];
    var b := Put(s.a, r, NextItem(x.parser, r), pick);
    PutOk(s.a, r, NextItem(x.parser, r), pick);
    if Pushes(AfterItem(x).parser) {
      ArrivePutOk(b, r);
    }
  }

  lemma KeepPushItem(s: State, r: nat, pick: nat)
    requires Control(s) && r < |s.readers| && Pushes(s.readers[r].parser) && CanPut(s.a, r, pick)
    ensures s.readers[r].parser.Marking? ==> s.readers[r].parser.level < |s.eofCount|
    ensures var x := s.readers[r];
            Control(SetReader(s, r, AfterItem(x)).(a := RegionAfter(s.a, x, r, pick), eofCount := Counted(s.eofCount, x.parser)))
  {
    var x := s.readers[r];
    assert ReaderOk(x, r);
    RegionAfterOk(s, r, pick);
    AppendItem(s.a.items, s.readers, s.seen, r);
    AppendKeepsMarkers(s.a.items, s.readers, s.seen, r);
    CountedOk(s.eofCount, s.readers, r);
    AfterItemOk(x, r);
  }

  /** A step that only moves sleepers of Region A. */
  lemma RegionAStep(s: State, a: Channel<Item>)
    requires Control(s) && ChannelOk(a) && a.items == s.a.items && a.closed == s.a.closed
    requires forall k :: At(a.put, k) <==> At(s.a.put, k)
    requires forall k :: At(a.take, k) <==> At(s.a.take, k)
    ensures Control(s.(a := a))
  {
  }

  lemma KeepRegionASleepers(s: State, k: nat, put: bool)
    requires Control(s)
    ensures MustSleepPut(s.a, k) ==> Control(s.(a := SleepPut(s.a, k)))
    ensures MustSleepTake(s.a, k) ==> Control(s.(a := SleepTake(s.a, k)))
    ensures CanNudge(s.a, put, k) ==> Control(s.(a := Nudged(s.a, put, k)))
  {
    if MustSleepPut(s.a, k) {
      SleepPutOk(s.a, k);
      RegionAStep(s, SleepPut(s.a, k));
    }
    if MustSleepTake(s.a, k) {
      SleepTakeOk(s.a, k);
      RegionAStep(s, SleepTake(s.a, k));
    }
    if CanNudge(s.a, put, k) {
      NudgeOk(s.a, put, k);
      RegionAStep(s, Nudged(s.a, put, k));
    }
  }

  /** Removing the first item keeps the order of the rest. */
  lemma TailOk(items: seq<Item>, readers: seq<Reader>, seen: seq<set<nat>>)
    requires ItemsOk(items, readers) && Ordered(items) && SeenOk(items, readers, seen) && items != []
    ensures ItemsOk(items[1..], readers) && Ordered(items[1..]) && SeenOk(items[1..], readers, seen)
  {
    forall l: nat, r: nat | l < LEVELS && r in seen[l]
      ensures Gone(items[1..], readers, l, r)
    {
      assert Gone(items, readers, l, r);
    }
  }

  lemma TailKeepsMarkers(items: seq<Item>, readers: seq<Reader>, seen: seq<set<nat>>)
    requires MarkersKept(items, readers, seen) && items != []
    ensures items[0].Line? ==> MarkersKept(items[1..], readers, seen)
    ensures items[0].Eof? && items[0].level < LEVELS ==>
              MarkersKept(items[1..], readers, seen[items[0].level := seen[items[0].level] + {items[0].reader}])
  {
    var tail := items[1..];
    forall r: nat, l: nat | r < |readers| && l < Marked(readers[r].parser) && l < LEVELS
      ensures r in seen[l] || Eof(r, l) == items[0] || Eof(r, l) in tail
    {
      if r !in seen[l] {
        var i :| 0 <= i < |items| && items[i] == Eof(r, l);
        assert i > 0 ==> tail[i - 1] == Eof(r, l);
      }
    }
  }

  lemma CountMarker(items: seq<Item>, readers: seq<Reader>, seen: seq<set<nat>>)
    requires ItemsOk(items, readers) && Ordered(items) && SeenOk(items, readers, seen)
    requires items != [] && items[0].Eof? && items[0].level < LEVELS
    ensures items[0].reader !in seen[items[0].level]
    ensures SeenOk(items[1..], readers, seen[items[0].level := seen[items[0].level] + {items[0].reader}])
  {
    TailOk(items, readers, seen);
    var x := items[0];
    var tail := items[1..];
    assert ItemOk(x, readers);
    assert x.reader !in seen[x.level] by {
      assert x.reader in seen[x.level] ==> Gone(items, readers, x.level, x.reader);
    }
    assert Gone(tail, readers, x.level, x.reader) by {
      assert forall i :: 0 <= i < |tail| ==> tail[i] == items[i + 1];
    }
    var more := seen[x.level := seen[x.level] + {x.reader}];
    forall l: nat, r: nat | l < LEVELS && r in more[l]
      ensures Gone(tail, readers, l, r)
    {
      assert (l == x.level && r == x.reader) || r in seen[l];
    }
  }

  lemma SeenBounded(seen: set<nat>, n: nat)
    requires forall r :: r in seen ==> r < n
    ensures |seen| <= n
  {
    SubsetSize(seen, Below(n));
  }

  /** The dispatcher holds an entry for level l. */
  predicate Routing(d: Dispatcher, l: nat) {
    d.ToLevel? && d.entry.level == l
  }

  ghost predicate LevelsOk(levels: seq<Level>, d: Dispatcher) {
    |levels| == LEVELS && forall l :: 0 <= l < LEVELS ==> LevelOk(levels[l], l, d) && LevelPure(levels[l], l)
  }

  /** One level changes, and the dispatcher holds the same as before for all others. */
  lemma LevelsStep(levels: seq<Level>, l: nat, v: Level, d: Dispatcher, d': Dispatcher)
    requires LevelsOk(levels, d) && l < LEVELS && LevelOk(v, l, d') && LevelPure(v, l)
    requires forall k :: 0 <= k < LEVELS && k != l ==> Routing(d, k) == Routing(d', k)
    ensures LevelsOk(levels[l := v], d')
    ensures v.queue.closed == levels[l].queue.closed ==> ClosedFlags(levels[l := v]) == ClosedFlags(levels)
  {
    var next := levels[l := v];
    forall k | 0 <= k < LEVELS
      ensures LevelOk(next[k], k, d') && LevelPure(next[k], k)
    {
      assert LevelOk(levels[k], k, d) && LevelPure(levels[k], k);
      assert k != l ==> Routing(d, k) == Routing(d', k);
    }
    assert v.queue.closed == levels[l].queue.closed ==> ClosedFlags(levels[l := v]) == ClosedFlags(levels);
  }

  /** The aggregator does not depend on the queues. */
  lemma AggregatorQueue(g: Aggregator, asleep: bool, levels: seq<Level>, l: nat, q: Channel<Entry>)
    requires AggregatorOk(g, asleep, levels) && l < LEVELS
    ensures AggregatorOk(g, asleep, levels[l := levels[l].(queue := q)])
  {
  }

  /** The parts of the invariant that a step of the dispatcher can touch, put together again. */
  lemma Rerouted(s: State, s': State)
    requires Control(s) && s'.readers == s.readers && s'.a.items == s.a.items
    requires s'.seen == s.seen && s'.eofSeen == s.eofSeen && s'.eofCount == s.eofCount
    requires RegionAOk(s'.a, s'.readers, s'.dispatcher.Fetch?) && LevelsOk(s'.levels, s'.dispatcher)
    requires DispatcherOk(s'.dispatcher, s'.eofSeen, s'.seen, s'.finished, s'.levels, |s'.readers|)
    requires RegionDOk(s'.d, s'.dispatcher, s'.aggregator) && AggregatorOk(s'.aggregator, s'.asleep, s'.levels)
    ensures Control(s')
  {
  }

  /** A line taken from Region A goes to the queue of its level. */
  lemma LineLevels(s: State, e: Entry)
    requires Control(s) && s.dispatcher.Fetch? && e.level < LEVELS
    ensures var levels := s.levels[e.level := s.levels[e.level].(queue := ArrivePut(s.levels[e.level].queue, 0))];
            LevelsOk(levels, ToLevel(e)) && ClosedFlags(levels) == ClosedFlags(s.levels)
  {
    var v := s.levels[e.level];
    assert LevelOk(v, e.level, s.dispatcher) && LevelPure(v, e.level);
    ArrivePutOk(v.queue, 0);
    LevelsStep(s.levels, e.level, v.(queue := ArrivePut(v.queue, 0)), s.dispatcher, ToLevel(e));
  }

  /** A reader whose line is still in Region A has no marker counted yet. */
  lemma LineDispatcher(s: State, e: Entry)
    requires Control(s) && s.dispatcher.Fetch? && s.a.items != [] && s.a.items[0] == Line(e)
    ensures e.level < LEVELS
    ensures DispatcherOk(ToLevel(e), s.eofSeen, s.seen, s.finished,
                         s.levels[e.level := s.levels[e.level].(queue := ArrivePut(s.levels[e.level].queue, 0))], |s.readers|)
  {
    assert ItemOk(s.a.items[0], s.readers);
    LineLevels(s, e);
    forall l | 0 <= l < LEVELS
      ensures e.reader !in s.seen[l]
    {
      assert e.reader in s.seen[l] ==> Gone(s.a.items, s.readers, l, e.reader);
    }
  }

  lemma KeepDispatchLine(s: State, pick: nat, e: Entry)
    requires Control(s) && CanTake(s.a, 0, pick) && s.a.items[0] == Line(e)
    ensures e.level < LEVELS && Control(Routed(s.(a := Take(s.a, 0, pick)), Line(e)))
  {
    assert At(s.a.take, 0);
    TakeOk(s.a, 0, pick);
    TailOk(s.a.items, s.readers, s.seen);
    TailKeepsMarkers(s.a.items, s.readers, s.seen);
    LineDispatcher(s, e);
    LineLevels(s, e);
    AggregatorQueue(s.aggregator, s.asleep, s.levels, e.level, ArrivePut(s.levels[e.level].queue, 0));
  }

  /** The dispatcher goes back to Region A from a pause in which it was not there. */
  lemma FetchAgainOk(a: Channel<Item>, readers: seq<Reader>)
    requires RegionAOk(a, readers, false)
    ensures RegionAOk(ArriveTake(a, 0), readers, true)
  {
    ArriveTakeOk(a, 0);
  }

  /** Counting a marker: the tables after eof_seen and seen have grown. */
  lemma CountedMarker(s: State, r: nat, l: nat)
    requires Control(s) && s.dispatcher.Fetch? && s.a.items != [] && s.a.items[0] == Eof(r, l)
    ensures r < |s.readers| && l < LEVELS && !(s.levels[l].queue.closed)
    ensures CountsOk(s.eofSeen[l := s.eofSeen[l] + 1], s.seen[l := s.seen[l] + {r}], |s.readers|)
    ensures s.eofSeen[l] < |s.readers|
    ensures SeenOk(s.a.items[1..], s.readers, s.seen[l := s.seen[l] + {r}])
    ensures MarkersKept(s.a.items[1..], s.readers, s.seen[l := s.seen[l] + {r}])
    ensures ItemsOk(s.a.items[1..], s.readers) && Ordered(s.a.items[1..])
  {
    assert ItemOk(s.a.items[0], s.readers);
    CountMarker(s.a.items, s.readers, s.seen);
    TailOk(s.a.items, s.readers, s.seen);
    TailKeepsMarkers(s.a.items, s.readers, s.seen);
    SeenBounded(s.seen[l] + {r}, |s.readers|);
  }

  lemma KeepDispatchEof(s: State, pick: nat, r: nat, l: nat)
    requires Control(s) && CanTake(s.a, 0, pick) && s.a.items[0] == Eof(r, l)
    ensures l < LEVELS && Control(Routed(s.(a := Take(s.a, 0, pick)), Eof(r, l)))
  {
    assert ItemOk(s.a.items[0], s.readers);
    assert At(s.a.take, 0);
    var a := Take(s.a, 0, pick);
    TakeOk(s.a, 0, pick);
    CountedMarker(s, r, l);
    assert RegionAOk(a, s.readers, false);
    FetchAgainOk(a, s.readers);
    DispatchedEof(s, r, l);
    var s' := Routed(s.(a := a), Eof(r, l));
    assert s'.dispatcher == if s.eofSeen[l] + 1 == |s.readers| then PostEof(l) else Fetch;
    assert s'.a == if s'.dispatcher.Fetch? then ArriveTake(a, 0) else a;
  }

  lemma DispatchedEof(s: State, r: nat, l: nat)
    requires Control(s) && s.dispatcher.Fetch? && l < LEVELS && r < |s.readers|
    requires !s.levels[l].queue.closed && s.eofSeen[l] < |s.readers|
    ensures var n := |s.readers|;
            var d := if s.eofSeen[l] + 1 == n then PostEof(l) else Fetch;
            && DispatcherOk(d, s.eofSeen[l := s.eofSeen[l] + 1], s.seen[l := s.seen[l] + {r}], s.finished, s.levels, n)
            && LevelsOk(s.levels, d) && RegionDOk(s.d, d, s.aggregator)
  {
    var d := if s.eofSeen[l] + 1 == |s.readers| then PostEof(l) else Fetch;
    LevelsStep(s.levels, l, s.levels[l], s.dispatcher, d);
    assert s.levels[l := s.levels[l]] == s.levels;
    assert Count(ClosedFlags(s.levels)) != LEVELS;
  }

  /** The queue of one level, written by the dispatcher, loses its putter. */
  lemma RoutedLevels(s: State, pick: nat, d: Dispatcher)
    requires Control(s) && s.dispatcher.ToLevel? && s.dispatcher.entry.level < LEVELS && !d.ToLevel?
    requires CanPut(s.levels[s.dispatcher.entry.level].queue, 0, pick)
    ensures var e := s.dispatcher.entry;
            var v := s.levels[e.level];
            var levels := s.levels[e.level := v.(queue := Put(v.queue, 0, e, pick))];
            LevelsOk(levels, d) && ClosedFlags(levels) == ClosedFlags(s.levels)
  {
    var e := s.dispatcher.entry;
    var v := s.levels[e.level];
    assert LevelOk(v, e.level, s.dispatcher) && LevelPure(v, e.level);
    PutOk(v.queue, 0, e, pick);
    NotFinished(s, e.level);
    LevelsStep(s.levels, e.level, v.(queue := Put(v.queue, 0, e, pick)), s.dispatcher, d);
  }

  /** A level whose entry the dispatcher still holds is not closed: its reader's markers are behind it. */
  lemma NotFinished(s: State, l: nat)
    requires Control(s) && s.dispatcher.ToLevel? && l < LEVELS
    ensures !s.levels[l].queue.closed
  {
    var n := |s.readers|;
    var r := s.dispatcher.entry.reader;
    assert r !in s.seen[l];
    SeenBounded(s.seen[l] + {r}, n);
    assert s.eofSeen[l] == |s.seen[l]| < n;
  }

  lemma RoutedDispatcher(s: State, d: Dispatcher, l: nat, q: Channel<Entry>)
    requires Control(s) && s.dispatcher.ToLevel? && l < LEVELS && q.closed == s.levels[l].queue.closed
    requires d == Fetch || d == ToPriority(s.dispatcher.entry)
    ensures DispatcherOk(d, s.eofSeen, s.seen, s.finished, s.levels[l := s.levels[l].(queue := q)], |s.readers|)
  {
    assert ClosedFlags(s.levels[l := s.levels[l].(queue := q)]) == ClosedFlags(s.levels);
  }

  lemma KeepRouteOn(s: State, pick: nat)
    requires Control(s) && s.dispatcher.ToLevel? && s.dispatcher.entry.level < LEVELS
    requires CanPut(s.levels[s.dispatcher.entry.level].queue, 0, pick)
    ensures var e := s.dispatcher.entry;
            Control(SetQueue(s, e.level, Put(s.levels[e.level].queue, 0, e, pick)).(
                      dispatcher := ToPriority(e), d := ArrivePut(s.d, 0)))
  {
    var e := s.dispatcher.entry;
    var q := Put(s.levels[e.level].queue, 0, e, pick);
    RoutedLevels(s, pick, ToPriority(e));
    RoutedDispatcher(s, ToPriority(e), e.level, q);
    AggregatorQueue(s.aggregator, s.asleep, s.levels, e.level, q);
    ArrivePutOk(s.d, 0);
    Rerouted(s, SetQueue(s, e.level, q).(dispatcher := ToPriority(e), d := ArrivePut(s.d, 0)));
  }

  lemma KeepRouteBack(s: State, pick: nat)
    requires Control(s) && s.dispatcher.ToLevel? && s.dispatcher.entry.level < LEVELS
    requires CanPut(s.levels[s.dispatcher.entry.level].queue, 0, pick)
    ensures var e := s.dispatcher.entry;
            Control(FetchAgain(SetQueue(s, e.level, Put(s.levels[e.level].queue, 0, e, pick))))
  {
    var e := s.dispatcher.entry;
    var q := Put(s.levels[e.level].queue, 0, e, pick);
    RoutedLevels(s, pick, Fetch);
    RoutedDispatcher(s, Fetch, e.level, q);
    AggregatorQueue(s.aggregator, s.asleep, s.levels, e.level, q);
    FetchAgainOk(s.a, s.readers);
    Rerouted(s, FetchAgain(SetQueue(s, e.level, q)));
  }

  lemma KeepRoutePriority(s: State, pick: nat)
    requires Control(s) && s.dispatcher.ToPriority? && CanPut(s.d, 0, pick)
    ensures Control(FetchAgain(s.(d := Put(s.d, 0, s.dispatcher.entry, pick))))
  {
    PutOk(s.d, 0, s.dispatcher.entry, pick);
    FetchAgainOk(s.a, s.readers);
    LevelsStep(s.levels, 0, s.levels[0], s.dispatcher, Fetch);
    assert s.levels[0 := s.levels[0]] == s.levels;
  }

  lemma PostedLevels(s: State, l: nat, d: Dispatcher)
    requires Control(s) && s.dispatcher == PostEof(l) && l < LEVELS && !d.ToLevel?
    ensures var levels := s.levels[l := s.levels[l].(queue := Close(s.levels[l].queue))];
            LevelsOk(levels, d) && Count(ClosedFlags(levels)) == s.finished + 1
  {
    var v := s.levels[l];
    assert LevelOk(v, l, s.dispatcher) && LevelPure(v, l);
    CloseOk(v.queue);
    LevelsStep(s.levels, l, v.(queue := Close(v.queue)), s.dispatcher, d);
    CountUpdate(ClosedFlags(s.levels), l, true);
    assert ClosedFlags(s.levels[l := v.(queue := Close(v.queue))]) == ClosedFlags(s.levels)[l := true];
  }

  lemma PostedDispatcher(s: State, l: nat, d: Dispatcher)
    requires Control(s) && s.dispatcher == PostEof(l) && l < LEVELS
    requires d == if s.finished + 1 < LEVELS then Fetch else SetDone
    ensures DispatcherOk(d, s.eofSeen, s.seen, s.finished + 1,
                         s.levels[l := s.levels[l].(queue := Close(s.levels[l].queue))], |s.readers|)
  {
    PostedLevels(s, l, d);
  }

  lemma KeepPostLevel(s: State, l: nat)
    requires Control(s) && s.dispatcher == PostEof(l) && l < LEVELS
    ensures var s' := SetQueue(s, l, Close(s.levels[l].queue)).(finished := s.finished + 1);
            Control(if s'.finished < LEVELS then FetchAgain(s') else s'.(dispatcher := SetDone))
  {
    var d := if s.finished + 1 < LEVELS then Fetch else SetDone;
    var levels := s.levels[l := s.levels[l].(queue := Close(s.levels[l].queue))];
    PostedLevels(s, l, d);
    PostedDispatcher(s, l, d);
    AggregatorQueue(s.aggregator, s.asleep, s.levels, l, Close(s.levels[l].queue));
    FetchAgainOk(s.a, s.readers);
    Rerouted(s, s.(levels := levels, finished := s.finished + 1, dispatcher := d,
                   a := if d.Fetch? then ArriveTake(s.a, 0) else s.a));
  }

  lemma KeepFinishDispatch(s: State)
    requires Control(s) && s.dispatcher.SetDone?
    ensures Control(s.(dispatcher := Left, d := Close(s.d)))
  {
    CloseOk(s.d);
    LevelsStep(s.levels, 0, s.levels[0], s.dispatcher, Left);
    assert s.levels[0 := s.levels[0]] == s.levels;
  }

  /** The dispatcher's part depends on the levels only through their end flags. */
  lemma DispatcherLevels(s: State, l: nat, v: Level)
    requires Control(s) && l < LEVELS && v.queue.closed == s.levels[l].queue.closed
    ensures DispatcherOk(s.dispatcher, s.eofSeen, s.seen, s.finished, s.levels[l := v], |s.readers|)
  {
    assert ClosedFlags(s.levels[l := v]) == ClosedFlags(s.levels);
  }

  /** A step inside one level that keeps the end flag. */
  lemma LevelStep(s: State, l: nat, v: Level)
    requires Control(s) && l < LEVELS && LevelOk(v, l, s.dispatcher) && LevelPure(v, l)
    requires v.queue.closed == s.levels[l].queue.closed
    requires v.ready == s.levels[l].ready && v.analyzer == s.levels[l].analyzer && v.semaphore == s.levels[l].semaphore
    ensures Control(SetLevel(s, l, v))
  {
    LevelsStep(s.levels, l, v, s.dispatcher, s.dispatcher);
    DispatcherLevels(s, l, v);
    assert AggregatorOk(s.aggregator, s.asleep, s.levels[l := v]);
    Rerouted(s, SetLevel(s, l, v));
  }

  /** A step that only moves sleepers of one level's queue. */
  lemma QueueStep(s: State, l: nat, q: Channel<Entry>)
    requires Control(s) && l < LEVELS && ChannelOk(q)
    requires q.items == s.levels[l].queue.items && q.closed == s.levels[l].queue.closed
    requires forall k :: At(q.put, k) <==> At(s.levels[l].queue.put, k)
    requires forall k :: At(q.take, k) <==> At(s.levels[l].queue.take, k)
    ensures Control(SetQueue(s, l, q))
  {
    assert LevelOk(s.levels[l], l, s.dispatcher) && LevelPure(s.levels[l], l);
    LevelStep(s, l, s.levels[l].(queue := q));
  }

  lemma KeepQueueSleepers(s: State, l: nat, k: nat, put: bool)
    requires Control(s) && l < LEVELS
    ensures var q := s.levels[l].queue;
            && (MustSleepPut(q, k) ==> Control(SetQueue(s, l, SleepPut(q, k))))
            && (MustSleepTake(q, k) ==> Control(SetQueue(s, l, SleepTake(q, k))))
            && (CanNudge(q, put, k) ==> Control(SetQueue(s, l, Nudged(q, put, k))))
  {
    var q := s.levels[l].queue;
    assert LevelOk(s.levels[l], l, s.dispatcher);
    if MustSleepPut(q, k) {
      SleepPutOk(q, k);
      QueueStep(s, l, SleepPut(q, k));
    }
    if MustSleepTake(q, k) {
      SleepTakeOk(q, k);
      QueueStep(s, l, SleepTake(q, k));
    }
    if CanNudge(q, put, k) {
      NudgeOk(q, put, k);
      QueueStep(s, l, Nudged(q, put, k));
    }
  }

  lemma WorkedOk(v: Level, l: nat, d: Dispatcher, w: nat, pick: nat)
    requires LevelOk(v, l, d) && LevelPure(v, l) && w < |v.workers| && CanTake(v.queue, w, pick)
    ensures LevelOk(Worked(v, w, pick), l, d) && LevelPure(Worked(v, w, pick), l)
  {
    var v' := Worked(v, w, pick);
    TakeOk(v.queue, w, pick);
    ArriveTakeOk(Take(v.queue, w, pick), w);
    assert At(v.queue.take, w);
    assert forall k :: 0 <= k < |v.workers| ==> v'.workers[k].stage == v.workers[k].stage;
    assert NobodyWorking(v') == NobodyWorking(v) && EverybodyExited(v') == EverybodyExited(v);
  }

  lemma KeepWorkerTakes(s: State, l: nat, w: nat, pick: nat)
    requires Control(s) && l < LEVELS && w < |s.levels[l].workers| && CanTake(s.levels[l].queue, w, pick)
    ensures Control(SetLevel(s, l, Worked(s.levels[l], w, pick)))
  {
    assert LevelOk(s.levels[l], l, s.dispatcher) && LevelPure(s.levels[l], l);
    WorkedOk(s.levels[l], l, s.dispatcher, w, pick);
    LevelStep(s, l, Worked(s.levels[l], w, pick));
  }

  lemma KeepWorkerEnds(s: State, l: nat, w: nat)
    requires Control(s) && l < LEVELS && w < |s.levels[l].workers| && AtEnd(s.levels[l].queue, w)
    ensures var v := s.levels[l];
            Control(SetLevel(s, l, v.(queue := Leave(v.queue, w), workers := v.workers[w := v.workers[w].(stage := AtBarrier)])))
  {
    var v := s.levels[l];
    assert LevelOk(v, l, s.dispatcher) && LevelPure(v, l);
    LeaveOk(v.queue, w);
    assert At(v.queue.take, w);
    var v' := v.(queue := Leave(v.queue, w), workers := v.workers[w := v.workers[w].(stage := AtBarrier)]);
    assert forall k :: 0 <= k < |v.workers| && k != w ==> v'.workers[k] == v.workers[k];
    LevelStep(s, l, v');
  }

  lemma KeepWorkerExits(s: State, l: nat, w: nat)
    requires Control(s) && l < LEVELS && w < |s.levels[l].workers|
    requires s.levels[l].workers[w].stage.AtBarrier? && NobodyWorking(s.levels[l])
    ensures var v := s.levels[l];
            Control(SetLevel(s, l, v.(workers := v.workers[w := v.workers[w].(stage := Exited)])))
  {
    var v := s.levels[l];
    assert LevelOk(v, l, s.dispatcher) && LevelPure(v, l);
    var v' := v.(workers := v.workers[w := v.workers[w].(stage := Exited)]);
    assert NobodyWorking(v');
    LevelStep(s, l, v');
  }

  lemma KeepPublish(s: State, l: nat)
    requires Control(s) && l < LEVELS && s.levels[l].analyzer.Joining? && EverybodyExited(s.levels[l])
    ensures Control(SetLevel(s, l, s.levels[l].(analyzer := Posting, ready := true)).(asleep := false))
  {
    var v := s.levels[l].(analyzer := Posting, ready := true);
    assert LevelOk(s.levels[l], l, s.dispatcher) && LevelPure(s.levels[l], l);
    LevelsStep(s.levels, l, v, s.dispatcher, s.dispatcher);
    DispatcherLevels(s, l, v);
    assert AggregatorOk(s.aggregator, false, s.levels[l := v]);
    Rerouted(s, SetLevel(s, l, v).(asleep := false));
  }

  lemma KeepPostReady(s: State, l: nat)
    requires Control(s) && l < LEVELS && s.levels[l].analyzer.Posting?
    ensures Control(SetLevel(s, l, s.levels[l].(analyzer := Published, semaphore := s.levels[l].semaphore + 1)))
  {
    var v := s.levels[l].(analyzer := Published, semaphore := s.levels[l].semaphore + 1);
    assert LevelOk(s.levels[l], l, s.dispatcher) && LevelPure(s.levels[l], l);
    LevelsStep(s.levels, l, v, s.dispatcher, s.dispatcher);
    DispatcherLevels(s, l, v);
    assert AggregatorOk(s.aggregator, s.asleep, s.levels[l := v]);
    Rerouted(s, SetLevel(s, l, v));
  }

  lemma KeepRegionDSleepers(s: State, k: nat, put: bool)
    requires Control(s)
    ensures MustSleepPut(s.d, k) ==> Control(s.(d := SleepPut(s.d, k)))
    ensures MustSleepTake(s.d, k) ==> Control(s.(d := SleepTake(s.d, k)))
    ensures CanNudge(s.d, put, k) ==> Control(s.(d := Nudged(s.d, put, k)))
  {
    if MustSleepPut(s.d, k) {
      SleepPutOk(s.d, k);
    }
    if MustSleepTake(s.d, k) {
      SleepTakeOk(s.d, k);
    }
    if CanNudge(s.d, put, k) {
      NudgeOk(s.d, put, k);
    }
  }

  lemma KeepDrain(s: State, pick: nat)
    requires Control(s) && s.aggregator.Draining? && CanTake(s.d, 0, pick)
    ensures Control(s.(d := ArriveTake(Take(s.d, 0, pick), 0), scored := s.scored + [s.d.items[0]]))
  {
    TakeOk(s.d, 0, pick);
    ArriveTakeOk(Take(s.d, 0, pick), 0);
  }

  lemma KeepDrainEnds(s: State)
    requires Control(s) && s.aggregator.Draining? && AtEnd(s.d, 0)
    ensures Control(s.(d := Leave(s.d, 0), aggregator := AwaitReady(0)))
  {
    LeaveOk(s.d, 0);
  }

  lemma KeepAwait(s: State)
    requires Control(s) && s.aggregator.AwaitReady? && !s.asleep
    ensures s.aggregator.level < LEVELS
    ensures s.levels[s.aggregator.level].ready ==> Control(s.(aggregator := AwaitSemaphore(s.aggregator.level)))
    ensures !s.levels[s.aggregator.level].ready ==> Control(s.(asleep := true))
  {
  }

  lemma KeepNudgeAggregator(s: State)
    requires Control(s)
    ensures Control(s.(asleep := false))
  {
  }

  lemma KeepReceive(s: State)
    requires Control(s) && s.aggregator.AwaitSemaphore? && s.aggregator.level < LEVELS
    requires s.levels[s.aggregator.level].semaphore > 0
    ensures var l := s.aggregator.level;
            Control(SetLevel(s, l, s.levels[l].(semaphore := s.levels[l].semaphore - 1)).(
                      aggregator := if l + 1 < LEVELS then AwaitReady(l + 1) else Written))
  {
    var l := s.aggregator.level;
    var v := s.levels[l].(semaphore := s.levels[l].semaphore - 1);
    var g := if l + 1 < LEVELS then AwaitReady(l + 1) else Written;
    assert LevelOk(s.levels[l], l, s.dispatcher) && LevelPure(s.levels[l], l);
    LevelsStep(s.levels, l, v, s.dispatcher, s.dispatcher);
    DispatcherLevels(s, l, v);
    assert AggregatorOk(g, s.asleep, s.levels[l := v]);
    Rerouted(s, SetLevel(s, l, v).(aggregator := g));
  }

  predicate ThreadStep(step: Step) {
    step.PushLine? || step.ThreadSleeps? || step.EndProducers? || step.NudgeReader? || step.ParserSleeps?
  }

  lemma ThreadStepsKeep(c: Config, s: State, step: Step)
    requires Control(s) && Shaped(s) && Enabled(s, step) && ThreadStep(step)
    ensures Control(Apply(c, s, step))
  {
    match step
    case PushLine(r, t, pick) => KeepPushLine(s, r, t, pick);
    case ThreadSleeps(r, t) => KeepThreadSleeps(s, r, t);
    case EndProducers(r) => KeepEndProducers(s, r);
    case NudgeReader(r, put, k) => KeepNudgeReader(s, r, put, k);
    case ParserSleeps(r) => KeepParserSleeps(s, r);
  }

  predicate ParserStep(step: Step) {
    step.ParserTakes? || step.ParserEnds? || step.PushItem?
  }

  lemma ParserTakesKeeps(c: Config, s: State, r: nat, pick: nat)
    requires Control(s) && Shaped(s) && Enabled(s, ParserTakes(r, pick))
    ensures Control(Apply(c, s, ParserTakes(r, pick)))
  {
    KeepParserTakes(s, r, pick);
  }

  lemma PushItemApplied(c: Config, s: State, r: nat, pick: nat)
    requires Shaped(s) && Enabled(s, PushItem(r, pick))
    ensures Apply(c, s, PushItem(r, pick)) ==
            SetReader(s, r, AfterItem(s.readers[r])).(a := RegionAfter(s.a, s.readers[r], r, pick),
                                                      eofCount := Counted(s.eofCount, s.readers[r].parser))
  {
  }

  lemma PushItemKeeps(c: Config, s: State, r: nat, pick: nat)
    requires Control(s) && Shaped(s) && Enabled(s, PushItem(r, pick))
    ensures Control(Apply(c, s, PushItem(r, pick)))
  {
    KeepPushItem(s, r, pick);
    PushItemApplied(c, s, r, pick);
  }

  lemma ParserStepsKeep(c: Config, s: State, step: Step)
    requires Control(s) && Shaped(s) && Enabled(s, step) && ParserStep(step)
    ensures Control(Apply(c, s, step))
  {
    if step.ParserTakes? {
      ParserTakesKeeps(c, s, step.r, step.pick);
    } else if step.PushItem? {
      PushItemKeeps(c, s, step.r, step.pick);
    } else {
      KeepParserEnds(s, step.r);
    }
  }

  predicate DispatchStep(step: Step) {
    step.PusherSleeps? || step.NudgeA? || step.Dispatch? || step.DispatcherSleeps? || step.FinishDispatch?
  }

  lemma DispatchStepsKeep(c: Config, s: State, step: Step)
    requires Control(s) && Shaped(s) && Enabled(s, step) && DispatchStep(step)
    ensures Control(Apply(c, s, step))
  {
    match step
    case PusherSleeps(r) => KeepRegionASleepers(s, r, true);
    case NudgeA(put, k) => KeepRegionASleepers(s, k, put);
    case Dispatch(pick) =>
      match s.a.items[0] {
        case Line(e) => KeepDispatchLine(s, pick, e);
        case Eof(r, l) => KeepDispatchEof(s, pick, r, l);
      }
    case DispatcherSleeps => KeepRegionASleepers(s, 0, true);
    case FinishDispatch => KeepFinishDispatch(s);
  }

  predicate RoutingStep(step: Step) {
    step.RouteLevel? || step.LevelFull? || step.RoutePriority? || step.PriorityFull? || step.PostLevel?
  }

  lemma RoutingStepsKeep(c: Config, s: State, step: Step)
    requires Control(s) && Shaped(s) && Enabled(s, step) && RoutingStep(step)
    ensures Control(Apply(c, s, step))
  {
    match step
    case RouteLevel(pick) => KeepRouteOn(s, pick); KeepRouteBack(s, pick);
    case LevelFull => KeepQueueSleepers(s, s.dispatcher.entry.level, 0, true);
    case RoutePriority(pick) => KeepRoutePriority(s, pick);
    case PriorityFull => KeepRegionDSleepers(s, 0, true);
    case PostLevel => KeepPostLevel(s, s.dispatcher.level);
  }

  predicate WorkerStep(step: Step) {
    step.WorkerTakes? || step.WorkerSleeps? || step.WorkerEnds? || step.WorkerExits? || step.NudgeLevel?
  }

  lemma WorkerStepsKeep(c: Config, s: State, step: Step)
    requires Control(s) && Shaped(s) && Enabled(s, step) && WorkerStep(step)
    ensures Control(Apply(c, s, step))
  {
    match step
    case WorkerTakes(l, w, pick) => KeepWorkerTakes(s, l, w, pick);
    case WorkerSleeps(l, w) => KeepQueueSleepers(s, l, w, true);
    case WorkerEnds(l, w) => KeepWorkerEnds(s, l, w);
    case WorkerExits(l, w) => KeepWorkerExits(s, l, w);
    case NudgeLevel(l, put, k) => KeepQueueSleepers(s, l, k, put);
  }

  predicate AnalyzerStep(step: Step) {
    step.Publish? || step.PostReady?
  }

  lemma PublishKeeps(c: Config, s: State, l: nat)
    requires Control(s) && Shaped(s) && Enabled(s, Publish(l))
    ensures Control(Apply(c, s, Publish(l)))
  {
    KeepPublish(s, l);
  }

  lemma PostReadyKeeps(c: Config, s: State, l: nat)
    requires Control(s) && Shaped(s) && Enabled(s, PostReady(l))
    ensures Control(Apply(c, s, PostReady(l)))
  {
    KeepPostReady(s, l);
  }

  lemma AnalyzerStepsKeep(c: Config, s: State, step: Step)
    requires Control(s) && Shaped(s) && Enabled(s, step) && AnalyzerStep(step)
    ensures Control(Apply(c, s, step))
  {
    if step.Publish? {
      PublishKeeps(c, s, step.l);
    } else {
      PostReadyKeeps(c, s, step.l);
    }
  }

  predicate DrainStep(step: Step) {
    step.Drain? || step.DrainSleeps? || step.NudgeD?
  }

  lemma DrainStepsKeep(c: Config, s: State, step: Step)
    requires Control(s) && Shaped(s) && Enabled(s, step) && DrainStep(step)
    ensures Control(Apply(c, s, step))
  {
    match step
    case Drain(pick) => KeepDrain(s, pick);
    case DrainSleeps => KeepRegionDSleepers(s, 0, true);
    case NudgeD(put, k) => KeepRegionDSleepers(s, k, put);
  }

  predicate ReceiveStep(step: Step) {
    step.Receive?
  }

  lemma ReceiveStepsKeep(c: Config, s: State, step: Step)
    requires Control(s) && Shaped(s) && Enabled(s, step) && ReceiveStep(step)
    ensures Control(Apply(c, s, step))
  {
    match step
    case Receive => KeepReceive(s);
  }

  predicate ReportStep(step: Step) {
    step.DrainEnds? || step.SeeReady? || step.ReadySleeps? || step.NudgeAggregator?
  }

  lemma ReportStepsKeep(c: Config, s: State, step: Step)
    requires Control(s) && Shaped(s) && Enabled(s, step) && ReportStep(step)
    ensures Control(Apply(c, s, step))
  {
    match step
    case DrainEnds => KeepDrainEnds(s);
    case SeeReady => KeepAwait(s);
    case ReadySleeps => KeepAwait(s);
    case NudgeAggregator => KeepNudgeAggregator(s);
  }

  lemma StepKeepsControl(c: Config, s: State, step: Step)
    requires Control(s) && Shaped(s) && Enabled(s, step)
    ensures Control(Apply(c, s, step))
  {
    if ThreadStep(step) {
      ThreadStepsKeep(c, s, step);
    } else if ParserStep(step) {
      ParserStepsKeep(c, s, step);
    } else if DispatchStep(step) {
      DispatchStepsKeep(c, s, step);
    } else if RoutingStep(step) {
      RoutingStepsKeep(c, s, step);
    } else if WorkerStep(step) {
      WorkerStepsKeep(c, s, step);
    } else if AnalyzerStep(step) {
      AnalyzerStepsKeep(c, s, step);
    } else if DrainStep(step) {
      DrainStepsKeep(c, s, step);
    } else if ReceiveStep(step) {
      ReceiveStepsKeep(c, s, step);
    } else {
      ReportStepsKeep(c, s, step);
    }
  }
}
