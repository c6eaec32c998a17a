/** The processes of the building as a transition system. Every lock-protected region, and every
    semaphore operation outside one, is one step; a program counter for each process lets the gaps
    between them interleave. Pseudo-random choices are nondeterministic.
    HW3/word_carrier.c, HW3/letter_carrier.c, HW3/elevator.c, HW3/sorting.c,
    HW3/shared_memory.c:241-302 and the parent's loop HW3/hw3.c:460-499. */
module Transport {
  import opened Basics
  import opened Counting
  import opened Elevator
  import opened Words

  const MAX_REQUESTS: nat := 2048
  const MAX_CARRIERS: nat := 512

  /** The run's parameters; sorters lists the floor of each sorter process. */
  datatype Config = Config(floors: nat, capacity: int, deliveryCapacity: int, repositionCapacity: int,
                           carriersPerFloor: nat, sorters: seq<nat>)

  /** A word carrier: looking for a word, or holding one that is claimed, has its places reserved, or
      was refused for lack of places. */
  datatype PorterPc = Seek | Claimed(w: nat) | Reserved(w: nat) | Refused(w: nat)
  datatype Porter = Porter(floor: nat, pc: PorterPc)

  /** A letter carrier: scanning for work, holding a claimed character, about to ask for another floor,
      between entering its request and posting it, waiting to be moved, or exited. */
  datatype CarrierPc = Scan | Hold(job: Job) | Ask(to: int) | Post(kind: Kind) | Wait | Gone
  datatype LetterCarrier = LetterCarrier(floor: nat, pc: CarrierPc, events: nat)

  /** What the elevator does next for the first request of its batch. */
  datatype Phase = Handing | Leaving | Reaching(emptied: bool) | Reporting(vacated: nat) | Signalling
  datatype LiftPc = Idle | Collecting | Serving(phase: Phase)
  datatype Lift = Lift(table: seq<Request>, batch: seq<Request>, items: nat, pc: LiftPc, floor: int, dir: int)

  /** agenda lists the floors on which the parent still has to start a letter carrier. */
  datatype State = State(
    words: seq<Word>, active: seq<int>, completedWords: nat, cursor: nat,
    porters: seq<Porter>, carriers: seq<LetterCarrier>,
    counts: seq<int>, respawn: seq<bool>,
    delivery: Lift, reposition: Lift, agenda: seq<nat>)

  datatype Step =
    | ClaimWord(p: nat) | ReserveFloors(p: nat) | Admit(p: nat) | PutBack(p: nat)
    | PickChar(k: nat, j: Job) | GiveUp(k: nat, to: int) | Exit(k: nat) | PlaceDirect(k: nat)
    | EnterDelivery(k: nat) | EnterReposition(k: nat) | PostItem(k: nat) | Wake(k: nat)
    | TakeItem(kind: Kind) | TakeBatch(kind: Kind) | HandOver
    | LeaveFloor(kind: Kind) | ReachFloor(kind: Kind) | ReportEmpty(kind: Kind) | SignalCarrier(kind: Kind)
    | SortWord(q: nat, w: nat)
    | CheckFloor(f: nat) | SpawnCarrier

  function LiftOf(s: State, kind: Kind): Lift {
    if kind == Delivery then s.delivery else s.reposition
  }

  function WithLift(s: State, kind: Kind, l: Lift): State {
    if kind == Delivery then s.(delivery := l) else s.(reposition := l)
  }

  function SetWord(s: State, w: nat, x: Word): State
    requires w < |s.words|
  {
    s.(words := s.words[w := x])
  }

  function SetPorter(s: State, p: nat, pc: PorterPc): State
    requires p < |s.porters|
  {
    s.(porters := s.porters[p := s.porters[p].(pc := pc)])
  }

  function SetCarrier(s: State, k: nat, pc: CarrierPc): State
    requires k < |s.carriers|
  {
    s.(carriers := s.carriers[k := s.carriers[k].(pc := pc)])
  }

  predicate ValidJob(words: seq<Word>, j: Job) {
    j.w < |words| && j.c < |words[j.w].text|
      && |words[j.w].charClaimed| == |words[j.w].delivered| == |words[j.w].transit| == |words[j.w].area| == |words[j.w].text|
  }

  // ---------------------------------------------------------------------------------------------
  // When a step can be taken

  predicate Enabled(cfg: Config, s: State, step: Step) {
    match step
    case ClaimWord(p) =>
      p < |s.porters| && s.porters[p].pc == Seek && NextWord(Available(s.words), s.cursor, 0) != -1
    case ReserveFloors(p) =>
      && p < |s.porters| && s.porters[p].pc.Claimed? && s.porters[p].pc.w < |s.words|
      && s.porters[p].floor < |s.active| && s.words[s.porters[p].pc.w].sortingFloor < |s.active|
    case Admit(p) =>
      p < |s.porters| && s.porters[p].pc.Reserved? && s.porters[p].pc.w < |s.words|
    case PutBack(p) =>
      p < |s.porters| && s.porters[p].pc.Refused? && s.porters[p].pc.w < |s.words|
    case PickChar(k, j) =>
      && k < |s.carriers| && s.carriers[k].pc == Scan && ValidJob(s.words, j)
      && s.words[j.w].admitted && !s.words[j.w].completed && s.words[j.w].arrivalFloor == s.carriers[k].floor
      && CharFree(s.words[j.w], j.c)
    case GiveUp(k, to) =>
      && k < |s.carriers| && s.carriers[k].pc == Scan && s.completedWords < |s.words|
      && 0 <= to < cfg.floors && (cfg.floors > 1 ==> to != s.carriers[k].floor)
    case Exit(k) =>
      k < |s.carriers| && s.carriers[k].pc == Scan && s.completedWords >= |s.words|
    case PlaceDirect(k) =>
      && k < |s.carriers| && s.carriers[k].pc.Hold? && ValidJob(s.words, s.carriers[k].pc.job)
      && s.words[s.carriers[k].pc.job.w].sortingFloor == s.carriers[k].floor
    case EnterDelivery(k) =>
      && k < |s.carriers| && s.carriers[k].pc.Hold? && ValidJob(s.words, s.carriers[k].pc.job)
      && s.words[s.carriers[k].pc.job.w].sortingFloor != s.carriers[k].floor
      && FirstFree(s.delivery.table, 0) != -1
    case EnterReposition(k) =>
      k < |s.carriers| && s.carriers[k].pc.Ask? && FirstFree(s.reposition.table, 0) != -1
    case PostItem(k) =>
      k < |s.carriers| && s.carriers[k].pc.Post?
    case Wake(k) =>
      k < |s.carriers| && s.carriers[k].pc == Wait && s.carriers[k].events > 0
    case TakeItem(kind) =>
      LiftOf(s, kind).pc == Idle && LiftOf(s, kind).items > 0
    case TakeBatch(kind) =>
      var l := LiftOf(s, kind);
      l.pc == Collecting && (l.dir == 1 || l.dir == -1)
    case HandOver =>
      && s.delivery.pc == Serving(Handing) && s.delivery.batch != [] && s.delivery.batch[0].Request?
      && s.delivery.batch[0].job.Some? && ValidJob(s.words, s.delivery.batch[0].job.value)
    case LeaveFloor(kind) =>
      HeadIn(s, kind) && LiftOf(s, kind).pc == Serving(Leaving)
    case ReachFloor(kind) =>
      HeadIn(s, kind) && LiftOf(s, kind).pc.Serving? && LiftOf(s, kind).pc.phase.Reaching?
    case ReportEmpty(kind) =>
      var l := LiftOf(s, kind);
      l.pc.Serving? && l.pc.phase.Reporting? && l.pc.phase.vacated < |s.counts| && l.pc.phase.vacated < |s.respawn|
    case SignalCarrier(kind) =>
      HeadIn(s, kind) && LiftOf(s, kind).pc == Serving(Signalling)
    case SortWord(q, w) =>
      && q < |cfg.sorters| && w < |s.words| && s.words[w].admitted && !s.words[w].completed
      && s.words[w].sortingFloor == cfg.sorters[q]
      && s.words[w].arrivalFloor < |s.active| && s.words[w].sortingFloor < |s.active|
    case CheckFloor(f) =>
      && f < |s.counts| && f < |s.respawn| && s.agenda == []
      && s.counts[f] == 0 && s.respawn[f] && s.completedWords < |s.words|
    case SpawnCarrier =>
      && s.agenda != [] && |s.carriers| < MAX_CARRIERS
      && s.agenda[0] < |s.counts| && s.agenda[0] < |s.respawn|
  }

  /** The batch has a first request, and its carrier and floors exist. */
  predicate HeadIn(s: State, kind: Kind) {
    var l := LiftOf(s, kind);
    && l.batch != [] && l.batch[0].Request? && l.batch[0].carrier < |s.carriers|
    && s.carriers[l.batch[0].carrier].floor < |s.counts|
    && 0 <= l.batch[0].to < |s.counts| && |s.counts| == |s.respawn|
  }

  // ---------------------------------------------------------------------------------------------
  // What a step does

  function Apply(cfg: Config, s: State, step: Step): State
    requires Enabled(cfg, s, step)
  {
    match step
    case ClaimWord(p) => ApplyClaimWord(s, p)
    case ReserveFloors(p) => ApplyReserveFloors(cfg, s, p)
    case Admit(p) =>
      var w := s.porters[p].pc.w;
      SetPorter(SetWord(s, w, s.words[w].(admitted := true, arrivalFloor := s.porters[p].floor, reserved := true)), p, Seek)
    case PutBack(p) =>
      var w := s.porters[p].pc.w;
      SetPorter(SetWord(s, w, s.words[w].(claimed := false, owner := -1)), p, Seek)
    case PickChar(k, j) =>
      SetCarrier(SetWord(s, j.w, Words.ClaimChar(s.words[j.w], j.c)), k, Hold(j))
    case GiveUp(k, to) => SetCarrier(s, k, Ask(to))
    case Exit(k) => SetCarrier(s, k, Gone)
    case PlaceDirect(k) =>
      var j := s.carriers[k].pc.job;
      SetCarrier(SetWord(s, j.w, Deliver(s.words[j.w], j.c)), k, Scan)
    case EnterDelivery(k) =>
      var j := s.carriers[k].pc.job;
      Enter(s, k, Delivery, Request(k, s.carriers[k].floor, s.words[j.w].sortingFloor, Some(j)))
    case EnterReposition(k) =>
      Enter(s, k, Reposition, Request(k, s.carriers[k].floor, s.carriers[k].pc.to, None))
    case PostItem(k) =>
      ApplyPost(s, k, s.carriers[k].pc.kind)
    case Wake(k) =>
      s.(carriers := s.carriers[k := s.carriers[k].(pc := Scan, events := s.carriers[k].events - 1)])
    case TakeItem(kind) =>
      var l := LiftOf(s, kind);
      WithLift(s, kind, l.(items := l.items - 1, pc := Collecting))
    case TakeBatch(kind) => WithLift(s, kind, WithBatch(LiftOf(s, kind), kind, CapacityOf(cfg, kind)))
    case HandOver => ApplyHandOver(s)
    case LeaveFloor(kind) => ApplyLeave(s, kind)
    case ReachFloor(kind) => ApplyReach(s, kind)
    case ReportEmpty(kind) => ApplyReport(s, kind)
    case SignalCarrier(kind) => ApplySignal(s, kind)
    case SortWord(q, w) => ApplySort(s, w)
    case CheckFloor(f) => s.(agenda := seq(cfg.carriersPerFloor, i => f))
    case SpawnCarrier => ApplySpawn(s)
  }

  function ApplyClaimWord(s: State, p: nat): State
    requires p < |s.porters| && NextWord(Available(s.words), s.cursor, 0) != -1
  {
    var w := NextWord(Available(s.words), s.cursor, 0);
    SetPorter(SetWord(s, w, s.words[w].(claimed := true, owner := p)), p, Claimed(w)).(cursor := (w + 1) % |s.words|)
  }

  function ApplyReserveFloors(cfg: Config, s: State, p: nat): State
    requires Enabled(cfg, s, ReserveFloors(p))
  {
    var w := s.porters[p].pc.w;
    var af := s.porters[p].floor;
    var sf := s.words[w].sortingFloor;
    if HasRoom(s.active, cfg.capacity, af, sf) then
      SetPorter(s, p, Reserved(w)).(active := Reserve(s.active, af, sf, 1))
    else
      SetPorter(s, p, Refused(w))
  }

  function Enter(s: State, k: nat, kind: Kind, r: Request): State
    requires k < |s.carriers| && FirstFree(LiftOf(s, kind).table, 0) != -1
  {
    var l := LiftOf(s, kind);
    SetCarrier(WithLift(s, kind, l.(table := l.table[FirstFree(l.table, 0) := r])), k, Post(kind))
  }

  function ApplyPost(s: State, k: nat, kind: Kind): State
    requires k < |s.carriers|
  {
    var l := LiftOf(s, kind);
    SetCarrier(WithLift(s, kind, l.(items := l.items + 1)), k, Wait)
  }

  function CapacityOf(cfg: Config, kind: Kind): int {
    var cap := if kind == Delivery then cfg.deliveryCapacity else cfg.repositionCapacity;
    if cap < 64 then cap else 64
  }

  /** The elevator with the next request of its batch in hand, or idle when the batch is done. */
  function NextRequest(l: Lift, kind: Kind): Lift {
    if l.batch == [] then l.(pc := Idle)
    else if l.batch[0].Free? then l.(pc := Idle)
    else l.(pc := Serving(if kind == Delivery then Handing else Leaving), floor := l.batch[0].to)
  }

  /** Taking a batch. The delivery elevator also turns towards the floor where the batch waits. */
  function WithBatch(l: Lift, kind: Kind, cap: int): Lift
    requires l.dir == 1 || l.dir == -1
  {
    var t := Collect(l.table, kind, l.dir, l.floor, cap);
    var d := CollectDirection(l.table, l.dir, l.floor);
    var turned :=
      if t.batch == [] || kind == Reposition then d
      else if t.batch[0].from > l.floor then 1
      else if t.batch[0].from < l.floor then -1
      else d;
    NextRequest(l.(table := t.table, batch := t.batch, dir := turned), kind)
  }

  /** The delivery itself. The request keeps its place in the batch but no longer names a character. */
  function ApplyHandOver(s: State): State
    requires s.delivery.batch != [] && s.delivery.batch[0].Request? && s.delivery.batch[0].job.Some?
    requires ValidJob(s.words, s.delivery.batch[0].job.value)
  {
    var l := s.delivery;
    var j := l.batch[0].job.value;
    SetWord(s, j.w, Deliver(s.words[j.w], j.c)).(
      delivery := l.(batch := l.batch[0 := l.batch[0].(job := None)], pc := Serving(Leaving)))
  }

  function ApplyLeave(s: State, kind: Kind): State
    requires HeadIn(s, kind)
  {
    var l := LiftOf(s, kind);
    var from := s.carriers[l.batch[0].carrier].floor;
    if from == l.batch[0].to then
      WithLift(s, kind, l.(pc := Serving(Signalling)))
    else
      WithLift(s, kind, l.(pc := Serving(Reaching(s.counts[from] - 1 == 0)))).(
        counts := s.counts[from := s.counts[from] - 1])
  }

  function ApplyReach(s: State, kind: Kind): State
    requires HeadIn(s, kind) && LiftOf(s, kind).pc.Serving? && LiftOf(s, kind).pc.phase.Reaching?
  {
    var l := LiftOf(s, kind);
    var k := l.batch[0].carrier;
    var to := l.batch[0].to;
    var next := if l.pc.phase.emptied then Reporting(s.carriers[k].floor) else Signalling;
    WithLift(s, kind, l.(pc := Serving(next))).(
      counts := s.counts[to := s.counts[to] + 1], respawn := s.respawn[to := false],
      carriers := s.carriers[k := s.carriers[k].(floor := to)])
  }

  function ApplyReport(s: State, kind: Kind): State
    requires LiftOf(s, kind).pc.Serving? && LiftOf(s, kind).pc.phase.Reporting?
    requires LiftOf(s, kind).pc.phase.vacated < |s.counts| && LiftOf(s, kind).pc.phase.vacated < |s.respawn|
  {
    var l := LiftOf(s, kind);
    var f := l.pc.phase.vacated;
    WithLift(s, kind, l.(pc := Serving(Signalling))).(
      respawn := if s.counts[f] == 0 && !s.respawn[f] then s.respawn[f := true] else s.respawn)
  }

  function ApplySignal(s: State, kind: Kind): State
    requires HeadIn(s, kind)
  {
    var l := LiftOf(s, kind);
    var k := l.batch[0].carrier;
    WithLift(s, kind, NextRequest(l.(batch := l.batch[1..]), kind)).(
      carriers := s.carriers[k := s.carriers[k].(events := s.carriers[k].events + 1)])
  }

  function ApplySpawn(s: State): State
    requires s.agenda != [] && s.agenda[0] < |s.counts| && s.agenda[0] < |s.respawn|
  {
    var f := s.agenda[0];
    s.(agenda := s.agenda[1..], carriers := s.carriers + [LetterCarrier(f, Scan, 0)],
       counts := s.counts[f := s.counts[f] + 1], respawn := s.respawn[f := false])
  }

  function ApplySort(s: State, w: nat): State
    requires w < |s.words| && s.words[w].arrivalFloor < |s.active| && s.words[w].sortingFloor < |s.active|
  {
    var x := s.words[w];
    var y := Sort(x);
    if y.completed && !x.completed then
      SetWord(s, w, y).(
        completedWords := s.completedWords + 1,
        active := if x.reserved then Reserve(s.active, x.arrivalFloor, x.sortingFloor, -1) else s.active)
    else
      SetWord(s, w, y)
  }

  // ---------------------------------------------------------------------------------------------
  // Runs

  /** The parameters the program accepts: positive numbers, words loaded with existing floors, and at
      least one sorter on each floor. */
  ghost predicate Accepts(cfg: Config) {
    && cfg.floors > 0 && cfg.capacity > 0 && cfg.deliveryCapacity > 0 && cfg.repositionCapacity > 0
    && cfg.carriersPerFloor > 0
    && forall f :: 0 <= f < cfg.floors ==> f in cfg.sorters
  }

  function IdleLift(): Lift {
    Lift(seq(MAX_REQUESTS, i => Free), [], 0, Idle, 0, 1)
  }

  ghost predicate Init(cfg: Config, s: State) {
    && |s.words| > 0
    && (forall w :: 0 <= w < |s.words| ==>
          s.words[w] == Words.Loaded(s.words[w].text, s.words[w].sortingFloor) && s.words[w].sortingFloor < cfg.floors)
    && s.active == seq(cfg.floors, f => 0) && s.completedWords == 0 && s.cursor == 0
    && s.porters != [] && (forall p :: 0 <= p < |s.porters| ==> s.porters[p].pc == Seek && s.porters[p].floor < cfg.floors)
    && s.carriers == [] && s.counts == seq(cfg.floors, f => 0) && s.respawn == seq(cfg.floors, f => false)
    && s.delivery == IdleLift() && s.reposition == IdleLift()
    && s.agenda != [] && forall i :: 0 <= i < |s.agenda| ==> s.agenda[i] < cfg.floors
  }

  /** t is reached from s by the steps, each enabled when it is taken. */
  ghost predicate Leads(cfg: Config, s: State, steps: seq<Step>, t: State)
    decreases |steps|
  {
    if steps == [] then s == t
    else Enabled(cfg, s, steps[0]) && Leads(cfg, Apply(cfg, s, steps[0]), steps[1..], t)
  }

  ghost predicate Reachable(cfg: Config, t: State) {
    exists s, steps :: Init(cfg, s) && Leads(cfg, s, steps, t)
  }
}
