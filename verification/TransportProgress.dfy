/** No dead ends: from every reachable state some schedule completes every word. A measure is given
    such that, while a word is incomplete, some process can take a step that decreases it. */
module TransportProgress {
  import opened Basics
  import opened Counting
  import opened Elevator
  import opened Words
  import opened Transport
  import opened TransportInvariant
  import opened TransportSafety
  import SortingArea

  // ---------------------------------------------------------------------------------------------
  // The work left on the words

  /** Admission, completion, claims, deliveries and fixed slots a word still lacks. */
  function Left(w: Word): nat {
    if w.completed then 0
    else
      1 + Bit(!w.admitted) + (|w.charClaimed| - Count(w.charClaimed)) + (|w.delivered| - Count(w.delivered))
        + (|w.area| - SortingArea.FixedCount(w.area))
  }

  function Lefts(words: seq<Word>): (s: seq<nat>)
    ensures |s| == |words| && forall w :: 0 <= w < |words| ==> s[w] == Left(words[w])
  {
    seq(|words|, w requires 0 <= w < |words| => Left(words[w]))
  }

  function Work(words: seq<Word>): nat {
    Sum(Lefts(words))
  }

  lemma WorkChange(words: seq<Word>, w: nat, x: Word)
    requires w < |words|
    ensures Work(words[w := x]) == Work(words) - Left(words[w]) + Left(x)
  {
    SumUpdate(Lefts(words), w, Left(x));
    assert Lefts(words[w := x]) == Lefts(words)[w := Left(x)];
  }

  // ---------------------------------------------------------------------------------------------
  // The distance of the carriers from floor f

  function Far(floor: int, f: nat): nat {
    if floor == f then 0 else 40
  }

  function CarrierCost(c: LetterCarrier, f: nat): nat {
    var pending := if c.events > 0 then Far(c.floor, f) + 1 else 0;
    match c.pc
    case Scan => Far(c.floor, f)
    case Hold(_) => 60
    case Ask(to) => Far(to, f) + 20
    case Post(_) => 3 + pending
    case Wait => 2 + pending
    case Gone => 0
  }

  function CarrierCosts(cs: seq<LetterCarrier>, f: nat): (s: seq<nat>)
    ensures |s| == |cs| && forall k :: 0 <= k < |cs| ==> s[k] == CarrierCost(cs[k], f)
  {
    seq(|cs|, k requires 0 <= k < |cs| => CarrierCost(cs[k], f))
  }

  function PcCost(pc: LiftPc): nat {
    match pc
    case Idle => 7
    case Collecting => 6
    case Serving(phase) =>
      match phase
      case Handing => 4
      case Leaving => 3
      case Reaching(_) => 2
      case Reporting(_) => 1
      case Signalling => 0
  }

  function LiftCost(l: Lift, f: nat): nat {
    12 * Tally(l.table, Used) + 40 * Tally(l.table, Away(f)) + 10 * Tally(l.batch, Used) + 40 * Tally(l.batch, Away(f))
      + PcCost(l.pc)
  }

  function Distance(s: State, f: nat): nat {
    Sum(CarrierCosts(s.carriers, f)) + LiftCost(s.delivery, f) + LiftCost(s.reposition, f) + 50 * |s.agenda|
  }

  lemma CostChange(cs: seq<LetterCarrier>, k: nat, c: LetterCarrier, f: nat)
    requires k < |cs|
    ensures Sum(CarrierCosts(cs[k := c], f)) == Sum(CarrierCosts(cs, f)) - CarrierCost(cs[k], f) + CarrierCost(c, f)
  {
    SumUpdate(CarrierCosts(cs, f), k, CarrierCost(c, f));
    assert CarrierCosts(cs[k := c], f) == CarrierCosts(cs, f)[k := CarrierCost(c, f)];
  }

  // ---------------------------------------------------------------------------------------------
  // The word carriers' share, used while no admitted word is incomplete

  function PorterCost(p: Porter): nat {
    match p.pc
    case Seek => 3
    case Claimed(_) => 2
    case Reserved(_) => 1
    case Refused(_) => 4
  }

  function PorterCosts(ps: seq<Porter>): (s: seq<nat>)
    ensures |s| == |ps| && forall p :: 0 <= p < |ps| ==> s[p] == PorterCost(ps[p])
  {
    seq(|ps|, p requires 0 <= p < |ps| => PorterCost(ps[p]))
  }

  lemma PorterCostChange(ps: seq<Porter>, p: nat, q: Porter)
    requires p < |ps|
    ensures Sum(PorterCosts(ps[p := q])) == Sum(PorterCosts(ps)) - PorterCost(ps[p]) + PorterCost(q)
  {
    SumUpdate(PorterCosts(ps), p, PorterCost(q));
    assert PorterCosts(ps[p := q]) == PorterCosts(ps)[p := PorterCost(q)];
  }

  // ---------------------------------------------------------------------------------------------
  // The measure

  predicate InProgress(w: Word) {
    w.admitted && !w.completed
  }

  /** The first word from w on that is admitted and not completed, |words| if there is none. */
  function Target(words: seq<Word>, w: nat): (t: nat)
    requires w <= |words|
    ensures w <= t <= |words| && (t < |words| ==> InProgress(words[t]))
    ensures forall v :: w <= v < t ==> !InProgress(words[v])
    decreases |words| - w
  {
    if w == |words| || InProgress(words[w]) then w else Target(words, w + 1)
  }

  /** While a word is in progress, how far the carriers are from the floor where it arrived; otherwise
      how far the word carriers are from admitting one. */
  function Detour(s: State): nat {
    var t := Target(s.words, 0);
    if t < |s.words| then Distance(s, s.words[t].arrivalFloor) else Sum(PorterCosts(s.porters))
  }

  ghost predicate Closer(s: State, t: State) {
    Work(t.words) < Work(s.words) || (Work(t.words) == Work(s.words) && Detour(t) < Detour(s))
  }

  ghost predicate AllCompleted(s: State) {
    forall w :: 0 <= w < |s.words| ==> s.words[w].completed
  }

  ghost predicate Helps(cfg: Config, s: State, step: Step) {
    Enabled(cfg, s, step) && Closer(s, Apply(cfg, s, step))
  }

  // ---------------------------------------------------------------------------------------------
  // Steps that do work on a word

  lemma WorkHelps(cfg: Config, s: State, step: Step)
    requires Enabled(cfg, s, step) && Work(Apply(cfg, s, step).words) < Work(s.words)
    ensures Helps(cfg, s, step)
  {
  }

  lemma SortLeft(w: Word)
    requires WordOk(w) && InProgress(w) && (SortingArea.OpenCount(w.area) > 0 || SortingArea.AllFixed(w.area))
    ensures Left(Sort(w)) < Left(w)
  {
    SortingArea.PassProgress(w.area, w.text, w.delivered);
    if SortingArea.OpenCount(w.area) == 0 {
      assert Sort(w).completed;
    }
  }

  lemma SortHelps(cfg: Config, s: State, w: nat) returns (step: Step)
    requires Accepts(cfg) && WordInv(cfg, s) && w < |s.words| && InProgress(s.words[w])
    requires SortingArea.OpenCount(s.words[w].area) > 0 || SortingArea.AllFixed(s.words[w].area)
    ensures Helps(cfg, s, step)
  {
    assert s.words[w].sortingFloor in cfg.sorters;
    var q :| 0 <= q < |cfg.sorters| && cfg.sorters[q] == s.words[w].sortingFloor;
    step := SortWord(q, w);
    SortLeft(s.words[w]);
    WorkChange(s.words, w, Sort(s.words[w]));
    assert ApplySort(s, w).words == s.words[w := Sort(s.words[w])];
    WorkHelps(cfg, s, step);
  }

  /** A word that is delivered completely can be sorted further or completed. */
  lemma DeliveredSortable(w: Word)
    requires WordOk(w) && forall c :: 0 <= c < |w.text| ==> w.delivered[c]
    ensures SortingArea.OpenCount(w.area) > 0 || SortingArea.AllFixed(w.area)
  {
    if SortingArea.OpenCount(w.area) == 0 {
      SortingArea.ClosedAndDelivered(w.area, w.text, w.delivered);
    }
  }

  lemma DeliverLeft(w: Word, c: nat)
    requires WordOk(w) && c < |w.text| && w.transit[c]
    ensures Left(Deliver(w, c)) < Left(w)
  {
    DeliverOk(w, c);
    CountUpdate(w.delivered, c, true);
    var i := SortingArea.FreeSlot(w.area, 0);
    assert SortingArea.FixedFlags(SortingArea.Put(w.area, i, w.text[c], c)) == SortingArea.FixedFlags(w.area);
  }

  lemma HandOverHelps(cfg: Config, s: State)
    requires Inv(cfg, s) && s.delivery.pc == Serving(Handing)
    ensures Helps(cfg, s, HandOver)
  {
    var j := s.delivery.batch[0].job.value;
    HeadCarries(s.delivery);
    DueInTransit(s.words, s.carriers, s.delivery, j);
    DeliverLeft(s.words[j.w], j.c);
    WorkChange(s.words, j.w, Deliver(s.words[j.w], j.c));
    WorkHelps(cfg, s, HandOver);
  }

  lemma PickHelps(cfg: Config, s: State, k: nat, j: Job)
    requires Inv(cfg, s) && Enabled(cfg, s, PickChar(k, j))
    ensures Helps(cfg, s, PickChar(k, j))
  {
    var w := s.words[j.w];
    CountUpdate(w.charClaimed, j.c, true);
    WorkChange(s.words, j.w, ClaimChar(w, j.c));
  }

  lemma AdmitHelps(cfg: Config, s: State, p: nat)
    requires Inv(cfg, s) && p < |s.porters| && s.porters[p].pc.Reserved?
    ensures Helps(cfg, s, Admit(p))
  {
    assert PorterOk(s.words, s.porters, p);
    var w := s.porters[p].pc.w;
    WorkChange(s.words, w, s.words[w].(admitted := true, arrivalFloor := s.porters[p].floor, reserved := true));
  }

  // ---------------------------------------------------------------------------------------------
  // Steps that bring the carriers closer to the floor f where the target word arrived

  /** A step that leaves the words alone helps when it shortens the distance. */
  lemma ShorterHelps(cfg: Config, s: State, step: Step)
    requires Enabled(cfg, s, step) && Apply(cfg, s, step).words == s.words && Target(s.words, 0) < |s.words|
    requires var f := s.words[Target(s.words, 0)].arrivalFloor; Distance(Apply(cfg, s, step), f) < Distance(s, f)
    ensures Helps(cfg, s, step)
  {
  }

  lemma EnterCost(l: Lift, i: nat, r: Request, f: nat)
    requires i < |l.table| && l.table[i].Free? && r.Request?
    ensures LiftCost(l.(table := l.table[i := r]), f) == LiftCost(l, f) + 12 + Far(r.to, f)
  {
    TallyUpdate(l.table, i, r, Used);
    TallyUpdate(l.table, i, r, Away(f));
  }

  /** A step that touches one elevator and some carriers changes the distance by what these cost. */
  lemma DistanceChange(s: State, t: State, kind: Kind, f: nat)
    requires LiftOf(t, Other(kind)) == LiftOf(s, Other(kind)) && t.agenda == s.agenda
    ensures Distance(t, f) - Distance(s, f) ==
            Sum(CarrierCosts(t.carriers, f)) - Sum(CarrierCosts(s.carriers, f))
            + LiftCost(LiftOf(t, kind), f) - LiftCost(LiftOf(s, kind), f)
  {
    DistanceSplit(s, kind, f);
    DistanceSplit(t, kind, f);
  }

  lemma EnterShortens(s: State, k: nat, kind: Kind, r: Request, f: nat)
    requires k < |s.carriers| && FirstFree(LiftOf(s, kind).table, 0) != -1 && s.carriers[k].events == 0 && r.Request?
    requires s.carriers[k].pc.Hold? || (s.carriers[k].pc.Ask? && r.to == s.carriers[k].pc.to)
    ensures Distance(Enter(s, k, kind, r), f) < Distance(s, f)
  {
    var l := LiftOf(s, kind);
    var i := FirstFree(l.table, 0);
    var t := Enter(s, k, kind, r);
    EnterCost(l, i, r, f);
    CostChange(s.carriers, k, s.carriers[k].(pc := Post(kind)), f);
    assert LiftOf(t, kind) == l.(table := l.table[i := r]) && t.carriers == s.carriers[k := s.carriers[k].(pc := Post(kind))];
    DistanceChange(s, t, kind, f);
  }

  /** A carrier that does not wait has no wake-up pending. */
  lemma NoEvent(cfg: Config, s: State, k: nat)
    requires Inv(cfg, s) && k < |s.carriers| && !Waits(s.carriers, k)
    ensures s.carriers[k].events == 0
  {
    assert Owed(s.delivery, k) + Owed(s.reposition, k) + EventsOf(s.carriers, k) == Bit(Waits(s.carriers, k));
  }

  lemma PlaceHelps(cfg: Config, s: State, k: nat)
    requires Inv(cfg, s) && Enabled(cfg, s, PlaceDirect(k))
    ensures Helps(cfg, s, PlaceDirect(k))
  {
    var j := s.carriers[k].pc.job;
    HolderCounted(s.carriers, k);
    DueInTransit(s.words, s.carriers, s.delivery, j);
    DeliverLeft(s.words[j.w], j.c);
    WorkChange(s.words, j.w, Deliver(s.words[j.w], j.c));
  }

  lemma DeliveryHelps(cfg: Config, s: State, k: nat)
    requires Inv(cfg, s) && Enabled(cfg, s, EnterDelivery(k)) && Target(s.words, 0) < |s.words|
    ensures Helps(cfg, s, EnterDelivery(k))
  {
    var j := s.carriers[k].pc.job;
    NoEvent(cfg, s, k);
    EnterShortens(s, k, Delivery, Request(k, s.carriers[k].floor, s.words[j.w].sortingFloor, Some(j)),
                  s.words[Target(s.words, 0)].arrivalFloor);
    ShorterHelps(cfg, s, EnterDelivery(k));
  }

  lemma HoldHelps(cfg: Config, s: State, k: nat) returns (step: Step)
    requires Inv(cfg, s) && k < |s.carriers| && s.carriers[k].pc.Hold? && Target(s.words, 0) < |s.words|
    ensures Helps(cfg, s, step)
  {
    var j := s.carriers[k].pc.job;
    HolderCounted(s.carriers, k);
    DueInTransit(s.words, s.carriers, s.delivery, j);
    assert ValidJob(s.words, j);
    if s.words[j.w].sortingFloor == s.carriers[k].floor {
      step := PlaceDirect(k);
      PlaceHelps(cfg, s, k);
    } else {
      step := EnterDelivery(k);
      RoomInTable(cfg, s, Delivery);
      DeliveryHelps(cfg, s, k);
    }
  }

  lemma AskHelps(cfg: Config, s: State, k: nat)
    requires Inv(cfg, s) && k < |s.carriers| && s.carriers[k].pc.Ask? && Target(s.words, 0) < |s.words|
    ensures Helps(cfg, s, EnterReposition(k))
  {
    RoomInTable(cfg, s, Reposition);
    NoEvent(cfg, s, k);
    EnterShortens(s, k, Reposition, Request(k, s.carriers[k].floor, s.carriers[k].pc.to, None),
                  s.words[Target(s.words, 0)].arrivalFloor);
    ShorterHelps(cfg, s, EnterReposition(k));
  }

  lemma PostHelps(cfg: Config, s: State, k: nat)
    requires k < |s.carriers| && s.carriers[k].pc.Post? && Target(s.words, 0) < |s.words|
    ensures Helps(cfg, s, PostItem(k))
  {
    CostChange(s.carriers, k, s.carriers[k].(pc := Wait), s.words[Target(s.words, 0)].arrivalFloor);
    ShorterHelps(cfg, s, PostItem(k));
  }

  lemma WakeHelps(cfg: Config, s: State, k: nat)
    requires k < |s.carriers| && s.carriers[k].pc == Wait && s.carriers[k].events > 0 && Target(s.words, 0) < |s.words|
    ensures Helps(cfg, s, Wake(k))
  {
    CostChange(s.carriers, k, s.carriers[k].(pc := Scan, events := s.carriers[k].events - 1),
               s.words[Target(s.words, 0)].arrivalFloor);
    ShorterHelps(cfg, s, Wake(k));
  }

  lemma GiveUpHelps(cfg: Config, s: State, k: nat)
    requires Inv(cfg, s) && k < |s.carriers| && s.carriers[k].pc == Scan && s.completedWords < |s.words|
    requires Target(s.words, 0) < |s.words| && s.carriers[k].floor != s.words[Target(s.words, 0)].arrivalFloor
    ensures Helps(cfg, s, GiveUp(k, s.words[Target(s.words, 0)].arrivalFloor))
  {
    var f := s.words[Target(s.words, 0)].arrivalFloor;
    CostChange(s.carriers, k, s.carriers[k].(pc := Ask(f)), f);
    ShorterHelps(cfg, s, GiveUp(k, f));
  }

  lemma SpawnHelps(cfg: Config, s: State)
    requires Inv(cfg, s) && s.carriers == [] && Target(s.words, 0) < |s.words|
    ensures Helps(cfg, s, SpawnCarrier)
  {
    var f := s.words[Target(s.words, 0)].arrivalFloor;
    var c := LetterCarrier(s.agenda[0], Scan, 0);
    assert CarrierCosts([] + [c], f) == [CarrierCost(c, f)];
    assert [CarrierCost(c, f)][..0] == [];
    ShorterHelps(cfg, s, SpawnCarrier);
  }

  // The elevators

  lemma TakeItemHelps(cfg: Config, s: State, kind: Kind)
    requires LiftOf(s, kind).pc == Idle && LiftOf(s, kind).items > 0 && Target(s.words, 0) < |s.words|
    ensures Helps(cfg, s, TakeItem(kind))
  {
    ShorterHelps(cfg, s, TakeItem(kind));
  }

  lemma BatchShortens(l: Lift, kind: Kind, cap: int, f: nat)
    requires (l.dir == 1 || l.dir == -1) && l.pc == Collecting && l.batch == [] && Tally(l.table, Used) > 0
    ensures LiftCost(WithBatch(l, kind, cap), f) < LiftCost(l, f)
  {
    CollectConserves(l.table, kind, l.dir, l.floor, cap, Used);
    CollectConserves(l.table, kind, l.dir, l.floor, cap, Away(f));
    CollectProgress(l.table, kind, l.dir, l.floor, cap);
    TallyExtremes(Collect(l.table, kind, l.dir, l.floor, cap).batch, Used);
    assert Tally(l.batch, Used) == 0 && Tally(l.batch, Away(f)) == 0;
  }

  lemma TakeBatchHelps(cfg: Config, s: State, kind: Kind)
    requires Inv(cfg, s) && LiftOf(s, kind).pc == Collecting && Tally(LiftOf(s, kind).table, Used) > 0
    requires Target(s.words, 0) < |s.words|
    ensures Helps(cfg, s, TakeBatch(kind))
  {
    BatchShortens(LiftOf(s, kind), kind, CapacityOf(cfg, kind), s.words[Target(s.words, 0)].arrivalFloor);
    ShorterHelps(cfg, s, TakeBatch(kind));
  }

  /** The request in an elevator's hands names an existing carrier, on an existing floor. */
  lemma HeadExists(cfg: Config, s: State, kind: Kind)
    requires LiftInv(cfg, s, kind) && LiftOf(s, kind).pc.Serving?
    ensures HeadIn(s, kind)
    ensures s.carriers[LiftOf(s, kind).batch[0].carrier].events == 0
    ensures Waits(s.carriers, LiftOf(s, kind).batch[0].carrier)
  {
    HeadWaits(s.carriers, LiftOf(s, kind), LiftOf(s, Other(kind)));
  }

  /** An elevator that has arrived has less to do, and its carriers cost the same. */
  lemma ReachCost(s: State, kind: Kind, f: nat)
    requires HeadIn(s, kind) && BetweenFloors(LiftOf(s, kind))
    ensures LiftCost(LiftOf(ApplyReach(s, kind), kind), f) < LiftCost(LiftOf(s, kind), f)
    ensures LiftOf(ApplyReach(s, kind), Other(kind)) == LiftOf(s, Other(kind))
  {
  }

  lemma ReachShortens(s: State, kind: Kind, f: nat)
    requires HeadIn(s, kind) && BetweenFloors(LiftOf(s, kind))
    requires s.carriers[LiftOf(s, kind).batch[0].carrier].events == 0 && Waits(s.carriers, LiftOf(s, kind).batch[0].carrier)
    ensures Distance(ApplyReach(s, kind), f) < Distance(s, f) && ApplyReach(s, kind).words == s.words
  {
    var l := LiftOf(s, kind);
    CostChange(s.carriers, l.batch[0].carrier, s.carriers[l.batch[0].carrier].(floor := l.batch[0].to), f);
    ReachCost(s, kind, f);
    DistanceSplit(s, kind, f);
    DistanceSplit(ApplyReach(s, kind), kind, f);
  }

  lemma SignalCost(l: Lift, kind: Kind, f: nat)
    requires l.batch != [] && l.batch[0].Request? && l.pc == Serving(Signalling)
    ensures LiftCost(NextRequest(l.(batch := l.batch[1..]), kind), f) + 3 + Far(l.batch[0].to, f) <= LiftCost(l, f)
  {
    TallyPop(l.batch, Used);
    TallyPop(l.batch, Away(f));
  }

  /** The distance, seen from one of the elevators. */
  lemma DistanceSplit(s: State, kind: Kind, f: nat)
    ensures Distance(s, f) == Sum(CarrierCosts(s.carriers, f)) + LiftCost(LiftOf(s, kind), f) + LiftCost(LiftOf(s, Other(kind)), f) + 50 * |s.agenda|
  {
  }

  /** What signalling the first carrier of the batch changes. */
  lemma SignalFrame(s: State, kind: Kind)
    requires HeadIn(s, kind) && LiftOf(s, kind).pc == Serving(Signalling)
    ensures var t := ApplySignal(s, kind);
      var l := LiftOf(s, kind);
      var k := l.batch[0].carrier;
      && LiftOf(t, kind) == NextRequest(l.(batch := l.batch[1..]), kind) && LiftOf(t, Other(kind)) == LiftOf(s, Other(kind))
      && t.carriers == s.carriers[k := s.carriers[k].(events := s.carriers[k].events + 1)]
      && t.agenda == s.agenda && t.words == s.words
  {
  }

  lemma SignalledCost(c: LetterCarrier, f: nat)
    requires c.events == 0 && (c.pc.Post? || c.pc == Wait)
    ensures CarrierCost(c.(events := c.events + 1), f) == CarrierCost(c, f) + Far(c.floor, f) + 1
  {
  }

  /** Dropping the request costs more than what its carrier has still to notice. */
  lemma SignalledFalls(s: State, t: State, kind: Kind, f: nat, k: nat, l: Lift, m: Lift)
    requires k < |s.carriers| && l == LiftOf(s, kind) && m == LiftOf(t, kind) && LiftOf(t, Other(kind)) == LiftOf(s, Other(kind))
    requires t.agenda == s.agenda
    requires t.carriers == s.carriers[k := s.carriers[k].(events := s.carriers[k].events + 1)]
    requires s.carriers[k].events == 0 && (s.carriers[k].pc.Post? || s.carriers[k].pc == Wait)
    requires LiftCost(m, f) + 3 + Far(s.carriers[k].floor, f) <= LiftCost(l, f)
    ensures Distance(t, f) < Distance(s, f)
  {
    SignalledCost(s.carriers[k], f);
    CostChange(s.carriers, k, s.carriers[k].(events := s.carriers[k].events + 1), f);
    DistanceSplit(s, kind, f);
    DistanceSplit(t, kind, f);
  }

  lemma SignalShortens(s: State, kind: Kind, f: nat)
    requires HeadIn(s, kind) && LiftOf(s, kind).pc == Serving(Signalling)
    requires ArrivedOk(s.carriers, LiftOf(s, kind))
    requires s.carriers[LiftOf(s, kind).batch[0].carrier].events == 0 && Waits(s.carriers, LiftOf(s, kind).batch[0].carrier)
    ensures Distance(ApplySignal(s, kind), f) < Distance(s, f) && ApplySignal(s, kind).words == s.words
  {
    var l := LiftOf(s, kind);
    SignalFrame(s, kind);
    SignalCost(l, kind, f);
    SignalledFalls(s, ApplySignal(s, kind), kind, f, l.batch[0].carrier, l, NextRequest(l.(batch := l.batch[1..]), kind));
  }

  lemma LeaveCost(s: State, kind: Kind, f: nat)
    requires HeadIn(s, kind) && LiftOf(s, kind).pc == Serving(Leaving)
    ensures var t := ApplyLeave(s, kind);
      && LiftCost(LiftOf(t, kind), f) < LiftCost(LiftOf(s, kind), f) && LiftOf(t, Other(kind)) == LiftOf(s, Other(kind))
      && t.carriers == s.carriers && t.agenda == s.agenda && t.words == s.words
  {
  }

  lemma LeaveShortens(s: State, kind: Kind, f: nat)
    requires HeadIn(s, kind) && LiftOf(s, kind).pc == Serving(Leaving)
    ensures Distance(ApplyLeave(s, kind), f) < Distance(s, f) && ApplyLeave(s, kind).words == s.words
  {
    LeaveCost(s, kind, f);
    DistanceChange(s, ApplyLeave(s, kind), kind, f);
  }

  lemma ReportCost(s: State, kind: Kind, f: nat)
    requires var l := LiftOf(s, kind);
      l.pc.Serving? && l.pc.phase.Reporting? && l.pc.phase.vacated < |s.counts| && l.pc.phase.vacated < |s.respawn|
    ensures var t := ApplyReport(s, kind);
      && LiftCost(LiftOf(t, kind), f) < LiftCost(LiftOf(s, kind), f) && LiftOf(t, Other(kind)) == LiftOf(s, Other(kind))
      && t.carriers == s.carriers && t.agenda == s.agenda && t.words == s.words
  {
  }

  lemma ReportShortens(cfg: Config, s: State, kind: Kind, f: nat)
    requires Enabled(cfg, s, ReportEmpty(kind))
    ensures Distance(ApplyReport(s, kind), f) < Distance(s, f) && ApplyReport(s, kind).words == s.words
  {
    ReportCost(s, kind, f);
    DistanceChange(s, ApplyReport(s, kind), kind, f);
  }

  lemma ServingHelps(cfg: Config, s: State, kind: Kind) returns (step: Step)
    requires Inv(cfg, s) && LiftOf(s, kind).pc.Serving? && Target(s.words, 0) < |s.words|
    ensures Helps(cfg, s, step)
  {
    BothSides(cfg, s, kind);
    HeadExists(cfg, s, kind);
    if LiftOf(s, kind).pc.phase == Handing {
      step := HandOver;
      HandOverHelps(cfg, s);
    } else {
      step := MovingHelps(cfg, s, kind);
    }
  }

  lemma LeaveHelps(cfg: Config, s: State, kind: Kind)
    requires HeadIn(s, kind) && LiftOf(s, kind).pc == Serving(Leaving) && Target(s.words, 0) < |s.words|
    ensures Helps(cfg, s, LeaveFloor(kind))
  {
    LeaveShortens(s, kind, s.words[Target(s.words, 0)].arrivalFloor);
    ShorterHelps(cfg, s, LeaveFloor(kind));
  }

  lemma ReachHelps(cfg: Config, s: State, kind: Kind)
    requires LiftInv(cfg, s, kind) && BetweenFloors(LiftOf(s, kind)) && Target(s.words, 0) < |s.words|
    ensures Helps(cfg, s, ReachFloor(kind))
  {
    HeadExists(cfg, s, kind);
    ReachShortens(s, kind, s.words[Target(s.words, 0)].arrivalFloor);
    ShorterHelps(cfg, s, ReachFloor(kind));
  }

  lemma ReportHelps(cfg: Config, s: State, kind: Kind)
    requires Enabled(cfg, s, ReportEmpty(kind)) && Target(s.words, 0) < |s.words|
    ensures Helps(cfg, s, ReportEmpty(kind))
  {
    ReportShortens(cfg, s, kind, s.words[Target(s.words, 0)].arrivalFloor);
    ShorterHelps(cfg, s, ReportEmpty(kind));
  }

  lemma SignalApplied(cfg: Config, s: State, kind: Kind)
    requires HeadIn(s, kind) && LiftOf(s, kind).pc == Serving(Signalling)
    ensures Enabled(cfg, s, SignalCarrier(kind)) && Apply(cfg, s, SignalCarrier(kind)) == ApplySignal(s, kind)
  {
  }

  lemma SignalHelps(cfg: Config, s: State, kind: Kind)
    requires LiftInv(cfg, s, kind) && LiftOf(s, kind).pc == Serving(Signalling) && Target(s.words, 0) < |s.words|
    ensures Helps(cfg, s, SignalCarrier(kind))
  {
    HeadExists(cfg, s, kind);
    SignalApplied(cfg, s, kind);
    SignalShortens(s, kind, s.words[Target(s.words, 0)].arrivalFloor);
    ShorterHelps(cfg, s, SignalCarrier(kind));
  }

  lemma MovingHelps(cfg: Config, s: State, kind: Kind) returns (step: Step)
    requires LiftInv(cfg, s, kind) && LiftOf(s, kind).pc.Serving? && LiftOf(s, kind).pc.phase != Handing
    requires Target(s.words, 0) < |s.words|
    ensures Helps(cfg, s, step)
  {
    HeadExists(cfg, s, kind);
    match LiftOf(s, kind).pc.phase
    case Leaving =>
      LeaveHelps(cfg, s, kind);
      step := LeaveFloor(kind);
    case Reaching(_) =>
      ReachHelps(cfg, s, kind);
      step := ReachFloor(kind);
    case Reporting(_) =>
      ReportHelps(cfg, s, kind);
      step := ReportEmpty(kind);
    case Signalling =>
      SignalHelps(cfg, s, kind);
      step := SignalCarrier(kind);
  }

  // ---------------------------------------------------------------------------------------------
  // A step that helps always exists

  /** No carrier is busy and no elevator has anything to do. */
  ghost predicate Quiet(s: State) {
    && (forall k :: 0 <= k < |s.carriers| ==>
          (s.carriers[k].pc in {Scan, Gone}) || (s.carriers[k].pc == Wait && s.carriers[k].events == 0))
    && (forall kind :: !LiftOf(s, kind).pc.Serving? && Tally(LiftOf(s, kind).table, Used) == 0)
  }

  lemma BusyHelps(cfg: Config, s: State) returns (step: Step)
    requires Inv(cfg, s) && Target(s.words, 0) < |s.words| && !Quiet(s)
    ensures Helps(cfg, s, step)
  {
    if k :| 0 <= k < |s.carriers| && s.carriers[k].pc.Hold? {
      step := HoldHelps(cfg, s, k);
    } else if k :| 0 <= k < |s.carriers| && s.carriers[k].pc.Ask? {
      AskHelps(cfg, s, k);
      step := EnterReposition(k);
    } else if k :| 0 <= k < |s.carriers| && s.carriers[k].pc.Post? {
      PostHelps(cfg, s, k);
      step := PostItem(k);
    } else if k :| 0 <= k < |s.carriers| && s.carriers[k].pc == Wait && s.carriers[k].events > 0 {
      WakeHelps(cfg, s, k);
      step := Wake(k);
    } else {
      var kind :| LiftOf(s, kind).pc.Serving? || Tally(LiftOf(s, kind).table, Used) > 0;
      step := LiftHelps(cfg, s, kind);
    }
  }

  lemma LiftHelps(cfg: Config, s: State, kind: Kind) returns (step: Step)
    requires Inv(cfg, s) && Target(s.words, 0) < |s.words|
    requires LiftOf(s, kind).pc.Serving? || Tally(LiftOf(s, kind).table, Used) > 0
    requires forall k :: 0 <= k < |s.carriers| ==> s.carriers[k].pc != Post(kind)
    ensures Helps(cfg, s, step)
  {
    if LiftOf(s, kind).pc.Serving? {
      step := ServingHelps(cfg, s, kind);
    } else if LiftOf(s, kind).pc == Collecting {
      TakeBatchHelps(cfg, s, kind);
      step := TakeBatch(kind);
    } else {
      CountExtremes(PostFlags(s.carriers, kind));
      TakeItemHelps(cfg, s, kind);
      step := TakeItem(kind);
    }
  }

  /** In a quiet state nobody waits and nothing is in transit. */
  lemma QuietState(cfg: Config, s: State)
    requires Inv(cfg, s) && Quiet(s)
    ensures forall k :: 0 <= k < |s.carriers| ==> s.carriers[k].pc == Scan || s.carriers[k].pc == Gone
    ensures forall j: Job :: !InTransit(s.words, j)
  {
    assert LiftOf(s, Delivery) == s.delivery && LiftOf(s, Reposition) == s.reposition;
    TallyExtremes(s.delivery.table, Used);
    TallyExtremes(s.reposition.table, Used);
    forall k | 0 <= k < |s.carriers|
      ensures s.carriers[k].pc != Wait
    {
      assert Owed(s.delivery, k) + Owed(s.reposition, k) + EventsOf(s.carriers, k) == Bit(Waits(s.carriers, k));
      TallyExtremes(s.delivery.table, Carrier(k));
      TallyExtremes(s.reposition.table, Carrier(k));
    }
    forall j: Job
      ensures !InTransit(s.words, j)
    {
      assert Tally(s.delivery.table, Carrying(j)) + Tally(s.delivery.batch, Carrying(j)) + Holders(s.carriers, j)
          == Bit(InTransit(s.words, j));
      TallyExtremes(s.delivery.table, Carrying(j));
      CountExtremes(HoldFlags(s.carriers, j));
    }
  }

  lemma NotDone(cfg: Config, s: State, w: nat)
    requires Inv(cfg, s) && w < |s.words| && !s.words[w].completed
    ensures s.completedWords < |s.words|
    ensures forall k :: 0 <= k < |s.carriers| ==> s.carriers[k].pc != Gone
  {
    CountExtremes(CompletedFlags(s.words));
    assert !CompletedFlags(s.words)[w];
  }

  lemma QuietHelps(cfg: Config, s: State) returns (step: Step)
    requires Accepts(cfg) && Inv(cfg, s) && Target(s.words, 0) < |s.words| && Quiet(s)
    ensures Helps(cfg, s, step)
  {
    var t := Target(s.words, 0);
    var w := s.words[t];
    NotDone(cfg, s, t);
    QuietState(cfg, s);
    if c :| 0 <= c < |w.text| && !w.delivered[c] {
      var j := Job(t, c);
      assert !InTransit(s.words, j) && CharOk(w, c);
      if s.carriers == [] {
        SpawnHelps(cfg, s);
        step := SpawnCarrier;
      } else if s.carriers[0].floor == w.arrivalFloor {
        PickHelps(cfg, s, 0, j);
        step := PickChar(0, j);
      } else {
        GiveUpHelps(cfg, s, 0);
        step := GiveUp(0, w.arrivalFloor);
      }
    } else {
      DeliveredSortable(w);
      step := SortHelps(cfg, s, t);
    }
  }

  // While no admitted word is incomplete

  lemma FloorsFree(cfg: Config, s: State)
    requires Inv(cfg, s) && Target(s.words, 0) == |s.words|
    requires forall p :: 0 <= p < |s.porters| ==> !s.porters[p].pc.Reserved?
    ensures forall f :: 0 <= f < cfg.floors ==> s.active[f] == 0
  {
    forall f | 0 <= f < cfg.floors
      ensures s.active[f] == 0
    {
      CountExtremes(PlaceFlags(s.words, s.porters, f));
      assert forall w :: 0 <= w < |s.words| ==> !InProgress(s.words[w]) && WordOk(s.words[w]);
    }
  }

  lemma {:induction false} TargetSame(words: seq<Word>, w: nat, x: Word, from: nat)
    requires w < |words| && from <= |words| && InProgress(x) == InProgress(words[w])
    ensures Target(words[w := x], from) == Target(words, from)
    decreases |words| - from
  {
    if from < |words| && !InProgress(words[from]) {
      TargetSame(words, w, x, from + 1);
    }
  }

  /** A word carrier's step that neither admits nor completes helps when it lowers the carriers' cost. */
  lemma PorterHelps(cfg: Config, s: State, step: Step, w: nat, x: Word, p: nat, q: Porter)
    requires Enabled(cfg, s, step) && Target(s.words, 0) == |s.words| && w < |s.words| && p < |s.porters|
    requires Apply(cfg, s, step).words == s.words[w := x] && Apply(cfg, s, step).porters == s.porters[p := q]
    requires x == s.words[w].(claimed := x.claimed, owner := x.owner) && PorterCost(q) < PorterCost(s.porters[p])
    ensures Helps(cfg, s, step)
  {
    WorkChange(s.words, w, x);
    TargetSame(s.words, w, x, 0);
    PorterCostChange(s.porters, p, q);
  }

  lemma ReserveHelps(cfg: Config, s: State, p: nat)
    requires Accepts(cfg) && Inv(cfg, s) && Target(s.words, 0) == |s.words| && p < |s.porters| && s.porters[p].pc.Claimed?
    requires forall q :: 0 <= q < |s.porters| ==> !s.porters[q].pc.Reserved?
    ensures Helps(cfg, s, ReserveFloors(p))
  {
    assert PorterOk(s.words, s.porters, p);
    var w := s.porters[p].pc.w;
    FloorsFree(cfg, s);
    PorterHelps(cfg, s, ReserveFloors(p), w, s.words[w], p, s.porters[p].(pc := Reserved(w)));
  }

  lemma PutBackHelps(cfg: Config, s: State, p: nat)
    requires Inv(cfg, s) && Target(s.words, 0) == |s.words| && p < |s.porters| && s.porters[p].pc.Refused?
    ensures Helps(cfg, s, PutBack(p))
  {
    assert PorterOk(s.words, s.porters, p);
    var w := s.porters[p].pc.w;
    PorterHelps(cfg, s, PutBack(p), w, s.words[w].(claimed := false, owner := -1), p, s.porters[p].(pc := Seek));
  }

  lemma ClaimHelps(cfg: Config, s: State, v: nat)
    requires Inv(cfg, s) && Target(s.words, 0) == |s.words| && s.porters != []
    requires forall q :: 0 <= q < |s.porters| ==> s.porters[q].pc == Seek
    requires v < |s.words| && !s.words[v].completed
    ensures Helps(cfg, s, ClaimWord(0))
  {
    assert !InProgress(s.words[v]) && ClaimOk(s.words, s.porters, v);
    assert Available(s.words)[v];
    NextWordFinds(Available(s.words), s.cursor, v);
    var w := NextWord(Available(s.words), s.cursor, 0);
    PorterHelps(cfg, s, ClaimWord(0), w, s.words[w].(claimed := true, owner := 0), 0, s.porters[0].(pc := Claimed(w)));
  }

  lemma AdmissionHelps(cfg: Config, s: State) returns (step: Step)
    requires Accepts(cfg) && Inv(cfg, s) && Target(s.words, 0) == |s.words| && !AllCompleted(s) && s.porters != []
    ensures Helps(cfg, s, step)
  {
    if p :| 0 <= p < |s.porters| && s.porters[p].pc.Reserved? {
      AdmitHelps(cfg, s, p);
      step := Admit(p);
    } else if p :| 0 <= p < |s.porters| && s.porters[p].pc.Refused? {
      PutBackHelps(cfg, s, p);
      step := PutBack(p);
    } else if p :| 0 <= p < |s.porters| && s.porters[p].pc.Claimed? {
      ReserveHelps(cfg, s, p);
      step := ReserveFloors(p);
    } else {
      var v :| 0 <= v < |s.words| && !s.words[v].completed;
      ClaimHelps(cfg, s, v);
      step := ClaimWord(0);
    }
  }

  /** While a word is incomplete, some process can take a step that brings completion closer. */
  lemma SomeStepHelps(cfg: Config, s: State) returns (step: Step)
    requires Accepts(cfg) && Inv(cfg, s) && s.porters != [] && !AllCompleted(s)
    ensures Helps(cfg, s, step)
  {
    if Target(s.words, 0) == |s.words| {
      step := AdmissionHelps(cfg, s);
    } else if Quiet(s) {
      step := QuietHelps(cfg, s);
    } else {
      step := BusyHelps(cfg, s);
    }
  }

  lemma PortersStay(cfg: Config, s: State, step: Step)
    requires Enabled(cfg, s, step)
    ensures |Apply(cfg, s, step).porters| == |s.porters|
  {
  }

  lemma {:induction false} Completes(cfg: Config, s: State) returns (steps: seq<Step>, t: State)
    requires Accepts(cfg) && Inv(cfg, s) && s.porters != []
    ensures Leads(cfg, s, steps, t) && AllCompleted(t)
    decreases Work(s.words), Detour(s)
  {
    if AllCompleted(s) {
      steps, t := [], s;
    } else {
      var step := SomeStepHelps(cfg, s);
      StepKeepsInv(cfg, s, step);
      PortersStay(cfg, s, step);
      var rest;
      rest, t := Completes(cfg, Apply(cfg, s, step));
      steps := [step] + rest;
      assert steps[1..] == rest;
    }
  }

  lemma {:induction false} PortersExist(cfg: Config, s: State, steps: seq<Step>, t: State)
    requires Leads(cfg, s, steps, t) && s.porters != []
    ensures t.porters != []
    decreases |steps|
  {
    if steps != [] {
      PortersStay(cfg, s, steps[0]);
      PortersExist(cfg, Apply(cfg, s, steps[0]), steps[1..], t);
    }
  }

  /** No dead ends: every reachable state leads to one in which all words are completed, for any words,
      floors, capacities and numbers of processes. */
  lemma NoDeadEnds(cfg: Config, s: State)
    requires Accepts(cfg) && Reachable(cfg, s)
    ensures exists steps, t :: Leads(cfg, s, steps, t) && AllCompleted(t)
  {
    ReachableInv(cfg, s);
    var s0, past :| Init(cfg, s0) && Leads(cfg, s0, past, s);
    PortersExist(cfg, s0, past, s);
    var steps, t := Completes(cfg, s);
  }
}
