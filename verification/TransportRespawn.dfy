/** Floors that lose their last letter carrier: each is reported for new carriers, and gets them.
    HW3/shared_memory.c:255-302, HW3/letter_carrier.c:112-123. */
module TransportRespawn {
  import opened Elevator
  import opened Transport
  import opened TransportInvariant

  /** The elevator has emptied floor f and has still to report it. */
  predicate WillReport(carriers: seq<LetterCarrier>, l: Lift, f: nat) {
    l.pc.Serving? && match l.pc.phase
      case Reaching(emptied) => emptied && Moving(carriers, l, f)
      case Reporting(vacated) => vacated == f
      case _ => false
  }

  /** Floor f is marked for new carriers, or an elevator is about to look whether to mark it. */
  predicate Reported(s: State, f: nat) {
    (f < |s.respawn| && s.respawn[f]) || WillReport(s.carriers, s.delivery, f) || WillReport(s.carriers, s.reposition, f)
  }

  predicate Occupied(s: State, f: nat) {
    f < |s.counts| && s.counts[f] > 0
  }

  /** Along the run some state counts a carrier on floor f. */
  ghost predicate BeenOccupied(cfg: Config, s: State, steps: seq<Step>, f: nat)
    decreases |steps|
  {
    Occupied(s, f) || (steps != [] && Enabled(cfg, s, steps[0]) && BeenOccupied(cfg, Apply(cfg, s, steps[0]), steps[1..], f))
  }

  /** What matters here of a step: occupied or reported stays, and only an occupied floor becomes so. */
  predicate Attends(s: State, t: State, f: nat) {
    Occupied(t, f) || Reported(t, f) <==> Occupied(s, f) || Reported(s, f) || Occupied(t, f)
  }

  // ----- steps that do not touch the counts

  predicate Unmoved(cs: seq<LetterCarrier>, ds: seq<LetterCarrier>) {
    |cs| == |ds| && forall k :: 0 <= k < |cs| ==> ds[k].floor == cs[k].floor
  }

  /** The elevator is in the same phase of the same request, as far as reports go. */
  predicate SamePhase(l: Lift, m: Lift) {
    (BetweenFloors(l) || ReportsNow(l) || BetweenFloors(m) || ReportsNow(m)) ==> m.pc == l.pc && m.batch == l.batch
  }

  predicate ReportsNow(l: Lift) {
    l.pc.Serving? && l.pc.phase.Reporting?
  }

  predicate Still(s: State, t: State) {
    && t.counts == s.counts && t.respawn == s.respawn && Unmoved(s.carriers, t.carriers)
    && SamePhase(s.delivery, t.delivery) && SamePhase(s.reposition, t.reposition)
  }

  lemma StillAttends(s: State, t: State, f: nat)
    requires Still(s, t)
    ensures Attends(s, t, f)
  {
  }

  lemma PorterStill(cfg: Config, s: State, step: Step)
    requires Enabled(cfg, s, step) && OfPorter(step)
    ensures Still(s, Apply(cfg, s, step))
  {
  }

  lemma CarrierStill(cfg: Config, s: State, step: Step)
    requires Enabled(cfg, s, step) && OfCarrier(step)
    ensures Still(s, Apply(cfg, s, step))
  {
  }

  lemma TakeStill(cfg: Config, s: State, step: Step)
    requires Enabled(cfg, s, step) && (step.TakeItem? || step.TakeBatch? || step.HandOver?)
    ensures Still(s, Apply(cfg, s, step))
  {
  }

  lemma SignalStill(cfg: Config, s: State, kind: Kind)
    requires Enabled(cfg, s, SignalCarrier(kind))
    ensures Still(s, Apply(cfg, s, SignalCarrier(kind)))
  {
  }

  lemma SortOrCheckStill(cfg: Config, s: State, step: Step)
    requires Enabled(cfg, s, step) && (step.SortWord? || step.CheckFloor?)
    ensures Still(s, Apply(cfg, s, step))
  {
  }

  // ----- the three regions of a move, and the arrival of new carriers

  lemma LeaveAttends(cfg: Config, s: State, kind: Kind, f: nat)
    requires LiftInv(cfg, s, kind) && HeadIn(s, kind) && LiftOf(s, kind).pc == Serving(Leaving)
    ensures Attends(s, ApplyLeave(s, kind), f)
  {
    var l := LiftOf(s, kind);
    CountPositive(s.carriers, s.counts, l, LiftOf(s, Other(kind)), cfg.floors);
  }

  /** Setting the carrier down turns a floor found empty into a report to make, and leaves the other
      elevator's reports as they are. */
  lemma ReachReports(cs: seq<LetterCarrier>, l: Lift, o: Lift, next: Phase, f: nat)
    requires BetweenFloors(l) && l.batch != [] && l.batch[0].Request? && l.batch[0].carrier < |cs| && l.batch[0].to >= 0
    requires next == if l.pc.phase.emptied then Reporting(cs[l.batch[0].carrier].floor) else Signalling
    requires forall i :: 0 <= i < |o.batch| ==> !Matches(o.batch[i], Carrier(l.batch[0].carrier))
    ensures var k := l.batch[0].carrier;
            var ds := cs[k := cs[k].(floor := l.batch[0].to)];
            && (WillReport(ds, l.(pc := Serving(next)), f) <==> WillReport(cs, l, f))
            && (WillReport(ds, o, f) <==> WillReport(cs, o, f))
  {
    if o.batch != [] {
      assert !Matches(o.batch[0], Carrier(l.batch[0].carrier));
    }
  }

  lemma ReachAttends(cfg: Config, s: State, kind: Kind, f: nat)
    requires LiftInv(cfg, s, kind) && HeadIn(s, kind) && BetweenFloors(LiftOf(s, kind))
    ensures Attends(s, ApplyReach(s, kind), f)
  {
    var l, o := LiftOf(s, kind), LiftOf(s, Other(kind));
    var next := if l.pc.phase.emptied then Reporting(s.carriers[l.batch[0].carrier].floor) else Signalling;
    HeadWaits(s.carriers, l, o);
    ReachFrame(s, kind, next);
    ReachReports(s.carriers, l, o, next, f);
    CountedAttends(s, ApplyReach(s, kind), kind, l.batch[0].to, f);
  }

  lemma CountedAttends(s: State, t: State, kind: Kind, to: nat, f: nat)
    requires to < |s.counts| == |s.respawn| && s.counts[to] >= 0
    requires t.counts == s.counts[to := s.counts[to] + 1] && t.respawn == s.respawn[to := false]
    requires WillReport(t.carriers, LiftOf(t, kind), f) <==> WillReport(s.carriers, LiftOf(s, kind), f)
    requires WillReport(t.carriers, LiftOf(t, Other(kind)), f) <==> WillReport(s.carriers, LiftOf(s, Other(kind)), f)
    ensures Attends(s, t, f)
  {
  }

  lemma ReportAttends(s: State, kind: Kind, f: nat)
    requires ReportsNow(LiftOf(s, kind))
    requires LiftOf(s, kind).pc.phase.vacated < |s.counts| == |s.respawn|
    requires forall g :: 0 <= g < |s.counts| ==> s.counts[g] >= 0
    ensures Attends(s, ApplyReport(s, kind), f)
  {
  }

  lemma SpawnAttends(s: State, f: nat)
    requires s.agenda != [] && s.agenda[0] < |s.counts| == |s.respawn|
    requires forall g :: 0 <= g < |s.counts| ==> s.counts[g] >= 0
    ensures Attends(s, ApplySpawn(s), f)
  {
  }

  predicate Moves(step: Step) {
    step.LeaveFloor? || step.ReachFloor? || step.ReportEmpty? || step.SpawnCarrier?
  }

  lemma MoveAttends(cfg: Config, s: State, step: Step, f: nat)
    requires Inv(cfg, s) && Enabled(cfg, s, step) && Moves(step)
    ensures Attends(s, Apply(cfg, s, step), f)
  {
    match step
    case LeaveFloor(kind) =>
      BothSides(cfg, s, kind);
      LeaveAttends(cfg, s, kind, f);
    case ReachFloor(kind) =>
      BothSides(cfg, s, kind);
      ReachAttends(cfg, s, kind, f);
    case ReportEmpty(kind) =>
      ReportAttends(s, kind, f);
    case SpawnCarrier =>
      SpawnAttends(s, f);
  }

  lemma StepAttends(cfg: Config, s: State, step: Step, f: nat)
    requires Inv(cfg, s) && Enabled(cfg, s, step)
    ensures Attends(s, Apply(cfg, s, step), f)
  {
    if Moves(step) {
      MoveAttends(cfg, s, step, f);
    } else {
      StepStill(cfg, s, step);
      StillAttends(s, Apply(cfg, s, step), f);
    }
  }

  lemma StepStill(cfg: Config, s: State, step: Step)
    requires Enabled(cfg, s, step) && !Moves(step)
    ensures Still(s, Apply(cfg, s, step))
  {
    if OfPorter(step) {
      PorterStill(cfg, s, step);
    } else if OfCarrier(step) {
      CarrierStill(cfg, s, step);
    } else if step.SignalCarrier? {
      SignalStill(cfg, s, step.kind);
    } else if step.SortWord? || step.CheckFloor? {
      SortOrCheckStill(cfg, s, step);
    } else {
      TakeStill(cfg, s, step);
    }
  }

  lemma {:induction false} RunAttends(cfg: Config, s: State, steps: seq<Step>, t: State, f: nat)
    requires Accepts(cfg) && Inv(cfg, s) && Leads(cfg, s, steps, t)
    ensures Occupied(t, f) || Reported(t, f) <==> Reported(s, f) || BeenOccupied(cfg, s, steps, f)
    decreases |steps|
  {
    if steps != [] {
      StepAttends(cfg, s, steps[0], f);
      StepKeepsInv(cfg, s, steps[0]);
      RunAttends(cfg, Apply(cfg, s, steps[0]), steps[1..], t, f);
    }
  }

  /** No floor is forgotten: in every run a floor without carriers is marked for new ones, or an elevator
      is about to look whether to mark it, exactly when it has had a carrier before. */
  lemma EmptiedFloorsAreReported(cfg: Config, s: State, steps: seq<Step>, t: State, f: nat)
    requires Accepts(cfg) && Init(cfg, s) && Leads(cfg, s, steps, t) && f < cfg.floors
    ensures |t.counts| == |t.respawn| == cfg.floors
    ensures t.counts[f] == 0 ==>
      (t.respawn[f] || WillReport(t.carriers, t.delivery, f) || WillReport(t.carriers, t.reposition, f)
       <==> BeenOccupied(cfg, s, steps, f))
  {
    InitInv(cfg, s);
    RunAttends(cfg, s, steps, t, f);
    RunKeepsInv(cfg, s, steps, t);
  }

  /** The parent's answer to a marked floor: as many new carriers as the floor had at the start, unless
      the carriers would become too many. */
  lemma MarkedFloorIsRefilled(cfg: Config, s: State, f: nat) returns (steps: seq<Step>, t: State)
    requires Accepts(cfg) && Enabled(cfg, s, CheckFloor(f)) && |s.carriers| + cfg.carriersPerFloor <= MAX_CARRIERS
    ensures Leads(cfg, s, steps, t) && steps == [CheckFloor(f)] + seq(cfg.carriersPerFloor, i => SpawnCarrier)
    ensures t == s.(counts := s.counts[f := cfg.carriersPerFloor], respawn := s.respawn[f := false],
                    carriers := s.carriers + seq(cfg.carriersPerFloor, i => LetterCarrier(f, Scan, 0)))
  {
    var n := cfg.carriersPerFloor;
    var begun := Apply(cfg, s, CheckFloor(f));
    var spawns := seq(n, i => SpawnCarrier);
    t := Spawned(begun, f, n);
    SpawnAll(cfg, begun, f, n);
    steps := [CheckFloor(f)] + spawns;
    assert steps[1..] == spawns;
  }

  function Spawned(s: State, f: nat, n: nat): State
    requires f < |s.counts| && f < |s.respawn|
  {
    s.(agenda := [], counts := s.counts[f := s.counts[f] + n],
       respawn := s.respawn[f := if n > 0 then false else s.respawn[f]],
       carriers := s.carriers + seq(n, i => LetterCarrier(f, Scan, 0)))
  }

  lemma SpawnOne(s: State, f: nat, n: nat)
    requires n > 0 && s.agenda == seq(n, i => f) && f < |s.counts| && f < |s.respawn|
    ensures ApplySpawn(s).agenda == seq(n - 1, i => f) && Spawned(ApplySpawn(s), f, n - 1) == Spawned(s, f, n)
  {
    var c := LetterCarrier(f, Scan, 0);
    assert seq(n, i => c) == [c] + seq(n - 1, i => c);
    assert s.carriers + seq(n, i => c) == s.carriers + [c] + seq(n - 1, i => c);
  }

  lemma {:induction false} SpawnAll(cfg: Config, s: State, f: nat, n: nat)
    requires s.agenda == seq(n, i => f) && |s.carriers| + n <= MAX_CARRIERS && f < |s.counts| && f < |s.respawn|
    ensures Leads(cfg, s, seq(n, i => SpawnCarrier), Spawned(s, f, n))
    decreases n
  {
    if n == 0 {
      assert Spawned(s, f, n) == s;
    } else {
      SpawnOne(s, f, n);
      SpawnAll(cfg, ApplySpawn(s), f, n - 1);
      assert seq(n, i => SpawnCarrier)[1..] == seq(n - 1, i => SpawnCarrier);
    }
  }
}
