/** What requests say is so: every one names the floor on which its carrier stands, and a delivery leads
    from the floor on which the word of its character arrived to the one on which it is sorted. HW3/letter_carrier.c:69-96, HW3/elevator.c:84-157. */
module TransportRequests {
  import opened Basics
  import opened Elevator
  import opened Words
  import opened Transport
  import opened TransportInvariant

  /** The request is from where its carrier stands; a character rides from the floor on which its word was
      admitted to its word's sorting floor. */
  predicate Truthful(words: seq<Word>, cs: seq<LetterCarrier>, r: Request) {
    r.Request? ==>
      && r.carrier < |cs| && r.from == cs[r.carrier].floor
      && (r.job.Some? ==>
            && r.job.value.w < |words| && words[r.job.value.w].admitted
            && r.from == words[r.job.value.w].arrivalFloor && r.to == words[r.job.value.w].sortingFloor)
  }

  /** A carrier with a character in its hands stands where the word was admitted. */
  predicate HoldsThere(words: seq<Word>, c: LetterCarrier) {
    c.pc.Hold? ==>
      c.pc.job.w < |words| && words[c.pc.job.w].admitted && words[c.pc.job.w].arrivalFloor == c.floor
  }

  ghost predicate AllHoldThere(words: seq<Word>, cs: seq<LetterCarrier>) {
    forall k :: 0 <= k < |cs| ==> HoldsThere(words, cs[k])
  }

  ghost predicate AllTrue(words: seq<Word>, cs: seq<LetterCarrier>, rs: seq<Request>) {
    forall i :: 0 <= i < |rs| ==> Truthful(words, cs, rs[i])
  }

  /** The carrier of the request in hand has been set down on the next floor. */
  predicate SetDown(l: Lift) {
    l.pc.Serving? && (l.pc.phase.Reporting? || l.pc.phase.Signalling?)
  }

  /** The elevator's requests are true, but for the one whose carrier has just been set down; and it
      stands on the floor to which the request in hand goes. */
  ghost predicate LiftTrue(words: seq<Word>, cs: seq<LetterCarrier>, l: Lift) {
    && AllTrue(words, cs, l.table)
    && AllTrue(words, cs, if SetDown(l) && l.batch != [] then l.batch[1..] else l.batch)
    && (l.pc.Serving? && l.batch != [] && l.batch[0].Request? ==> l.floor == l.batch[0].to)
  }

  ghost predicate RequestsTrue(s: State) {
    && LiftTrue(s.words, s.carriers, s.delivery) && LiftTrue(s.words, s.carriers, s.reposition)
    && AllHoldThere(s.words, s.carriers)
  }

  /** Words keep their sorting floors, admitted words where they arrived, and carriers their floors; there
      may be more carriers. */
  predicate SamePlaces(s: State, t: State) {
    && |t.words| == |s.words|
    && (forall w :: 0 <= w < |s.words| ==>
          && t.words[w].sortingFloor == s.words[w].sortingFloor
          && (s.words[w].admitted ==> t.words[w].admitted && t.words[w].arrivalFloor == s.words[w].arrivalFloor))
    && |s.carriers| <= |t.carriers| && forall k :: 0 <= k < |s.carriers| ==> t.carriers[k].floor == s.carriers[k].floor
  }

  lemma StaysTrue(s: State, t: State, l: Lift)
    requires SamePlaces(s, t) && LiftTrue(s.words, s.carriers, l)
    ensures LiftTrue(t.words, t.carriers, l)
  {
  }

  /** Nobody has come to hold a character. */
  predicate SameHolders(cs: seq<LetterCarrier>, ds: seq<LetterCarrier>) {
    |cs| <= |ds| && forall k :: 0 <= k < |ds| && ds[k].pc.Hold? ==> k < |cs| && ds[k].pc == cs[k].pc && ds[k].floor == cs[k].floor
  }

  lemma HoldersStay(s: State, t: State)
    requires SamePlaces(s, t) && SameHolders(s.carriers, t.carriers) && AllHoldThere(s.words, s.carriers)
    ensures AllHoldThere(t.words, t.carriers)
  {
    forall k | 0 <= k < |t.carriers|
      ensures HoldsThere(t.words, t.carriers[k])
    {
      assert t.carriers[k].pc.Hold? ==> HoldsThere(s.words, s.carriers[k]);
    }
  }

  // ----- steps that leave the elevators alone

  lemma PorterStepPlaces(cfg: Config, s: State, step: Step)
    requires Enabled(cfg, s, step) && OfPorter(step)
    requires step.Admit? ==> PorterOk(s.words, s.porters, step.p)
    ensures var t := Apply(cfg, s, step);
            SamePlaces(s, t) && SameHolders(s.carriers, t.carriers) && t.delivery == s.delivery && t.reposition == s.reposition
  {
  }

  lemma OtherStepPlaces(cfg: Config, s: State, step: Step)
    requires Enabled(cfg, s, step) && (step.SortWord? || step.CheckFloor? || step.SpawnCarrier?)
    ensures var t := Apply(cfg, s, step);
            SamePlaces(s, t) && SameHolders(s.carriers, t.carriers) && t.delivery == s.delivery && t.reposition == s.reposition
  {
  }

  lemma CarrierStepPlaces(cfg: Config, s: State, step: Step)
    requires Enabled(cfg, s, step) && OfCarrier(step)
    ensures SamePlaces(s, Apply(cfg, s, step))
  {
  }

  lemma CarrierStepHolders(cfg: Config, s: State, step: Step)
    requires Enabled(cfg, s, step) && OfCarrier(step) && !step.PickChar?
    ensures SameHolders(s.carriers, Apply(cfg, s, step).carriers)
  {
  }

  lemma PickedThere(cfg: Config, s: State, k: nat, j: Job)
    requires Enabled(cfg, s, PickChar(k, j)) && AllHoldThere(s.words, s.carriers)
    ensures var t := Apply(cfg, s, PickChar(k, j)); AllHoldThere(t.words, t.carriers)
  {
    var t := Apply(cfg, s, PickChar(k, j));
    forall i | 0 <= i < |t.carriers|
      ensures HoldsThere(t.words, t.carriers[i])
    {
      assert HoldsThere(s.words, s.carriers[i]);
    }
  }

  /** A carrier enters a request, or posts an item. */
  predicate Entered(l: Lift, m: Lift, r: Request) {
    m == l.(table := m.table, items := m.items) && |m.table| == |l.table|
    && forall i :: 0 <= i < |l.table| ==> m.table[i] == l.table[i] || m.table[i] == r
  }

  lemma EnteredTrue(words: seq<Word>, cs: seq<LetterCarrier>, l: Lift, m: Lift, r: Request)
    requires LiftTrue(words, cs, l) && Entered(l, m, r) && Truthful(words, cs, r)
    ensures LiftTrue(words, cs, m)
  {
  }

  lemma CarrierStepEnters(cfg: Config, s: State, step: Step) returns (d: Request, r: Request)
    requires Enabled(cfg, s, step) && OfCarrier(step) && AllHoldThere(s.words, s.carriers)
    ensures var t := Apply(cfg, s, step); Entered(s.delivery, t.delivery, d) && Entered(s.reposition, t.reposition, r)
    ensures Truthful(s.words, s.carriers, d) && Truthful(s.words, s.carriers, r)
  {
    d, r := Free, Free;
    if step.EnterDelivery? {
      var j := s.carriers[step.k].pc.job;
      d := Request(step.k, s.carriers[step.k].floor, s.words[j.w].sortingFloor, Some(j));
      assert HoldsThere(s.words, s.carriers[step.k]);
    } else if step.EnterReposition? {
      r := Request(step.k, s.carriers[step.k].floor, s.carriers[step.k].pc.to, None);
    }
  }

  lemma CarrierStepTrue(cfg: Config, s: State, step: Step)
    requires Enabled(cfg, s, step) && OfCarrier(step) && RequestsTrue(s)
    ensures RequestsTrue(Apply(cfg, s, step))
  {
    var t := Apply(cfg, s, step);
    var d, r := CarrierStepEnters(cfg, s, step);
    CarrierStepPlaces(cfg, s, step);
    EnteredTrue(s.words, s.carriers, s.delivery, t.delivery, d);
    EnteredTrue(s.words, s.carriers, s.reposition, t.reposition, r);
    StaysTrue(s, t, t.delivery);
    StaysTrue(s, t, t.reposition);
    if step.PickChar? {
      PickedThere(cfg, s, step.k, step.j);
    } else {
      CarrierStepHolders(cfg, s, step);
      HoldersStay(s, t);
    }
  }

  // ----- the elevators' own steps

  lemma BatchTrue(words: seq<Word>, cs: seq<LetterCarrier>, l: Lift, kind: Kind, cap: int, floors: nat)
    requires LiftTrue(words, cs, l) && LiftOk(l, kind, floors) && l.pc == Collecting
    ensures LiftTrue(words, cs, WithBatch(l, kind, cap))
  {
    var m := WithBatch(l, kind, cap);
    forall q
      ensures Tally(m.batch, q) + Tally(m.table, q) == Tally(l.batch, q) + Tally(l.table, q)
    {
      assert Tally(l.batch, q) == 0;
      CollectConserves(l.table, kind, l.dir, l.floor, cap, q);
    }
    forall i | 0 <= i < |m.batch|
      ensures Truthful(words, cs, m.batch[i])
    {
      if m.batch[i].Request? {
        FromTable(l, m.batch, m.table, i);
      }
    }
    forall i | 0 <= i < |m.table|
      ensures Truthful(words, cs, m.table[i])
    {
      if m.table[i].Request? {
        FromTable(l, m.table, m.batch, i);
      }
    }
  }

  lemma HandedTrue(words: seq<Word>, cs: seq<LetterCarrier>, l: Lift)
    requires LiftTrue(words, cs, l) && l.pc == Serving(Handing) && l.batch != [] && l.batch[0].Request?
    ensures LiftTrue(words, cs, l.(batch := l.batch[0 := l.batch[0].(job := None)], pc := Serving(Leaving)))
  {
  }

  lemma LeavingTrue(words: seq<Word>, cs: seq<LetterCarrier>, l: Lift, e: bool)
    requires LiftTrue(words, cs, l) && l.pc == Serving(Leaving)
    ensures LiftTrue(words, cs, l.(pc := Serving(Signalling))) && LiftTrue(words, cs, l.(pc := Serving(Reaching(e))))
  {
    if l.batch != [] {
      assert forall i :: 0 <= i < |l.batch[1..]| ==> l.batch[1..][i] == l.batch[i + 1];
    }
  }

  lemma ServedTrue(words: seq<Word>, cs: seq<LetterCarrier>, l: Lift, kind: Kind)
    requires LiftTrue(words, cs, l) && l.pc == Serving(Signalling) && l.batch != []
    ensures LiftTrue(words, cs, NextRequest(l.(batch := l.batch[1..]), kind))
  {
  }

  /** Setting a carrier down makes no other request untrue, for no other is about that carrier. */
  lemma ReachedTrue(words: seq<Word>, cs: seq<LetterCarrier>, l: Lift, o: Lift, next: Phase)
    requires LiftTrue(words, cs, l) && LiftTrue(words, cs, o) && TicketsOk(cs, l, o)
    requires BetweenFloors(l) && l.batch != [] && l.batch[0].Request? && l.batch[0].to >= 0 && (next.Reporting? || next.Signalling?)
    ensures l.batch[0].carrier < |cs|
    ensures var k := l.batch[0].carrier;
            var ds := cs[k := cs[k].(floor := l.batch[0].to)];
            LiftTrue(words, ds, l.(pc := Serving(next))) && LiftTrue(words, ds, o)
  {
    var k := l.batch[0].carrier;
    HeadAlone(cs, l, o);
    assert Truthful(words, cs, l.batch[0]);
    assert forall i :: 0 <= i < |l.batch[1..]| ==> l.batch[1..][i] == l.batch[i + 1];
    OthersTrue(words, cs, k, l.batch[0].to, l.table);
    OthersTrue(words, cs, k, l.batch[0].to, l.batch[1..]);
    OthersTrue(words, cs, k, l.batch[0].to, o.table);
    OthersTrue(words, cs, k, l.batch[0].to, if SetDown(o) && o.batch != [] then o.batch[1..] else o.batch);
  }

  ghost predicate NotAbout(rs: seq<Request>, k: nat) {
    forall i :: 0 <= i < |rs| ==> !Matches(rs[i], Carrier(k))
  }

  lemma OthersTrue(words: seq<Word>, cs: seq<LetterCarrier>, k: nat, to: int, rs: seq<Request>)
    requires AllTrue(words, cs, rs) && NotAbout(rs, k) && k < |cs| && to >= 0
    ensures AllTrue(words, cs[k := cs[k].(floor := to)], rs)
  {
    forall i | 0 <= i < |rs|
      ensures Truthful(words, cs[k := cs[k].(floor := to)], rs[i])
    {
      assert !Matches(rs[i], Carrier(k)) && Truthful(words, cs, rs[i]);
    }
  }

  /** The request in hand is the only one about its carrier. */
  lemma HeadAlone(cs: seq<LetterCarrier>, l: Lift, o: Lift)
    requires TicketsOk(cs, l, o) && l.batch != [] && l.batch[0].Request?
    ensures var k := l.batch[0].carrier;
            NotAbout(l.table, k) && NotAbout(l.batch[1..], k) && NotAbout(o.table, k) && NotAbout(o.batch, k)
  {
    var k := l.batch[0].carrier;
    assert Owed(l, k) + Owed(o, k) + EventsOf(cs, k) == Bit(Waits(cs, k));
    TallyPop(l.batch, Carrier(k));
    TallyExtremes(l.table, Carrier(k));
    TallyExtremes(l.batch[1..], Carrier(k));
    TallyExtremes(o.table, Carrier(k));
    TallyExtremes(o.batch, Carrier(k));
  }

  lemma LiftStepTrue(cfg: Config, s: State, kind: Kind, step: Step)
    requires LiftInv(cfg, s, kind) && Enabled(cfg, s, step) && RequestsTrue(s)
    requires step == TakeItem(kind) || step == TakeBatch(kind) || step == LeaveFloor(kind) || step == ReportEmpty(kind)
             || step == SignalCarrier(kind)
    ensures RequestsTrue(Apply(cfg, s, step))
  {
    var t := Apply(cfg, s, step);
    LiftStepPlaces(cfg, s, kind, step);
    OwnLiftTrue(cfg, s, kind, step);
    StaysTrue(s, t, LiftOf(t, kind));
    StaysTrue(s, t, LiftOf(t, Other(kind)));
    HoldersStay(s, t);
    assert LiftOf(t, Delivery) == t.delivery && LiftOf(t, Reposition) == t.reposition;
  }

  lemma OwnLiftTrue(cfg: Config, s: State, kind: Kind, step: Step)
    requires LiftInv(cfg, s, kind) && Enabled(cfg, s, step) && LiftTrue(s.words, s.carriers, LiftOf(s, kind))
    requires step == TakeItem(kind) || step == TakeBatch(kind) || step == LeaveFloor(kind) || step == ReportEmpty(kind)
             || step == SignalCarrier(kind)
    ensures LiftTrue(s.words, s.carriers, LiftOf(Apply(cfg, s, step), kind))
  {
    if step == TakeItem(kind) || step == TakeBatch(kind) {
      TakeTrue(cfg, s, kind, step);
    } else {
      MoveTrue(cfg, s, kind, step);
    }
  }

  lemma TakeTrue(cfg: Config, s: State, kind: Kind, step: Step)
    requires LiftOk(LiftOf(s, kind), kind, cfg.floors) && Enabled(cfg, s, step)
    requires LiftTrue(s.words, s.carriers, LiftOf(s, kind)) && (step == TakeItem(kind) || step == TakeBatch(kind))
    ensures LiftTrue(s.words, s.carriers, LiftOf(Apply(cfg, s, step), kind))
  {
    if step == TakeBatch(kind) {
      BatchTrue(s.words, s.carriers, LiftOf(s, kind), kind, CapacityOf(cfg, kind), cfg.floors);
    }
  }

  lemma MoveTrue(cfg: Config, s: State, kind: Kind, step: Step)
    requires Enabled(cfg, s, step) && LiftTrue(s.words, s.carriers, LiftOf(s, kind))
    requires step == LeaveFloor(kind) || step == ReportEmpty(kind) || step == SignalCarrier(kind)
    ensures LiftTrue(s.words, s.carriers, LiftOf(Apply(cfg, s, step), kind))
  {
    var l := LiftOf(s, kind);
    match step
    case LeaveFloor(_) => LeavingTrue(s.words, s.carriers, l, LeavesEmpty(s, l));
    case ReportEmpty(_) =>
    case SignalCarrier(_) => ServedTrue(s.words, s.carriers, l, kind);
  }

  predicate LeavesEmpty(s: State, l: Lift) {
    && l.batch != [] && l.batch[0].Request? && l.batch[0].carrier < |s.carriers|
    && var f := s.carriers[l.batch[0].carrier].floor; f < |s.counts| && s.counts[f] - 1 == 0
  }

  lemma LiftStepPlaces(cfg: Config, s: State, kind: Kind, step: Step)
    requires Enabled(cfg, s, step)
    requires step == TakeItem(kind) || step == TakeBatch(kind) || step == LeaveFloor(kind) || step == ReportEmpty(kind)
             || step == SignalCarrier(kind)
    ensures var t := Apply(cfg, s, step);
            SamePlaces(s, t) && SameHolders(s.carriers, t.carriers) && LiftOf(t, Other(kind)) == LiftOf(s, Other(kind))
  {
  }

  lemma HandOverTrue(cfg: Config, s: State)
    requires Enabled(cfg, s, HandOver) && RequestsTrue(s)
    ensures RequestsTrue(Apply(cfg, s, HandOver))
  {
    var t := Apply(cfg, s, HandOver);
    HandedTrue(s.words, s.carriers, s.delivery);
    StaysTrue(s, t, t.delivery);
    StaysTrue(s, t, t.reposition);
    HoldersStay(s, t);
  }

  lemma ReachTrue(cfg: Config, s: State, kind: Kind)
    requires LiftInv(cfg, s, kind) && HeadIn(s, kind) && BetweenFloors(LiftOf(s, kind)) && RequestsTrue(s)
    ensures RequestsTrue(ApplyReach(s, kind))
  {
    var l := LiftOf(s, kind);
    var next := if l.pc.phase.emptied then Reporting(s.carriers[l.batch[0].carrier].floor) else Signalling;
    ReachFrame(s, kind, next);
    ReachedTrue(s.words, s.carriers, l, LiftOf(s, Other(kind)), next);
    HeadWaits(s.carriers, l, LiftOf(s, Other(kind)));
    ReachHolders(s, ApplyReach(s, kind), l.batch[0].carrier, l.batch[0].to);
  }

  lemma ReachHolders(s: State, t: State, k: nat, to: nat)
    requires k < |s.carriers| && !s.carriers[k].pc.Hold? && t.carriers == s.carriers[k := s.carriers[k].(floor := to)]
    requires t.words == s.words && AllHoldThere(s.words, s.carriers)
    ensures AllHoldThere(t.words, t.carriers)
  {
    forall i | 0 <= i < |t.carriers|
      ensures HoldsThere(t.words, t.carriers[i])
    {
      assert HoldsThere(s.words, s.carriers[i]);
    }
  }

  lemma StepTrue(cfg: Config, s: State, step: Step)
    requires Inv(cfg, s) && Enabled(cfg, s, step) && RequestsTrue(s)
    ensures RequestsTrue(Apply(cfg, s, step))
  {
    if OfCarrier(step) {
      CarrierStepTrue(cfg, s, step);
    } else if step == HandOver {
      HandOverTrue(cfg, s);
    } else if step.ReachFloor? {
      BothSides(cfg, s, step.kind);
      ReachTrue(cfg, s, step.kind);
    } else if OfLift(step) {
      BothSides(cfg, s, step.kind);
      LiftStepTrue(cfg, s, step.kind, step);
    } else {
      OtherStepTrue(cfg, s, step);
    }
  }

  lemma OtherStepTrue(cfg: Config, s: State, step: Step)
    requires WordInv(cfg, s) && Enabled(cfg, s, step) && RequestsTrue(s)
    requires OfPorter(step) || step.SortWord? || step.CheckFloor? || step.SpawnCarrier?
    ensures RequestsTrue(Apply(cfg, s, step))
  {
    if OfPorter(step) {
      assert PorterOk(s.words, s.porters, step.p);
      PorterStepPlaces(cfg, s, step);
    } else {
      OtherStepPlaces(cfg, s, step);
    }
    StaysTrue(s, Apply(cfg, s, step), s.delivery);
    StaysTrue(s, Apply(cfg, s, step), s.reposition);
    HoldersStay(s, Apply(cfg, s, step));
  }

  lemma {:induction false} RunTrue(cfg: Config, s: State, steps: seq<Step>, t: State)
    requires Accepts(cfg) && Inv(cfg, s) && RequestsTrue(s) && Leads(cfg, s, steps, t)
    ensures RequestsTrue(t)
    decreases |steps|
  {
    if steps != [] {
      StepTrue(cfg, s, steps[0]);
      StepKeepsInv(cfg, s, steps[0]);
      RunTrue(cfg, Apply(cfg, s, steps[0]), steps[1..], t);
    }
  }

  lemma ReachableTrue(cfg: Config, s: State)
    requires Accepts(cfg) && Reachable(cfg, s)
    ensures RequestsTrue(s)
  {
    var start, steps :| Init(cfg, start) && Leads(cfg, start, steps, s);
    InitInv(cfg, start);
    RunTrue(cfg, start, steps, s);
  }

  /** In every reachable state a waiting request names the floor on which its carrier stands, and a
      delivery leads from where the word of its character was admitted to where it is sorted. */
  lemma RequestsNameTheirFloors(cfg: Config, s: State, kind: Kind, i: nat)
    requires Accepts(cfg) && Reachable(cfg, s) && i < |LiftOf(s, kind).table| && LiftOf(s, kind).table[i].Request?
    ensures var r := LiftOf(s, kind).table[i];
            && r.carrier < |s.carriers| && r.from == s.carriers[r.carrier].floor && (r.job.Some? <==> kind == Delivery)
            && (kind == Delivery ==>
                  && r.job.value.w < |s.words| && s.words[r.job.value.w].admitted
                  && r.from == s.words[r.job.value.w].arrivalFloor && r.to == s.words[r.job.value.w].sortingFloor)
  {
    ReachableTrue(cfg, s);
    ReachableInv(cfg, s);
    assert Truthful(s.words, s.carriers, LiftOf(s, kind).table[i]);
  }

  /** A carrier with a character in its hands stands where the word was admitted. */
  lemma HeldWhereAdmitted(cfg: Config, s: State, k: nat)
    requires Accepts(cfg) && Reachable(cfg, s) && k < |s.carriers| && s.carriers[k].pc.Hold?
    ensures var w := s.carriers[k].pc.job.w;
            w < |s.words| && s.words[w].admitted && s.carriers[k].floor == s.words[w].arrivalFloor
  {
    ReachableTrue(cfg, s);
    assert HoldsThere(s.words, s.carriers[k]);
  }

  /** Every character is put down on the sorting floor of its word: by the elevator, which stands there
      then, or by a carrier that is there already. */
  lemma DeliveredOnTheRightFloor(cfg: Config, s: State, step: Step)
    requires Accepts(cfg) && Reachable(cfg, s) && Enabled(cfg, s, step)
    ensures step == HandOver ==> s.delivery.floor == s.words[s.delivery.batch[0].job.value.w].sortingFloor
    ensures step.PlaceDirect? ==> s.carriers[step.k].floor == s.words[s.carriers[step.k].pc.job.w].sortingFloor
  {
    ReachableTrue(cfg, s);
    if step == HandOver {
      assert Truthful(s.words, s.carriers, s.delivery.batch[0]);
    }
  }

  /** A carrier that is being woken stands on the floor that it asked for, and so does the elevator. */
  lemma WokenWhereWanted(cfg: Config, s: State, kind: Kind)
    requires Accepts(cfg) && Reachable(cfg, s) && Enabled(cfg, s, SignalCarrier(kind))
    ensures var l := LiftOf(s, kind); s.carriers[l.batch[0].carrier].floor == l.batch[0].to == l.floor
  {
    ReachableTrue(cfg, s);
    ReachableInv(cfg, s);
  }
}
