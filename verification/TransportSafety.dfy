/** What the invariant of the building means: consequences for every reachable state and every run. */
module TransportSafety {
  import opened Counting
  import opened Elevator
  import opened Words
  import opened Transport
  import opened TransportInvariant
  import SortingArea

  /** A completed word spells its text, even with repeated letters, and none of its characters is still
      in a carrier's hands, in the request table or in the elevator. */
  lemma CompletedWordIsWhole(cfg: Config, s: State, w: nat)
    requires Accepts(cfg) && Reachable(cfg, s) && w < |s.words| && s.words[w].completed
    ensures SortingArea.Reading(s.words[w].area) == s.words[w].text
    ensures |s.words[w].delivered| == |s.words[w].text| && forall c :: 0 <= c < |s.words[w].text| ==> s.words[w].delivered[c]
    ensures forall c: nat :: Tally(s.delivery.table, Carrying(Job(w, c))) == 0 && Tally(s.delivery.batch, Carrying(Job(w, c))) == 0
    ensures forall k, c :: 0 <= k < |s.carriers| ==> s.carriers[k].pc != Hold(Job(w, c))
  {
    ReachableInv(cfg, s);
    CompletedWord(s.words[w]);
    forall c: nat
      ensures Tally(s.delivery.table, Carrying(Job(w, c))) == 0 && Tally(s.delivery.batch, Carrying(Job(w, c))) == 0
      ensures forall k :: 0 <= k < |s.carriers| ==> s.carriers[k].pc != Hold(Job(w, c))
    {
      var j := Job(w, c);
      assert Tally(s.delivery.table, Carrying(j)) + Tally(s.delivery.batch, Carrying(j)) + Holders(s.carriers, j)
          == Bit(InTransit(s.words, j));
      CountExtremes(HoldFlags(s.carriers, j));
      assert forall k :: 0 <= k < |s.carriers| ==> !HoldFlags(s.carriers, j)[k];
    }
  }

  /** A sorter never meets its case 4c, and whoever delivers a character finds a free slot for it. */
  lemma SortersAndDeliverersSucceed(cfg: Config, s: State, w: nat)
    requires Accepts(cfg) && Reachable(cfg, s) && w < |s.words|
    ensures forall i :: 0 <= i < |s.words[w].area| ==>
      (SortingArea.Acts(s.words[w].area, i) <==> SortingArea.Open(s.words[w].area[i]))
    ensures forall c: nat :: InTransit(s.words, Job(w, c)) ==> FreeSlotOf(s.words[w]) && !s.words[w].completed
  {
    ReachableInv(cfg, s);
    var x := s.words[w];
    forall i | 0 <= i < |x.area|
      ensures SortingArea.Acts(x.area, i) <==> SortingArea.Open(x.area[i])
    {
      SortingArea.OpenActs(x.area, x.text, x.delivered, i);
    }
    forall c: nat | InTransit(s.words, Job(w, c))
      ensures FreeSlotOf(x) && !x.completed
    {
      DeliverOk(x, c);
    }
  }

  /** Capacity safety: active_words[f] is the number of words holding a place on f, never above the
      limit, and zero everywhere once all words are completed. */
  lemma CapacityRespected(cfg: Config, s: State, f: nat)
    requires Accepts(cfg) && Reachable(cfg, s) && f < cfg.floors
    ensures |s.active| == cfg.floors && 0 <= s.active[f] == Places(s.words, s.porters, f) <= cfg.capacity
    ensures (forall w :: 0 <= w < |s.words| ==> s.words[w].completed) ==> s.active[f] == 0
  {
    ReachableInv(cfg, s);
    if forall w :: 0 <= w < |s.words| ==> s.words[w].completed {
      CountExtremes(PlaceFlags(s.words, s.porters, f));
      assert forall w :: 0 <= w < |s.words| ==> WordOk(s.words[w]);
    }
  }

  /** No carrier has two requests, so a carrier that is about to enter one finds a free slot: with at
      most 512 carriers the 2048-slot tables cannot overflow. */
  lemma TablesNeverOverflow(cfg: Config, s: State, kind: Kind, k: nat)
    requires Accepts(cfg) && Reachable(cfg, s)
    ensures Owed(s.delivery, k) + Owed(s.reposition, k) <= 1
    ensures Tally(LiftOf(s, kind).table, Used) <= |s.carriers| <= MAX_CARRIERS
    ensures FirstFree(LiftOf(s, kind).table, 0) != -1
  {
    ReachableInv(cfg, s);
    RoomInTable(cfg, s, kind);
    assert Owed(s.delivery, k) + Owed(s.reposition, k) + EventsOf(s.carriers, k) == Bit(Waits(s.carriers, k));
  }

  lemma RoomInTable(cfg: Config, s: State, kind: Kind)
    requires LiftInv(cfg, s, Delivery)
    ensures Tally(LiftOf(s, kind).table, Used) <= |s.carriers|
    ensures FirstFree(LiftOf(s, kind).table, 0) != -1
  {
    var table := LiftOf(s, kind).table;
    forall q: nat
      ensures Tally(table, Carrier(q)) <= if q < |s.carriers| then 1 else 0
    {
      assert Owed(s.delivery, q) + Owed(s.reposition, q) + EventsOf(s.carriers, q) == Bit(Waits(s.carriers, q));
    }
    DistinctCarriersFit(table, |s.carriers|);
    TallyExtremes(table, Used);
  }

  ghost predicate NonePosting(s: State, kind: Kind) {
    forall k :: 0 <= k < |s.carriers| ==> s.carriers[k].pc != Post(kind)
  }

  /** No lost wake-up: an elevator that sleeps has nothing in its table unless a carrier is just about
      to post an item, and a carrier that sleeps has its request in a table or in a batch. */
  lemma NoLostWakeUp(cfg: Config, s: State, kind: Kind, k: nat)
    requires Accepts(cfg) && Reachable(cfg, s)
    ensures LiftOf(s, kind).pc == Idle && LiftOf(s, kind).items == 0 && NonePosting(s, kind) ==> Tally(LiftOf(s, kind).table, Used) == 0
    ensures k < |s.carriers| && s.carriers[k].pc == Wait && s.carriers[k].events == 0 ==> Owed(s.delivery, k) + Owed(s.reposition, k) == 1
  {
    ReachableInv(cfg, s);
    CountExtremes(PostFlags(s.carriers, kind));
    assert NonePosting(s, kind) ==> forall q :: 0 <= q < |s.carriers| ==> !PostFlags(s.carriers, kind)[q];
    assert Owed(s.delivery, k) + Owed(s.reposition, k) + EventsOf(s.carriers, k) == Bit(Waits(s.carriers, k));
  }

  /** carrier_count[f] is never negative and is the number of carriers on f less those being moved off
      it; a floor reported for respawn has count zero. */
  lemma CarrierCounts(cfg: Config, s: State, f: nat)
    requires Accepts(cfg) && Reachable(cfg, s) && f < cfg.floors
    ensures |s.counts| == |s.respawn| == cfg.floors
    ensures 0 <= s.counts[f] == On(s.carriers, f) - Bit(Moving(s.carriers, s.delivery, f)) - Bit(Moving(s.carriers, s.reposition, f))
    ensures s.respawn[f] ==> s.counts[f] == 0
  {
    ReachableInv(cfg, s);
  }

  /** An elevator that takes a batch takes as much as its configured capacity, and 64 places, allow, and sets
      out for the batch's first destination. The delivery elevator notes the direction towards the floor
      where the batch waits, the other one the direction of travel. */
  lemma ElevatorTurns(cfg: Config, s: State, kind: Kind, f: nat) returns (n: nat, picked: seq<nat>)
    requires Accepts(cfg) && Enabled(cfg, s, TakeBatch(kind))
    requires var l := LiftOf(s, kind); Opening(l.table, l.dir, l.floor, f)
    ensures var l, m := LiftOf(s, kind), LiftOf(Apply(cfg, s, TakeBatch(kind)), kind);
      var configured := if kind == Delivery then cfg.deliveryCapacity else cfg.repositionCapacity;
      && BatchOf(l.table, kind, if configured < 64 then configured else 64, f, n, picked, m.batch, m.table)
      && l.table[f].Request? && m.batch != [] && m.batch[0].Request? && m.floor == m.batch[0].to
      && m.dir == if kind == Delivery && l.table[f].from > l.floor then 1
                  else if kind == Delivery && l.table[f].from < l.floor then -1
                  else if l.table[f].to >= l.table[f].from then 1 else -1
  {
    var l := LiftOf(s, kind);
    n, picked := BatchShape(l.table, kind, l.dir, l.floor, CapacityOf(cfg, kind), f);
    var batch := Collect(l.table, kind, l.dir, l.floor, CapacityOf(cfg, kind)).batch;
    assert Shares(batch[0], l.table[f], kind);
  }

  /** Word w is open to a claim, and no word is between the cursor and w, going round. */
  ghost predicate NextOpen(words: seq<Word>, cursor: nat, w: nat) {
    && w < |words| && !words[w].claimed && !words[w].admitted && !words[w].completed
    && forall v :: 0 <= v < |words| && (if cursor <= w then cursor <= v < w else cursor <= v || v < w) ==>
         words[v].claimed || words[v].admitted || words[v].completed
  }

  lemma ClaimedNext(s: State, p: nat, w: nat)
    requires p < |s.porters| && s.cursor < |s.words| && w == NextWord(Available(s.words), s.cursor, 0)
    ensures NextOpen(s.words, s.cursor, w)
    ensures var t := ApplyClaimWord(s, p);
      && t.porters[p].pc == Claimed(w) && t.words == s.words[w := s.words[w].(claimed := true, owner := p)]
      && t.cursor == if w + 1 == |s.words| then 0 else w + 1
  {
    NextIsOpen(s.words, s.cursor, w);
    PastEnd(w, |s.words|);
  }

  lemma NextIsOpen(words: seq<Word>, cursor: nat, w: nat)
    requires cursor < |words| && w == NextWord(Available(words), cursor, 0)
    ensures NextOpen(words, cursor, w)
  {
    var open := Available(words);
    NextWordIsNext(open, cursor, 0);
    forall v | 0 <= v < |words| && Before(cursor, v, w)
      ensures words[v].claimed || words[v].admitted || words[v].completed
    {
      assert !open[v];
    }
  }

  lemma PastEnd(w: nat, n: nat)
    requires w < n
    ensures (w + 1) % n == if w + 1 == n then 0 else w + 1
  {
  }

  /** How often a run posts an item to this elevator, less how often the elevator takes one. */
  ghost function Posted(cfg: Config, s: State, steps: seq<Step>, t: State, kind: Kind): int
    requires Leads(cfg, s, steps, t)
    decreases |steps|
  {
    if steps == [] then 0
    else
      (if steps[0].PostItem? && s.carriers[steps[0].k].pc.kind == kind then 1 else if steps[0] == TakeItem(kind) then -1 else 0)
      + Posted(cfg, Apply(cfg, s, steps[0]), steps[1..], t, kind)
  }

  lemma ItemsStep(cfg: Config, s: State, step: Step, kind: Kind)
    requires Enabled(cfg, s, step)
    ensures LiftOf(Apply(cfg, s, step), kind).items == LiftOf(s, kind).items
              + if step.PostItem? && s.carriers[step.k].pc.kind == kind then 1 else if step == TakeItem(kind) then -1 else 0
  {
  }

  lemma {:induction false} RunItems(cfg: Config, s: State, steps: seq<Step>, t: State, kind: Kind)
    requires Leads(cfg, s, steps, t)
    ensures LiftOf(t, kind).items == LiftOf(s, kind).items + Posted(cfg, s, steps, t, kind)
    decreases |steps|
  {
    if steps != [] {
      ItemsStep(cfg, s, steps[0], kind);
      RunItems(cfg, Apply(cfg, s, steps[0]), steps[1..], t, kind);
    }
  }

  /** No item is lost or invented: an elevator's semaphore stands at the posts less the takes. */
  lemma ItemsAddUp(cfg: Config, s: State, steps: seq<Step>, t: State, kind: Kind)
    requires Init(cfg, s) && Leads(cfg, s, steps, t)
    ensures LiftOf(t, kind).items == Posted(cfg, s, steps, t, kind)
  {
    RunItems(cfg, s, steps, t, kind);
  }

  /** Words are claimed in turn: of those open to a claim, a word carrier takes the next one from the
      cursor on, going round, and leaves the cursor just behind it. */
  lemma ClaimsInTurn(cfg: Config, s: State, p: nat) returns (w: nat)
    requires Accepts(cfg) && Reachable(cfg, s) && Enabled(cfg, s, ClaimWord(p))
    ensures NextOpen(s.words, s.cursor, w)
    ensures var t := Apply(cfg, s, ClaimWord(p));
      && t.porters[p].pc == Claimed(w) && t.words == s.words[w := s.words[w].(claimed := true, owner := p)]
      && t.cursor == if w + 1 == |s.words| then 0 else w + 1
  {
    ReachableInv(cfg, s);
    w := NextWord(Available(s.words), s.cursor, 0);
    ClaimedNext(s, p, w);
  }

  // ---------------------------------------------------------------------------------------------
  // What happens exactly once

  /** A fact about a word or a character that a run can make true. */
  datatype Fact = CharClaimed(j: Job) | CharDelivered(j: Job) | WordAdmitted(w: nat) | WordCompleted(w: nat)

  ghost predicate Holds(words: seq<Word>, fact: Fact) {
    match fact
    case CharClaimed(j) => j.w < |words| && j.c < |words[j.w].charClaimed| && words[j.w].charClaimed[j.c]
    case CharDelivered(j) => j.w < |words| && j.c < |words[j.w].delivered| && words[j.w].delivered[j.c]
    case WordAdmitted(w) => w < |words| && words[w].admitted
    case WordCompleted(w) => w < |words| && words[w].completed
  }

  /** The steps that claim a character, deliver it, admit a word, and complete it (which also releases
      its places). */
  ghost predicate Makes(cfg: Config, s: State, step: Step, fact: Fact)
    requires Enabled(cfg, s, step)
  {
    match fact
    case CharClaimed(j) => step.PickChar? && step.j == j
    case CharDelivered(j) =>
      (step.PlaceDirect? && s.carriers[step.k].pc.job == j) || (step == HandOver && s.delivery.batch[0].job.value == j)
    case WordAdmitted(w) => step.Admit? && s.porters[step.p].pc.w == w
    case WordCompleted(w) => step.SortWord? && step.w == w && Sort(s.words[w]).completed
  }

  /** How often the run makes the fact. */
  ghost function Times(cfg: Config, s: State, steps: seq<Step>, t: State, fact: Fact): nat
    requires Leads(cfg, s, steps, t)
    decreases |steps|
  {
    if steps == [] then 0
    else Bit(Makes(cfg, s, steps[0], fact)) + Times(cfg, Apply(cfg, s, steps[0]), steps[1..], t, fact)
  }

  // One changed word at a time

  lemma ClaimMakes(words: seq<Word>, j: Job, fact: Fact)
    requires ValidJob(words, j) && !words[j.w].charClaimed[j.c]
    ensures Bit(Holds(words[j.w := ClaimChar(words[j.w], j.c)], fact)) == Bit(Holds(words, fact)) + Bit(fact == CharClaimed(j))
  {
  }

  lemma DeliverMakes(words: seq<Word>, j: Job, fact: Fact)
    requires ValidJob(words, j) && !words[j.w].delivered[j.c] && FreeSlotOf(words[j.w])
    ensures Bit(Holds(words[j.w := Deliver(words[j.w], j.c)], fact)) == Bit(Holds(words, fact)) + Bit(fact == CharDelivered(j))
  {
  }

  lemma SortMakes(words: seq<Word>, w: nat, fact: Fact)
    requires w < |words| && !words[w].completed
    ensures Bit(Holds(words[w := Sort(words[w])], fact))
      == Bit(Holds(words, fact)) + Bit(fact == WordCompleted(w) && Sort(words[w]).completed)
  {
  }

  /** A word carrier's change to a word that is not admitted yet. */
  lemma PorterMakes(words: seq<Word>, w: nat, x: Word, fact: Fact)
    requires w < |words| && !words[w].admitted
    requires x == words[w].(claimed := x.claimed, owner := x.owner, admitted := x.admitted, arrivalFloor := x.arrivalFloor, reserved := x.reserved)
    ensures Bit(Holds(words[w := x], fact)) == Bit(Holds(words, fact)) + Bit(fact == WordAdmitted(w) && x.admitted)
  {
  }

  lemma PorterStepMakes(cfg: Config, s: State, step: Step, fact: Fact)
    requires WordInv(cfg, s) && Enabled(cfg, s, step) && OfPorter(step)
    ensures Bit(Holds(Apply(cfg, s, step).words, fact)) == Bit(Holds(s.words, fact)) + Bit(Makes(cfg, s, step, fact))
  {
    assert PorterOk(s.words, s.porters, step.p);
    match step
    case ClaimWord(p) =>
      var w := NextWord(Available(s.words), s.cursor, 0);
      PorterMakes(s.words, w, s.words[w].(claimed := true, owner := p), fact);
    case ReserveFloors(p) =>
    case Admit(p) =>
      var w := s.porters[p].pc.w;
      PorterMakes(s.words, w, s.words[w].(admitted := true, arrivalFloor := s.porters[p].floor, reserved := true), fact);
    case PutBack(p) =>
      var w := s.porters[p].pc.w;
      PorterMakes(s.words, w, s.words[w].(claimed := false, owner := -1), fact);
  }

  /** The character that a step is about to deliver has not been delivered. */
  lemma DueUndelivered(cfg: Config, s: State, j: Job)
    requires Inv(cfg, s) && ValidJob(s.words, j)
    requires Holders(s.carriers, j) > 0 || Tally(s.delivery.batch, Carrying(j)) > 0
    ensures !s.words[j.w].delivered[j.c] && FreeSlotOf(s.words[j.w])
  {
    DueInTransit(s.words, s.carriers, s.delivery, j);
    DeliverOk(s.words[j.w], j.c);
  }

  lemma QuietStep(cfg: Config, s: State, step: Step, fact: Fact)
    requires Enabled(cfg, s, step)
    requires !OfPorter(step) && !step.PickChar? && !step.PlaceDirect? && step != HandOver && !step.SortWord?
    ensures Apply(cfg, s, step).words == s.words && !Makes(cfg, s, step, fact)
  {
  }

  lemma PlaceDirectMakes(cfg: Config, s: State, k: nat, fact: Fact)
    requires Inv(cfg, s) && Enabled(cfg, s, PlaceDirect(k))
    ensures Bit(Holds(Apply(cfg, s, PlaceDirect(k)).words, fact)) == Bit(Holds(s.words, fact)) + Bit(Makes(cfg, s, PlaceDirect(k), fact))
  {
    HolderCounted(s.carriers, k);
    DueUndelivered(cfg, s, s.carriers[k].pc.job);
    DeliverMakes(s.words, s.carriers[k].pc.job, fact);
  }

  lemma HandOverMakes(cfg: Config, s: State, fact: Fact)
    requires Inv(cfg, s) && Enabled(cfg, s, HandOver)
    ensures Bit(Holds(Apply(cfg, s, HandOver).words, fact)) == Bit(Holds(s.words, fact)) + Bit(Makes(cfg, s, HandOver, fact))
  {
    HeadCarries(s.delivery);
    DueUndelivered(cfg, s, s.delivery.batch[0].job.value);
    DeliverMakes(s.words, s.delivery.batch[0].job.value, fact);
  }

  lemma StepMakes(cfg: Config, s: State, step: Step, fact: Fact)
    requires Inv(cfg, s) && Enabled(cfg, s, step)
    ensures Bit(Holds(Apply(cfg, s, step).words, fact)) == Bit(Holds(s.words, fact)) + Bit(Makes(cfg, s, step, fact))
  {
    if OfPorter(step) {
      PorterStepMakes(cfg, s, step, fact);
    } else if step.PickChar? {
      ClaimMakes(s.words, step.j, fact);
    } else if step.PlaceDirect? {
      PlaceDirectMakes(cfg, s, step.k, fact);
    } else if step == HandOver {
      HandOverMakes(cfg, s, fact);
    } else if step.SortWord? {
      SortMakes(s.words, step.w, fact);
    } else {
      QuietStep(cfg, s, step, fact);
    }
  }

  lemma {:induction false} RunMakes(cfg: Config, s: State, steps: seq<Step>, t: State, fact: Fact)
    requires Accepts(cfg) && Inv(cfg, s) && Leads(cfg, s, steps, t)
    ensures Bit(Holds(t.words, fact)) == Bit(Holds(s.words, fact)) + Times(cfg, s, steps, t, fact)
    decreases |steps|
  {
    if steps != [] {
      StepMakes(cfg, s, steps[0], fact);
      StepKeepsInv(cfg, s, steps[0]);
      RunMakes(cfg, Apply(cfg, s, steps[0]), steps[1..], t, fact);
    }
  }

  /** Over any run of the program, each character is claimed and delivered, and each word admitted and
      completed, at most once, and exactly once if the state shows it done. */
  lemma ExactlyOnce(cfg: Config, s: State, steps: seq<Step>, t: State, fact: Fact)
    requires Accepts(cfg) && Init(cfg, s) && Leads(cfg, s, steps, t)
    ensures Times(cfg, s, steps, t, fact) == Bit(Holds(t.words, fact))
  {
    InitInv(cfg, s);
    RunMakes(cfg, s, steps, t, fact);
    if fact.WordAdmitted? || fact.WordCompleted? {
      assert fact.w < |s.words| ==> s.words[fact.w] == Words.Loaded(s.words[fact.w].text, s.words[fact.w].sortingFloor);
    } else {
      assert fact.j.w < |s.words| ==> s.words[fact.j.w] == Words.Loaded(s.words[fact.j.w].text, s.words[fact.j.w].sortingFloor);
    }
  }
}
