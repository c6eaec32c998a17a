/** What holds in every reachable state of the building. */
module TransportInvariant {
  import opened Basics
  import opened Counting
  import opened Elevator
  import opened Words
  import opened Transport
  import SortingArea

  // ---------------------------------------------------------------------------------------------
  // Words and word carriers

  ghost predicate WordsOk(words: seq<Word>, floors: nat) {
    forall w :: 0 <= w < |words| ==>
      WordOk(words[w]) && words[w].sortingFloor < floors && words[w].arrivalFloor < floors
  }

  /** A word carrier that is busy owns the word it works on. */
  ghost predicate PorterOk(words: seq<Word>, porters: seq<Porter>, p: nat)
    requires p < |porters|
  {
    var pc := porters[p].pc;
    pc != Seek ==> pc.w < |words| && words[pc.w].claimed && !words[pc.w].admitted && words[pc.w].owner == p
  }

  /** A word claimed and not admitted is in the hands of its owner. */
  ghost predicate ClaimOk(words: seq<Word>, porters: seq<Porter>, w: nat)
    requires w < |words|
  {
    words[w].claimed && !words[w].admitted ==>
      0 <= words[w].owner < |porters| && porters[words[w].owner].pc != Seek && porters[words[w].owner].pc.w == w
  }

  ghost predicate PortersOk(words: seq<Word>, porters: seq<Porter>, floors: nat) {
    && (forall p :: 0 <= p < |porters| ==> porters[p].floor < floors && PorterOk(words, porters, p))
    && (forall w :: 0 <= w < |words| ==> ClaimOk(words, porters, w))
  }

  /** Word w holds a place on floor f: from the moment its places are reserved, before it is marked
      admitted, until it is completed. */
  predicate HoldsPlace(words: seq<Word>, porters: seq<Porter>, w: nat, f: nat)
    requires w < |words|
  {
    var x := words[w];
    if x.admitted then x.reserved && (x.arrivalFloor == f || x.sortingFloor == f)
    else
      && x.claimed && 0 <= x.owner < |porters| && porters[x.owner].pc == Reserved(w)
      && (porters[x.owner].floor == f || x.sortingFloor == f)
  }

  function PlaceFlags(words: seq<Word>, porters: seq<Porter>, f: nat): (s: seq<bool>)
    ensures |s| == |words| && forall w :: 0 <= w < |s| ==> s[w] == HoldsPlace(words, porters, w, f)
  {
    seq(|words|, w requires 0 <= w < |words| => HoldsPlace(words, porters, w, f))
  }

  /** How many words hold a place on floor f; a same-floor word is one word. */
  function Places(words: seq<Word>, porters: seq<Porter>, f: nat): nat {
    Count(PlaceFlags(words, porters, f))
  }

  /** Capacity safety. */
  ghost predicate ActiveOk(words: seq<Word>, porters: seq<Porter>, active: seq<int>, capacity: int, floors: nat) {
    |active| == floors && forall f :: 0 <= f < floors ==> active[f] == Places(words, porters, f) && active[f] <= capacity
  }

  // ---------------------------------------------------------------------------------------------
  // Characters on the way

  function HoldFlags(carriers: seq<LetterCarrier>, j: Job): (s: seq<bool>)
    ensures |s| == |carriers| && forall k :: 0 <= k < |s| ==> s[k] == (carriers[k].pc == Hold(j))
  {
    seq(|carriers|, k requires 0 <= k < |carriers| => carriers[k].pc == Hold(j))
  }

  function Holders(carriers: seq<LetterCarrier>, j: Job): nat {
    Count(HoldFlags(carriers, j))
  }

  predicate InTransit(words: seq<Word>, j: Job) {
    j.w < |words| && j.c < |words[j.w].transit| && words[j.w].transit[j.c]
  }

  function Bit(b: bool): nat {
    if b then 1 else 0
  }

  /** Every character in transit is in exactly one place: in a carrier's hands, in the delivery table or
      in the delivery elevator's batch; and nothing else is. */
  ghost predicate JobsOk(words: seq<Word>, carriers: seq<LetterCarrier>, d: Lift) {
    forall j: Job ::
      Tally(d.table, Carrying(j)) + Tally(d.batch, Carrying(j)) + Holders(carriers, j) == Bit(InTransit(words, j))
  }

  // ---------------------------------------------------------------------------------------------
  // Requests, items and carriers

  function Owed(l: Lift, k: nat): nat {
    Tally(l.table, Carrier(k)) + Tally(l.batch, Carrier(k))
  }

  function EventsOf(carriers: seq<LetterCarrier>, k: nat): nat {
    if k < |carriers| then carriers[k].events else 0
  }

  predicate Waits(carriers: seq<LetterCarrier>, k: nat) {
    k < |carriers| && (carriers[k].pc.Post? || carriers[k].pc == Wait)
  }

  /** A carrier has exactly one request or wake-up outstanding while it waits, and none otherwise. */
  ghost predicate TicketsOk(carriers: seq<LetterCarrier>, d: Lift, r: Lift) {
    forall k: nat :: Owed(d, k) + Owed(r, k) + EventsOf(carriers, k) == Bit(Waits(carriers, k))
  }

  function PostFlags(carriers: seq<LetterCarrier>, kind: Kind): (s: seq<bool>)
    ensures |s| == |carriers| && forall k :: 0 <= k < |s| ==> s[k] == (carriers[k].pc == Post(kind))
  {
    seq(|carriers|, k requires 0 <= k < |carriers| => carriers[k].pc == Post(kind))
  }

  function Posters(carriers: seq<LetterCarrier>, kind: Kind): nat {
    Count(PostFlags(carriers, kind))
  }

  /** Items, posts still to come and the take in progress cover all requests in the table. */
  ghost predicate ItemsOk(carriers: seq<LetterCarrier>, l: Lift, kind: Kind) {
    l.items + Posters(carriers, kind) + Bit(l.pc == Collecting) >= Tally(l.table, Used)
  }

  ghost predicate LiftOk(l: Lift, kind: Kind, floors: nat) {
    && |l.table| == MAX_REQUESTS && (l.dir == 1 || l.dir == -1)
    && (forall i :: 0 <= i < |l.table| && l.table[i].Request? ==>
          0 <= l.table[i].to < floors && (l.table[i].job.Some? <==> kind == Delivery))
    && (forall i :: 0 <= i < |l.batch| ==>
          l.batch[i].Request? && 0 <= l.batch[i].to < floors
          && (l.batch[i].job.Some? <==> kind == Delivery && (i > 0 || l.pc == Serving(Handing))))
    && (l.batch != [] <==> l.pc.Serving?)
    && (l.pc == Serving(Handing) ==> kind == Delivery)
    && (l.pc.Serving? && l.pc.phase.Reporting? ==> l.pc.phase.vacated < floors)
  }

  // ---------------------------------------------------------------------------------------------
  // Carriers on floors

  function OnFlags(carriers: seq<LetterCarrier>, f: nat): (s: seq<bool>)
    ensures |s| == |carriers| && forall k :: 0 <= k < |s| ==> s[k] == (carriers[k].floor == f)
  {
    seq(|carriers|, k requires 0 <= k < |carriers| => carriers[k].floor == f)
  }

  function On(carriers: seq<LetterCarrier>, f: nat): nat {
    Count(OnFlags(carriers, f))
  }

  /** The elevator has taken a carrier off floor f and not yet counted it on the next one. */
  predicate Moving(carriers: seq<LetterCarrier>, l: Lift, f: nat) {
    && l.pc.Serving? && l.pc.phase.Reaching? && l.batch != [] && l.batch[0].Request?
    && l.batch[0].carrier < |carriers| && carriers[l.batch[0].carrier].floor == f
  }

  /** A carrier about to be woken stands on the floor it asked for. */
  ghost predicate ArrivedOk(carriers: seq<LetterCarrier>, l: Lift) {
    l.pc.Serving? && (l.pc.phase.Reporting? || l.pc.phase == Signalling) && l.batch != [] && l.batch[0].Request? ==>
      l.batch[0].carrier < |carriers| && carriers[l.batch[0].carrier].floor == l.batch[0].to
  }

  /** carrier_count[f] is the number of carriers on f, up to moves in progress. */
  ghost predicate CountsOk(carriers: seq<LetterCarrier>, counts: seq<int>, d: Lift, r: Lift, floors: nat) {
    |counts| == floors && forall f :: 0 <= f < floors ==>
      counts[f] + Bit(Moving(carriers, d, f)) + Bit(Moving(carriers, r, f)) == On(carriers, f)
  }

  /** A floor waiting for new carriers is empty. */
  ghost predicate RespawnOk(counts: seq<int>, respawn: seq<bool>) {
    |respawn| == |counts| && forall f :: 0 <= f < |counts| ==> counts[f] >= 0 && (respawn[f] ==> counts[f] == 0)
  }

  ghost predicate CarriersOk(carriers: seq<LetterCarrier>, agenda: seq<nat>, floors: nat) {
    && |carriers| <= MAX_CARRIERS && (carriers != [] || agenda != [])
    && (forall k :: 0 <= k < |carriers| ==> carriers[k].floor < floors)
    && (forall i :: 0 <= i < |agenda| ==> agenda[i] < floors)
    && (forall k :: 0 <= k < |carriers| && carriers[k].pc.Ask? ==> 0 <= carriers[k].pc.to < floors)
  }

  // ---------------------------------------------------------------------------------------------
  // Completion

  function CompletedFlags(words: seq<Word>): (s: seq<bool>)
    ensures |s| == |words| && forall w :: 0 <= w < |s| ==> s[w] == words[w].completed
  {
    seq(|words|, w requires 0 <= w < |words| => words[w].completed)
  }

  /** The counter of completed words is exact, and a carrier exits only when all words are completed. */
  ghost predicate DoneOk(words: seq<Word>, carriers: seq<LetterCarrier>, completedWords: nat) {
    && completedWords == Count(CompletedFlags(words))
    && forall k :: 0 <= k < |carriers| && carriers[k].pc == Gone ==> completedWords == |words|
  }

  ghost predicate WordInv(cfg: Config, s: State) {
    && s.cursor < |s.words|
    && WordsOk(s.words, cfg.floors)
    && PortersOk(s.words, s.porters, cfg.floors)
    && ActiveOk(s.words, s.porters, s.active, cfg.capacity, cfg.floors)
  }

  function Other(kind: Kind): Kind {
    if kind == Delivery then Reposition else Delivery
  }

  /** The part of the invariant that concerns carriers and elevators, seen from one of the elevators. */
  ghost predicate LiftInv(cfg: Config, s: State, kind: Kind) {
    && TicketsOk(s.carriers, LiftOf(s, kind), LiftOf(s, Other(kind)))
    && CountsOk(s.carriers, s.counts, LiftOf(s, kind), LiftOf(s, Other(kind)), cfg.floors)
    && ItemsOk(s.carriers, LiftOf(s, kind), kind)
    && ItemsOk(s.carriers, LiftOf(s, Other(kind)), Other(kind))
    && LiftOk(LiftOf(s, kind), kind, cfg.floors)
    && LiftOk(LiftOf(s, Other(kind)), Other(kind), cfg.floors)
    && ArrivedOk(s.carriers, LiftOf(s, kind))
    && ArrivedOk(s.carriers, LiftOf(s, Other(kind)))
    && RespawnOk(s.counts, s.respawn)
    && CarriersOk(s.carriers, s.agenda, cfg.floors)
  }

  ghost predicate Inv(cfg: Config, s: State) {
    && WordInv(cfg, s)
    && DoneOk(s.words, s.carriers, s.completedWords)
    && JobsOk(s.words, s.carriers, s.delivery)
    && LiftInv(cfg, s, Delivery)
  }

  // ---------------------------------------------------------------------------------------------
  // How the counts react to one change

  lemma CarrierChange(cs: seq<LetterCarrier>, k: nat, c: LetterCarrier)
    requires k < |cs|
    ensures forall j :: Holders(cs[k := c], j) == Holders(cs, j) - Bit(cs[k].pc == Hold(j)) + Bit(c.pc == Hold(j))
    ensures forall kind :: Posters(cs[k := c], kind) == Posters(cs, kind) - Bit(cs[k].pc == Post(kind)) + Bit(c.pc == Post(kind))
    ensures forall f :: On(cs[k := c], f) == On(cs, f) - Bit(cs[k].floor == f) + Bit(c.floor == f)
  {
    forall j
      ensures Holders(cs[k := c], j) == Holders(cs, j) - Bit(cs[k].pc == Hold(j)) + Bit(c.pc == Hold(j))
    {
      CountUpdate(HoldFlags(cs, j), k, c.pc == Hold(j));
      assert HoldFlags(cs[k := c], j) == HoldFlags(cs, j)[k := c.pc == Hold(j)];
    }
    forall kind
      ensures Posters(cs[k := c], kind) == Posters(cs, kind) - Bit(cs[k].pc == Post(kind)) + Bit(c.pc == Post(kind))
    {
      CountUpdate(PostFlags(cs, kind), k, c.pc == Post(kind));
      assert PostFlags(cs[k := c], kind) == PostFlags(cs, kind)[k := c.pc == Post(kind)];
    }
    forall f
      ensures On(cs[k := c], f) == On(cs, f) - Bit(cs[k].floor == f) + Bit(c.floor == f)
    {
      CountUpdate(OnFlags(cs, f), k, c.floor == f);
      assert OnFlags(cs[k := c], f) == OnFlags(cs, f)[k := c.floor == f];
    }
  }

  lemma RequestChange(rs: seq<Request>, i: nat, r: Request)
    requires i < |rs|
    ensures forall q :: Tally(rs[i := r], q) == Tally(rs, q) - One(rs[i], q) + One(r, q)
  {
    forall q
      ensures Tally(rs[i := r], q) == Tally(rs, q) - One(rs[i], q) + One(r, q)
    {
      TallyUpdate(rs, i, r, q);
    }
  }

  /** A step of word carrier p on word w, which it owns before or after, leaves ownership in order and
      moves no other word's places. */
  lemma PorterChange(words: seq<Word>, porters: seq<Porter>, w: nat, x: Word, p: nat, pc: PorterPc, floors: nat)
    requires PortersOk(words, porters, floors) && w < |words| && p < |porters|
    requires porters[p].pc != Seek ==> porters[p].pc.w == w
    requires pc != Seek ==> pc.w == w && x.claimed && !x.admitted && x.owner == p
    requires pc == Seek ==> !x.claimed || x.admitted
    requires words[w].claimed && !words[w].admitted ==> words[w].owner == p
    ensures PortersOk(words[w := x], porters[p := porters[p].(pc := pc)], floors)
    ensures var ws := words[w := x];
      var ps := porters[p := porters[p].(pc := pc)];
      forall f :: Places(ws, ps, f) == Places(words, porters, f) - Bit(HoldsPlace(words, porters, w, f)) + Bit(HoldsPlace(ws, ps, w, f))
  {
    var ws := words[w := x];
    var ps := porters[p := porters[p].(pc := pc)];
    forall q | 0 <= q < |ps|
      ensures PorterOk(ws, ps, q)
    {
      assert PorterOk(words, porters, q);
    }
    forall v | 0 <= v < |ws|
      ensures ClaimOk(ws, ps, v)
      ensures v != w ==> ws[v].claimed && !ws[v].admitted && 0 <= ws[v].owner < |ps| ==> ws[v].owner != p
    {
      assert ClaimOk(words, porters, v);
    }
    forall f
      ensures Places(ws, ps, f) == Places(words, porters, f) - Bit(HoldsPlace(words, porters, w, f)) + Bit(HoldsPlace(ws, ps, w, f))
    {
      PlaceUpdate(words, porters, ws, ps, w, f);
    }
  }

  lemma PlaceUpdate(words: seq<Word>, porters: seq<Porter>, ws: seq<Word>, ps: seq<Porter>, w: nat, f: nat)
    requires |ws| == |words| && w < |words|
    requires forall v :: 0 <= v < |words| && v != w ==> HoldsPlace(ws, ps, v, f) == HoldsPlace(words, porters, v, f)
    ensures Places(ws, ps, f) == Places(words, porters, f) - Bit(HoldsPlace(words, porters, w, f)) + Bit(HoldsPlace(ws, ps, w, f))
  {
    CountUpdate(PlaceFlags(words, porters, f), w, HoldsPlace(ws, ps, w, f));
    assert PlaceFlags(ws, ps, f) == PlaceFlags(words, porters, f)[w := HoldsPlace(ws, ps, w, f)];
  }

  /** A change to a word that leaves claim, admission and floors alone concerns no word carrier. */
  lemma WordChange(words: seq<Word>, porters: seq<Porter>, w: nat, x: Word, floors: nat)
    requires PortersOk(words, porters, floors) && w < |words|
    requires x.claimed == words[w].claimed && x.owner == words[w].owner && x.admitted == words[w].admitted
    requires x.arrivalFloor == words[w].arrivalFloor && x.sortingFloor == words[w].sortingFloor
    ensures PortersOk(words[w := x], porters, floors)
    ensures x.reserved == words[w].reserved ==> forall f :: Places(words[w := x], porters, f) == Places(words, porters, f)
    ensures Count(CompletedFlags(words[w := x])) == Count(CompletedFlags(words)) - Bit(words[w].completed) + Bit(x.completed)
  {
    var ws := words[w := x];
    forall q | 0 <= q < |porters|
      ensures PorterOk(ws, porters, q)
    {
      assert PorterOk(words, porters, q);
    }
    forall v | 0 <= v < |ws|
      ensures ClaimOk(ws, porters, v)
    {
      assert ClaimOk(words, porters, v);
    }
    if x.reserved == words[w].reserved {
      forall f
        ensures Places(ws, porters, f) == Places(words, porters, f)
      {
        assert PlaceFlags(ws, porters, f) == PlaceFlags(words, porters, f);
      }
    }
    CountUpdate(CompletedFlags(words), w, x.completed);
    assert CompletedFlags(ws) == CompletedFlags(words)[w := x.completed];
  }

  // ---------------------------------------------------------------------------------------------
  // Word carriers' steps

  lemma ClaimWordKeeps(cfg: Config, s: State, p: nat)
    requires Inv(cfg, s) && Enabled(cfg, s, ClaimWord(p))
    ensures Inv(cfg, Apply(cfg, s, ClaimWord(p)))
  {
    var w := NextWord(Available(s.words), s.cursor, 0);
    var x := s.words[w].(claimed := true, owner := p);
    PorterChange(s.words, s.porters, w, x, p, Claimed(w), cfg.floors);
    PorterWordFrame(s, w, x);
  }

  /** A word carrier's change to a word touches neither its characters nor its completion. */
  lemma PorterWordFrame(s: State, w: nat, x: Word)
    requires w < |s.words| && x.completed == s.words[w].completed
    requires x.transit == s.words[w].transit && WordOk(s.words[w])
    requires x.area == s.words[w].area && x.text == s.words[w].text && x.delivered == s.words[w].delivered
    requires x.charClaimed == s.words[w].charClaimed
    requires DoneOk(s.words, s.carriers, s.completedWords) && JobsOk(s.words, s.carriers, s.delivery)
    ensures DoneOk(s.words[w := x], s.carriers, s.completedWords)
    ensures JobsOk(s.words[w := x], s.carriers, s.delivery)
    ensures !s.words[w].admitted && (x.admitted ==> x.claimed) && (x.reserved <==> x.admitted) && !x.completed ==> WordOk(x)
  {
    assert CompletedFlags(s.words[w := x]) == CompletedFlags(s.words);
    assert forall j: Job :: InTransit(s.words[w := x], j) == InTransit(s.words, j);
    forall c | 0 <= c < |x.text| && !s.words[w].admitted
      ensures CharOk(x, c)
    {
      assert CharOk(s.words[w], c);
    }
  }

  lemma ReserveWords(cfg: Config, s: State, p: nat)
    requires WordInv(cfg, s) && Enabled(cfg, s, ReserveFloors(p))
    ensures WordInv(cfg, ApplyReserveFloors(cfg, s, p))
  {
    var w := s.porters[p].pc.w;
    assert PorterOk(s.words, s.porters, p);
    var ok := HasRoom(s.active, cfg.capacity, s.porters[p].floor, s.words[w].sortingFloor);
    PorterChange(s.words, s.porters, w, s.words[w], p, if ok then Reserved(w) else Refused(w), cfg.floors);
    assert s.words[w := s.words[w]] == s.words;
  }

  lemma ReserveFloorsKeeps(cfg: Config, s: State, p: nat)
    requires Inv(cfg, s) && Enabled(cfg, s, ReserveFloors(p))
    ensures Inv(cfg, Apply(cfg, s, ReserveFloors(p)))
  {
    ReserveWords(cfg, s, p);
  }

  lemma AdmitKeeps(cfg: Config, s: State, p: nat)
    requires Inv(cfg, s) && Enabled(cfg, s, Admit(p))
    ensures Inv(cfg, Apply(cfg, s, Admit(p)))
  {
    var w := s.porters[p].pc.w;
    assert PorterOk(s.words, s.porters, p);
    var x := s.words[w].(admitted := true, arrivalFloor := s.porters[p].floor, reserved := true);
    AdmitWords(cfg, s, p, w, x);
    PorterWordFrame(s, w, x);
  }

  lemma AdmitWords(cfg: Config, s: State, p: nat, w: nat, x: Word)
    requires WordInv(cfg, s) && Enabled(cfg, s, Admit(p)) && w == s.porters[p].pc.w && PorterOk(s.words, s.porters, p)
    requires DoneOk(s.words, s.carriers, s.completedWords) && JobsOk(s.words, s.carriers, s.delivery)
    requires x == s.words[w].(admitted := true, arrivalFloor := s.porters[p].floor, reserved := true)
    ensures WordInv(cfg, Apply(cfg, s, Admit(p)))
  {
    PorterChange(s.words, s.porters, w, x, p, Seek, cfg.floors);
    PorterWordFrame(s, w, x);
  }

  lemma PutBackKeeps(cfg: Config, s: State, p: nat)
    requires Inv(cfg, s) && Enabled(cfg, s, PutBack(p))
    ensures Inv(cfg, Apply(cfg, s, PutBack(p)))
  {
    var w := s.porters[p].pc.w;
    assert PorterOk(s.words, s.porters, p);
    var x := s.words[w].(claimed := false, owner := -1);
    PorterChange(s.words, s.porters, w, x, p, Seek, cfg.floors);
    PorterWordFrame(s, w, x);
  }

  // ---------------------------------------------------------------------------------------------
  // Letter carriers' steps

  lemma BothSides(cfg: Config, s: State, kind: Kind)
    ensures LiftInv(cfg, s, kind) <==> LiftInv(cfg, s, Delivery)
  {
    if kind == Reposition {
      TicketsSwap(s.carriers, s.delivery, s.reposition);
      CountsSwap(s.carriers, s.counts, s.delivery, s.reposition, cfg.floors);
    }
  }

  lemma TicketsSwap(cs: seq<LetterCarrier>, l: Lift, o: Lift)
    ensures TicketsOk(cs, l, o) <==> TicketsOk(cs, o, l)
  {
  }

  lemma CountsSwap(cs: seq<LetterCarrier>, counts: seq<int>, l: Lift, o: Lift, floors: nat)
    ensures CountsOk(cs, counts, l, o, floors) <==> CountsOk(cs, counts, o, l, floors)
  {
  }

  /** A step that leaves words and word carriers alone. */
  lemma Rebuilt(cfg: Config, s: State, t: State, kind: Kind)
    requires WordInv(cfg, s)
    requires t.words == s.words && t.porters == s.porters && t.active == s.active && t.cursor == s.cursor
    requires LiftInv(cfg, t, kind) && JobsOk(t.words, t.carriers, t.delivery) && DoneOk(t.words, t.carriers, t.completedWords)
    ensures Inv(cfg, t)
  {
    BothSides(cfg, t, kind);
  }

  lemma PcTickets(cs: seq<LetterCarrier>, k: nat, pc: CarrierPc, l: Lift, o: Lift)
    requires TicketsOk(cs, l, o) && k < |cs| && (Waits(cs, k) <==> pc.Post? || pc == Wait)
    ensures TicketsOk(cs[k := cs[k].(pc := pc)], l, o)
  {
    var cs' := cs[k := cs[k].(pc := pc)];
    forall q: nat
      ensures EventsOf(cs', q) == EventsOf(cs, q) && Waits(cs', q) == Waits(cs, q)
    {
    }
  }

  lemma PcItems(cs: seq<LetterCarrier>, k: nat, pc: CarrierPc, l: Lift, kind: Kind)
    requires ItemsOk(cs, l, kind) && k < |cs| && !cs[k].pc.Post? && !pc.Post?
    ensures ItemsOk(cs[k := cs[k].(pc := pc)], l, kind)
  {
    CarrierChange(cs, k, cs[k].(pc := pc));
  }

  /** A change of a carrier's program counter that keeps it on or off the list of those that wait. */
  lemma CarrierFrame(cfg: Config, s: State, k: nat, pc: CarrierPc)
    requires LiftInv(cfg, s, Delivery) && k < |s.carriers|
    requires Waits(s.carriers, k) <==> pc.Post? || pc == Wait
    requires pc.Ask? ==> 0 <= pc.to < cfg.floors
    requires !s.carriers[k].pc.Post? && !pc.Post?
    ensures LiftInv(cfg, SetCarrier(s, k, pc), Delivery)
  {
    PcTickets(s.carriers, k, pc, s.delivery, s.reposition);
    PcItems(s.carriers, k, pc, s.delivery, Delivery);
    PcItems(s.carriers, k, pc, s.reposition, Reposition);
    PcFrame(s.carriers, k, pc, s.counts, s.delivery, s.reposition, cfg.floors, s.agenda);
  }

  /** A claim or a delivery changes one character of one word and nothing about its admission. */
  lemma CharFrame(cfg: Config, s: State, w: nat, x: Word)
    requires Inv(cfg, s) && w < |s.words| && WordOk(x)
    requires x == s.words[w].(area := x.area, charClaimed := x.charClaimed, delivered := x.delivered, transit := x.transit)
    ensures WordsOk(s.words[w := x], cfg.floors) && PortersOk(s.words[w := x], s.porters, cfg.floors)
    ensures ActiveOk(s.words[w := x], s.porters, s.active, cfg.capacity, cfg.floors)
    ensures DoneOk(s.words[w := x], s.carriers, s.completedWords)
  {
    WordChange(s.words, s.porters, w, x, cfg.floors);
  }

  lemma PickCharJobs(words: seq<Word>, cs: seq<LetterCarrier>, d: Lift, k: nat, j: Job)
    requires JobsOk(words, cs, d) && k < |cs| && cs[k].pc == Scan && ValidJob(words, j) && !words[j.w].transit[j.c]
    ensures JobsOk(words[j.w := ClaimChar(words[j.w], j.c)], cs[k := cs[k].(pc := Hold(j))], d)
  {
    CarrierChange(cs, k, cs[k].(pc := Hold(j)));
    var ws := words[j.w := ClaimChar(words[j.w], j.c)];
    assert forall i: Job :: InTransit(ws, i) <==> InTransit(words, i) || i == j;
  }

  /** One character of a word changes, and the program counter of one carrier. */
  lemma WordAndCarrier(cfg: Config, s: State, w: nat, x: Word, k: nat, pc: CarrierPc)
    requires Inv(cfg, s) && w < |s.words| && WordOk(x) && k < |s.carriers|
    requires x == s.words[w].(area := x.area, charClaimed := x.charClaimed, delivered := x.delivered, transit := x.transit)
    requires LiftInv(cfg, SetCarrier(s, k, pc), Delivery) && pc != Gone
    requires JobsOk(s.words[w := x], s.carriers[k := s.carriers[k].(pc := pc)], s.delivery)
    ensures Inv(cfg, SetCarrier(SetWord(s, w, x), k, pc))
  {
    CharFrame(cfg, s, w, x);
    LiftElsewhere(cfg, SetCarrier(s, k, pc), s.words[w := x]);
  }

  /** Carriers and elevators do not depend on the words. */
  lemma LiftElsewhere(cfg: Config, s: State, words: seq<Word>)
    requires LiftInv(cfg, s, Delivery)
    ensures LiftInv(cfg, s.(words := words), Delivery)
  {
  }

  lemma PickedWord(cfg: Config, s: State, k: nat, j: Job)
    requires Inv(cfg, s) && k < |s.carriers| && s.carriers[k].pc == Scan && ValidJob(s.words, j)
    requires s.words[j.w].admitted && CharFree(s.words[j.w], j.c)
    ensures Inv(cfg, SetCarrier(SetWord(s, j.w, ClaimChar(s.words[j.w], j.c)), k, Hold(j)))
  {
    ClaimCharOk(s.words[j.w], j.c);
    CarrierFrame(cfg, s, k, Hold(j));
    PickCharJobs(s.words, s.carriers, s.delivery, k, j);
    WordAndCarrier(cfg, s, j.w, ClaimChar(s.words[j.w], j.c), k, Hold(j));
  }

  lemma PickCharKeeps(cfg: Config, s: State, k: nat, j: Job)
    requires Inv(cfg, s) && Enabled(cfg, s, PickChar(k, j))
    ensures Inv(cfg, Apply(cfg, s, PickChar(k, j)))
  {
    PickedWord(cfg, s, k, j);
  }

  /** A step from scanning to asking or leaving. */
  lemma LeaveScanKeeps(cfg: Config, s: State, k: nat, pc: CarrierPc)
    requires Inv(cfg, s) && k < |s.carriers| && s.carriers[k].pc == Scan
    requires (pc.Ask? && 0 <= pc.to < cfg.floors) || (pc == Gone && s.completedWords >= |s.words|)
    ensures Inv(cfg, SetCarrier(s, k, pc))
  {
    CarrierFrame(cfg, s, k, pc);
    CarrierChange(s.carriers, k, s.carriers[k].(pc := pc));
  }

  /** A character whose delivery is due really is in transit, and delivering it takes it out. */
  lemma DueInTransit(words: seq<Word>, cs: seq<LetterCarrier>, d: Lift, j: Job)
    requires JobsOk(words, cs, d) && (Holders(cs, j) > 0 || Tally(d.batch, Carrying(j)) > 0)
    ensures InTransit(words, j)
  {
    assert Tally(d.table, Carrying(j)) + Tally(d.batch, Carrying(j)) + Holders(cs, j) == Bit(InTransit(words, j));
  }

  lemma DeliverTransit(words: seq<Word>, j: Job)
    requires ValidJob(words, j) && FreeSlotOf(words[j.w])
    ensures forall i: Job :: InTransit(words[j.w := Deliver(words[j.w], j.c)], i) <==> InTransit(words, i) && i != j
  {
  }

  predicate FreeSlotOf(w: Word) {
    SortingArea.FreeSlot(w.area, 0) != -1
  }

  lemma HolderCounted(cs: seq<LetterCarrier>, k: nat)
    requires k < |cs| && cs[k].pc.Hold?
    ensures Holders(cs, cs[k].pc.job) > 0
  {
    CountExtremes(HoldFlags(cs, cs[k].pc.job));
  }

  lemma PlaceDirectJobs(words: seq<Word>, cs: seq<LetterCarrier>, d: Lift, k: nat)
    requires JobsOk(words, cs, d) && k < |cs| && cs[k].pc.Hold? && ValidJob(words, cs[k].pc.job)
    requires FreeSlotOf(words[cs[k].pc.job.w])
    ensures var j := cs[k].pc.job; JobsOk(words[j.w := Deliver(words[j.w], j.c)], cs[k := cs[k].(pc := Scan)], d)
  {
    CarrierChange(cs, k, cs[k].(pc := Scan));
    HolderCounted(cs, k);
    DueInTransit(words, cs, d, cs[k].pc.job);
    DeliverTransit(words, cs[k].pc.job);
  }

  lemma PlacedWord(cfg: Config, s: State, k: nat, j: Job)
    requires Inv(cfg, s) && k < |s.carriers| && s.carriers[k].pc == Hold(j) && ValidJob(s.words, j)
    ensures Inv(cfg, SetCarrier(SetWord(s, j.w, Deliver(s.words[j.w], j.c)), k, Scan))
  {
    HolderCounted(s.carriers, k);
    DueInTransit(s.words, s.carriers, s.delivery, j);
    DeliverOk(s.words[j.w], j.c);
    CarrierFrame(cfg, s, k, Scan);
    PlaceDirectJobs(s.words, s.carriers, s.delivery, k);
    WordAndCarrier(cfg, s, j.w, Deliver(s.words[j.w], j.c), k, Scan);
  }

  lemma PlaceDirectKeeps(cfg: Config, s: State, k: nat)
    requires Inv(cfg, s) && Enabled(cfg, s, PlaceDirect(k))
    ensures Inv(cfg, Apply(cfg, s, PlaceDirect(k)))
  {
    PlacedWord(cfg, s, k, s.carriers[k].pc.job);
  }

  // Entering a request: the carrier starts to wait with one request outstanding.

  lemma EnterTickets(cs: seq<LetterCarrier>, l: Lift, o: Lift, k: nat, i: nat, r: Request, kind: Kind)
    requires TicketsOk(cs, l, o) && k < |cs| && !Waits(cs, k) && i < |l.table| && l.table[i].Free?
    requires r.Request? && r.carrier == k
    ensures TicketsOk(cs[k := cs[k].(pc := Post(kind))], l.(table := l.table[i := r]), o)
  {
    RequestChange(l.table, i, r);
    var ds := cs[k := cs[k].(pc := Post(kind))];
    var m := l.(table := l.table[i := r]);
    forall q: nat
      ensures Owed(m, q) + Owed(o, q) + EventsOf(ds, q) == Bit(Waits(ds, q))
    {
      assert Owed(l, q) + Owed(o, q) + EventsOf(cs, q) == Bit(Waits(cs, q));
    }
  }

  lemma EnterItems(cs: seq<LetterCarrier>, l: Lift, k: nat, i: nat, r: Request, kind: Kind)
    requires ItemsOk(cs, l, kind) && k < |cs| && !cs[k].pc.Post? && i < |l.table| && l.table[i].Free?
    ensures ItemsOk(cs[k := cs[k].(pc := Post(kind))], l.(table := l.table[i := r]), kind)
  {
    RequestChange(l.table, i, r);
    CarrierChange(cs, k, cs[k].(pc := Post(kind)));
  }

  lemma EnterJobs(words: seq<Word>, cs: seq<LetterCarrier>, d: Lift, k: nat, i: nat, r: Request)
    requires JobsOk(words, cs, d) && k < |cs| && cs[k].pc.Hold? && i < |d.table| && d.table[i].Free?
    requires r.Request? && r.job == Some(cs[k].pc.job)
    ensures JobsOk(words, cs[k := cs[k].(pc := Post(Delivery))], d.(table := d.table[i := r]))
  {
    RequestChange(d.table, i, r);
    CarrierChange(cs, k, cs[k].(pc := Post(Delivery)));
  }

  /** A carrier that changes its program counter, but not its floor, leaves counts and lists alone. */
  lemma PcFrame(cs: seq<LetterCarrier>, k: nat, pc: CarrierPc, counts: seq<int>, l: Lift, o: Lift, floors: nat, agenda: seq<nat>)
    requires CountsOk(cs, counts, l, o, floors) && CarriersOk(cs, agenda, floors) && k < |cs|
    requires pc.Ask? ==> 0 <= pc.to < floors
    ensures CountsOk(cs[k := cs[k].(pc := pc)], counts, l, o, floors)
    ensures CarriersOk(cs[k := cs[k].(pc := pc)], agenda, floors)
  {
    CarrierChange(cs, k, cs[k].(pc := pc));
  }

  lemma MovingFrame(cs: seq<LetterCarrier>, counts: seq<int>, l: Lift, m: Lift, o: Lift, floors: nat)
    requires CountsOk(cs, counts, l, o, floors)
    requires (m.pc == l.pc && m.batch == l.batch)
      || !((l.pc.Serving? && l.pc.phase.Reaching?) || (m.pc.Serving? && m.pc.phase.Reaching?))
    ensures CountsOk(cs, counts, m, o, floors)
  {
    assert forall f :: Moving(cs, m, f) == Moving(cs, l, f);
  }

  lemma EnterLift(cfg: Config, s: State, k: nat, kind: Kind, r: Request)
    requires LiftInv(cfg, s, kind) && k < |s.carriers| && FirstFree(LiftOf(s, kind).table, 0) != -1
    requires s.carriers[k].pc.Hold? || s.carriers[k].pc.Ask?
    requires r.Request? && r.carrier == k && 0 <= r.to < cfg.floors && (r.job.Some? <==> kind == Delivery)
    ensures LiftInv(cfg, Enter(s, k, kind, r), kind)
  {
    var l := LiftOf(s, kind);
    var t := Enter(s, k, kind, r);
    var m := l.(table := l.table[FirstFree(l.table, 0) := r]);
    assert LiftOf(t, kind) == m && LiftOf(t, Other(kind)) == LiftOf(s, Other(kind));
    assert t.carriers == s.carriers[k := s.carriers[k].(pc := Post(kind))];
    EnterParts(cfg, s, t, k, kind, r, l, m, LiftOf(s, Other(kind)));
  }

  lemma EnterParts(cfg: Config, s: State, t: State, k: nat, kind: Kind, r: Request, l: Lift, m: Lift, o: Lift)
    requires LiftInv(cfg, s, kind) && k < |s.carriers| && FirstFree(l.table, 0) != -1
    requires s.carriers[k].pc.Hold? || s.carriers[k].pc.Ask?
    requires r.Request? && r.carrier == k && 0 <= r.to < cfg.floors && (r.job.Some? <==> kind == Delivery)
    requires l == LiftOf(s, kind) && o == LiftOf(s, Other(kind)) && m == l.(table := l.table[FirstFree(l.table, 0) := r])
    requires LiftOf(t, kind) == m && LiftOf(t, Other(kind)) == o && t.carriers == s.carriers[k := s.carriers[k].(pc := Post(kind))]
    requires t.counts == s.counts && t.respawn == s.respawn && t.agenda == s.agenda
    ensures LiftInv(cfg, t, kind)
  {
    var i := FirstFree(l.table, 0);
    EnterTickets(s.carriers, l, o, k, i, r, kind);
    EnterItems(s.carriers, l, k, i, r, kind);
    OtherItems(s.carriers, k, Post(kind), o, Other(kind));
    PcFrame(s.carriers, k, Post(kind), s.counts, l, o, cfg.floors, s.agenda);
    MovingFrame(t.carriers, s.counts, l, m, o, cfg.floors);
    EnterTable(l, i, r, kind, cfg.floors);
    PcArrived(s.carriers, k, Post(kind), l);
    PcArrived(s.carriers, k, Post(kind), o);
    Assembled(cfg, t, kind, m, o);
  }

  lemma OtherItems(cs: seq<LetterCarrier>, k: nat, pc: CarrierPc, l: Lift, kind: Kind)
    requires ItemsOk(cs, l, kind) && k < |cs| && cs[k].pc != Post(kind)
    ensures ItemsOk(cs[k := cs[k].(pc := pc)], l, kind)
  {
    CarrierChange(cs, k, cs[k].(pc := pc));
  }

  lemma EnterTable(l: Lift, i: nat, r: Request, kind: Kind, floors: nat)
    requires LiftOk(l, kind, floors) && i < |l.table| && r.Request? && 0 <= r.to < floors && (r.job.Some? <==> kind == Delivery)
    ensures LiftOk(l.(table := l.table[i := r]), kind, floors)
  {
  }

  lemma PcArrived(cs: seq<LetterCarrier>, k: nat, pc: CarrierPc, l: Lift)
    requires ArrivedOk(cs, l) && k < |cs|
    ensures ArrivedOk(cs[k := cs[k].(pc := pc)], l)
  {
  }

  /** The parts of the invariant for named elevators make the whole. */
  lemma Assembled(cfg: Config, t: State, kind: Kind, l: Lift, o: Lift)
    requires LiftOf(t, kind) == l && LiftOf(t, Other(kind)) == o
    requires TicketsOk(t.carriers, l, o) && CountsOk(t.carriers, t.counts, l, o, cfg.floors)
    requires ItemsOk(t.carriers, l, kind) && ItemsOk(t.carriers, o, Other(kind))
    requires LiftOk(l, kind, cfg.floors) && LiftOk(o, Other(kind), cfg.floors)
    requires ArrivedOk(t.carriers, l) && ArrivedOk(t.carriers, o)
    requires RespawnOk(t.counts, t.respawn) && CarriersOk(t.carriers, t.agenda, cfg.floors)
    ensures LiftInv(cfg, t, kind)
  {
  }

  lemma EnterKeeps(cfg: Config, s: State, k: nat, kind: Kind, r: Request)
    requires Inv(cfg, s) && k < |s.carriers| && FirstFree(LiftOf(s, kind).table, 0) != -1
    requires r.Request? && r.carrier == k && 0 <= r.to < cfg.floors
    requires if kind == Delivery then s.carriers[k].pc.Hold? && r.job == Some(s.carriers[k].pc.job)
             else s.carriers[k].pc.Ask? && r.job == None
    ensures Inv(cfg, Enter(s, k, kind, r))
  {
    BothSides(cfg, s, kind);
    EnterLift(cfg, s, k, kind, r);
    if kind == Delivery {
      EnterJobs(s.words, s.carriers, s.delivery, k, FirstFree(s.delivery.table, 0), r);
    } else {
      PcJobs(s.words, s.carriers, s.delivery, k, Post(kind));
    }
    Rebuilt(cfg, s, Enter(s, k, kind, r), kind);
  }

  /** A carrier that holds no character before or after does not matter to the characters' whereabouts. */
  lemma PcJobs(words: seq<Word>, cs: seq<LetterCarrier>, d: Lift, k: nat, pc: CarrierPc)
    requires JobsOk(words, cs, d) && k < |cs| && !cs[k].pc.Hold? && !pc.Hold?
    ensures JobsOk(words, cs[k := cs[k].(pc := pc)], d)
  {
    CarrierChange(cs, k, cs[k].(pc := pc));
  }

  lemma EnterDeliveryKeeps(cfg: Config, s: State, k: nat)
    requires Inv(cfg, s) && Enabled(cfg, s, EnterDelivery(k))
    ensures Inv(cfg, Apply(cfg, s, EnterDelivery(k)))
  {
    var j := s.carriers[k].pc.job;
    EnterKeeps(cfg, s, k, Delivery, Request(k, s.carriers[k].floor, s.words[j.w].sortingFloor, Some(j)));
  }

  lemma EnterRepositionKeeps(cfg: Config, s: State, k: nat)
    requires Inv(cfg, s) && Enabled(cfg, s, EnterReposition(k))
    ensures Inv(cfg, Apply(cfg, s, EnterReposition(k)))
  {
    EnterKeeps(cfg, s, k, Reposition, Request(k, s.carriers[k].floor, s.carriers[k].pc.to, None));
  }

  lemma PostTickets(cs: seq<LetterCarrier>, l: Lift, o: Lift, k: nat, kind: Kind)
    requires TicketsOk(cs, l, o) && ItemsOk(cs, l, kind) && k < |cs| && cs[k].pc == Post(kind)
    ensures TicketsOk(cs[k := cs[k].(pc := Wait)], l.(items := l.items + 1), o)
    ensures ItemsOk(cs[k := cs[k].(pc := Wait)], l.(items := l.items + 1), kind)
  {
    CarrierChange(cs, k, cs[k].(pc := Wait));
    assert forall q: nat :: Owed(l.(items := l.items + 1), q) == Owed(l, q);
  }

  lemma PostLift(cfg: Config, s: State, k: nat, kind: Kind)
    requires LiftInv(cfg, s, kind) && k < |s.carriers| && s.carriers[k].pc == Post(kind)
    ensures LiftInv(cfg, ApplyPost(s, k, kind), kind)
  {
    var l := LiftOf(s, kind);
    var o := LiftOf(s, Other(kind));
    PostTickets(s.carriers, l, o, k, kind);
    CarrierChange(s.carriers, k, s.carriers[k].(pc := Wait));
    PcFrame(s.carriers, k, Wait, s.counts, l, o, cfg.floors, s.agenda);
    MovingFrame(SetCarrier(s, k, Wait).carriers, s.counts, l, l.(items := l.items + 1), o, cfg.floors);
  }

  lemma PostedItem(cfg: Config, s: State, k: nat, kind: Kind)
    requires Inv(cfg, s) && k < |s.carriers| && s.carriers[k].pc == Post(kind)
    ensures Inv(cfg, ApplyPost(s, k, kind))
  {
    BothSides(cfg, s, kind);
    PostLift(cfg, s, k, kind);
    PcJobs(s.words, s.carriers, s.delivery, k, Wait);
    Rebuilt(cfg, s, ApplyPost(s, k, kind), kind);
  }

  lemma PostItemKeeps(cfg: Config, s: State, k: nat)
    requires Inv(cfg, s) && Enabled(cfg, s, PostItem(k))
    ensures Inv(cfg, Apply(cfg, s, PostItem(k)))
  {
    PostedItem(cfg, s, k, s.carriers[k].pc.kind);
  }

  /** A wake-up is given to or taken from a carrier, together with the request or the wait it ends. */
  lemma WakeTickets(cs: seq<LetterCarrier>, l: Lift, o: Lift, k: nat)
    requires TicketsOk(cs, l, o) && k < |cs| && cs[k].pc == Wait && cs[k].events > 0
    ensures TicketsOk(cs[k := cs[k].(pc := Scan, events := cs[k].events - 1)], l, o)
  {
    var ds := cs[k := cs[k].(pc := Scan, events := cs[k].events - 1)];
    forall q: nat
      ensures Owed(l, q) + Owed(o, q) + EventsOf(ds, q) == Bit(Waits(ds, q))
    {
      assert Owed(l, q) + Owed(o, q) + EventsOf(cs, q) == Bit(Waits(cs, q));
    }
  }

  lemma WakeLift(cfg: Config, s: State, k: nat)
    requires LiftInv(cfg, s, Delivery) && k < |s.carriers| && s.carriers[k].pc == Wait && s.carriers[k].events > 0
    ensures LiftInv(cfg, s.(carriers := s.carriers[k := s.carriers[k].(pc := Scan, events := s.carriers[k].events - 1)]), Delivery)
  {
    var c := s.carriers[k].(pc := Scan, events := s.carriers[k].events - 1);
    WakeTickets(s.carriers, s.delivery, s.reposition, k);
    CarrierChange(s.carriers, k, c);
    FloorFrame(s.carriers, k, c, s.counts, s.delivery, s.reposition, cfg.floors);
  }

  lemma WakeKeeps(cfg: Config, s: State, k: nat)
    requires Inv(cfg, s) && Enabled(cfg, s, Wake(k))
    ensures Inv(cfg, Apply(cfg, s, Wake(k)))
  {
    var c := s.carriers[k].(pc := Scan, events := s.carriers[k].events - 1);
    WakeLift(cfg, s, k);
    EventJobs(s.words, s.carriers, s.delivery, k, c);
    Rebuilt(cfg, s, s.(carriers := s.carriers[k := c]), Delivery);
  }

  lemma EventJobs(words: seq<Word>, cs: seq<LetterCarrier>, d: Lift, k: nat, c: LetterCarrier)
    requires JobsOk(words, cs, d) && k < |cs| && !cs[k].pc.Hold? && !c.pc.Hold?
    ensures JobsOk(words, cs[k := c], d)
  {
    CarrierChange(cs, k, c);
  }

  lemma FloorFrame(cs: seq<LetterCarrier>, k: nat, c: LetterCarrier, counts: seq<int>, l: Lift, o: Lift, floors: nat)
    requires CountsOk(cs, counts, l, o, floors) && k < |cs| && c.floor == cs[k].floor
    ensures CountsOk(cs[k := c], counts, l, o, floors)
  {
    CarrierChange(cs, k, c);
  }

  // ---------------------------------------------------------------------------------------------
  // Elevators' steps

  /** The elevator m carries the same characters and owes the same carriers as l. */
  ghost predicate SameContents(l: Lift, m: Lift) {
    && (forall k: nat :: Owed(m, k) == Owed(l, k))
    && (forall j: Job :: Tally(m.table, Carrying(j)) + Tally(m.batch, Carrying(j)) == Tally(l.table, Carrying(j)) + Tally(l.batch, Carrying(j)))
  }

  predicate BetweenFloors(l: Lift) {
    l.pc.Serving? && l.pc.phase.Reaching?
  }

  /** A step of one elevator that neither moves a carrier nor changes what it holds. */
  lemma LiftFrame(cfg: Config, s: State, kind: Kind, m: Lift, respawn: seq<bool>)
    requires LiftInv(cfg, s, kind) && LiftOk(m, kind, cfg.floors) && ItemsOk(s.carriers, m, kind)
    requires SameContents(LiftOf(s, kind), m) && !BetweenFloors(LiftOf(s, kind)) && !BetweenFloors(m)
    requires RespawnOk(s.counts, respawn) && ArrivedOk(s.carriers, m)
    ensures LiftInv(cfg, WithLift(s, kind, m).(respawn := respawn), kind)
  {
    MovingFrame(s.carriers, s.counts, LiftOf(s, kind), m, LiftOf(s, Other(kind)), cfg.floors);
    OwedFrame(s.carriers, LiftOf(s, kind), m, LiftOf(s, Other(kind)));
  }

  lemma LiftFrameKeeps(cfg: Config, s: State, kind: Kind, m: Lift, respawn: seq<bool>)
    requires Inv(cfg, s) && LiftInv(cfg, WithLift(s, kind, m).(respawn := respawn), kind)
    requires SameContents(LiftOf(s, kind), m)
    ensures Inv(cfg, WithLift(s, kind, m).(respawn := respawn))
  {
    if kind == Delivery {
      JobsFrame(s.words, s.carriers, s.delivery, m);
    }
    Rebuilt(cfg, s, WithLift(s, kind, m).(respawn := respawn), kind);
  }

  lemma OwedFrame(cs: seq<LetterCarrier>, l: Lift, m: Lift, o: Lift)
    requires TicketsOk(cs, l, o) && SameContents(l, m)
    ensures TicketsOk(cs, m, o)
  {
  }

  lemma JobsFrame(words: seq<Word>, cs: seq<LetterCarrier>, l: Lift, m: Lift)
    requires JobsOk(words, cs, l) && SameContents(l, m)
    ensures JobsOk(words, cs, m)
  {
  }

  lemma TakenItem(cfg: Config, s: State, kind: Kind, m: Lift)
    requires Inv(cfg, s) && LiftOf(s, kind).pc == Idle && LiftOf(s, kind).items > 0
    requires m == LiftOf(s, kind).(items := LiftOf(s, kind).items - 1, pc := Collecting)
    ensures Inv(cfg, WithLift(s, kind, m))
  {
    BothSides(cfg, s, kind);
    LiftFrame(cfg, s, kind, m, s.respawn);
    LiftFrameKeeps(cfg, s, kind, m, s.respawn);
    assert WithLift(s, kind, m).(respawn := s.respawn) == WithLift(s, kind, m);
  }

  lemma TakeItemKeeps(cfg: Config, s: State, kind: Kind)
    requires Inv(cfg, s) && Enabled(cfg, s, TakeItem(kind))
    ensures Inv(cfg, Apply(cfg, s, TakeItem(kind)))
  {
    var l := LiftOf(s, kind);
    TakenItem(cfg, s, kind, l.(items := l.items - 1, pc := Collecting));
  }

  /** A batch is well formed and holds exactly what the table lost. */
  lemma BatchOk(l: Lift, kind: Kind, cap: int, floors: nat)
    requires LiftOk(l, kind, floors) && l.pc == Collecting
    ensures LiftOk(WithBatch(l, kind, cap), kind, floors)
    ensures var m := WithBatch(l, kind, cap);
      && SameContents(l, m)
      && (Tally(m.table, Used) == 0 || Tally(m.table, Used) < Tally(l.table, Used))
      && m.items == l.items && m.pc != Collecting && !BetweenFloors(m)
  {
    var m := WithBatch(l, kind, cap);
    forall q
      ensures Tally(m.batch, q) + Tally(m.table, q) == Tally(l.batch, q) + Tally(l.table, q)
    {
      assert Tally(l.batch, q) == 0;
      CollectConserves(l.table, kind, l.dir, l.floor, cap, q);
    }
    CollectProgress(l.table, kind, l.dir, l.floor, cap);
    TallyExtremes(m.batch, Used);
    forall i | 0 <= i < |m.batch|
      ensures exists n :: 0 <= n < |l.table| && l.table[n] == m.batch[i]
    {
      FromTable(l, m.batch, m.table, i);
    }
    forall i | 0 <= i < |m.table| && m.table[i].Request?
      ensures exists n :: 0 <= n < |l.table| && l.table[n] == m.table[i]
    {
      FromTable(l, m.table, m.batch, i);
    }
  }

  lemma FromTable(l: Lift, part: seq<Request>, rest: seq<Request>, i: nat)
    requires i < |part| && part[i].Request?
    requires Tally(part, Same(part[i])) + Tally(rest, Same(part[i])) == Tally(l.batch, Same(part[i])) + Tally(l.table, Same(part[i]))
    requires l.batch == []
    ensures exists n :: 0 <= n < |l.table| && l.table[n] == part[i]
  {
    TallyExtremes(part, Same(part[i]));
    assert Matches(part[i], Same(part[i]));
    TallyExtremes(l.table, Same(part[i]));
    assert Tally(l.batch, Same(part[i])) == 0;
    var n :| 0 <= n < |l.table| && Matches(l.table[n], Same(part[i]));
  }

  lemma TakeBatchKeeps(cfg: Config, s: State, kind: Kind)
    requires Inv(cfg, s) && Enabled(cfg, s, TakeBatch(kind))
    ensures Inv(cfg, Apply(cfg, s, TakeBatch(kind)))
  {
    BothSides(cfg, s, kind);
    var m := WithBatch(LiftOf(s, kind), kind, CapacityOf(cfg, kind));
    BatchOk(LiftOf(s, kind), kind, CapacityOf(cfg, kind), cfg.floors);
    LiftFrame(cfg, s, kind, m, s.respawn);
    LiftFrameKeeps(cfg, s, kind, m, s.respawn);
    assert WithLift(s, kind, m).(respawn := s.respawn) == Apply(cfg, s, TakeBatch(kind));
  }

  lemma HandOverJobs(words: seq<Word>, cs: seq<LetterCarrier>, l: Lift)
    requires JobsOk(words, cs, l) && l.batch != [] && l.batch[0].Request? && l.batch[0].job.Some?
    requires ValidJob(words, l.batch[0].job.value) && FreeSlotOf(words[l.batch[0].job.value.w])
    ensures var j := l.batch[0].job.value;
      JobsOk(words[j.w := Deliver(words[j.w], j.c)], cs,
             l.(batch := l.batch[0 := l.batch[0].(job := None)], pc := Serving(Leaving)))
  {
    var j := l.batch[0].job.value;
    RequestChange(l.batch, 0, l.batch[0].(job := None));
    HeadCarries(l);
    DueInTransit(words, cs, l, j);
    DeliverTransit(words, j);
  }

  lemma HeadCarries(l: Lift)
    requires l.batch != [] && l.batch[0].Request? && l.batch[0].job.Some?
    ensures Tally(l.batch, Carrying(l.batch[0].job.value)) > 0
  {
    TallyExtremes(l.batch, Carrying(l.batch[0].job.value));
    assert Matches(l.batch[0], Carrying(l.batch[0].job.value));
  }

  lemma HandOverLift(cfg: Config, s: State)
    requires LiftInv(cfg, s, Delivery) && Enabled(cfg, s, HandOver)
    ensures LiftInv(cfg, Apply(cfg, s, HandOver), Delivery)
  {
    var l := s.delivery;
    var m := l.(batch := l.batch[0 := l.batch[0].(job := None)], pc := Serving(Leaving));
    RequestChange(l.batch, 0, l.batch[0].(job := None));
    MovingFrame(s.carriers, s.counts, l, m, s.reposition, cfg.floors);
    HandOverOwed(s.carriers, l, m, s.reposition);
  }

  lemma HandOverOwed(cs: seq<LetterCarrier>, l: Lift, m: Lift, o: Lift)
    requires TicketsOk(cs, l, o) && forall k: nat :: Owed(m, k) == Owed(l, k)
    ensures TicketsOk(cs, m, o)
  {
  }

  lemma HandOverKeeps(cfg: Config, s: State)
    requires Inv(cfg, s) && Enabled(cfg, s, HandOver)
    ensures Inv(cfg, Apply(cfg, s, HandOver))
  {
    var j := s.delivery.batch[0].job.value;
    HeadCarries(s.delivery);
    DueInTransit(s.words, s.carriers, s.delivery, j);
    DeliverOk(s.words[j.w], j.c);
    CharFrame(cfg, s, j.w, Deliver(s.words[j.w], j.c));
    HandOverJobs(s.words, s.carriers, s.delivery);
    HandOverLift(cfg, s);
  }

  /** The carrier in an elevator's hands waits, and the other elevator does not hold it. */
  lemma HeadWaits(cs: seq<LetterCarrier>, l: Lift, o: Lift)
    requires TicketsOk(cs, l, o) && l.batch != [] && l.batch[0].Request?
    ensures Waits(cs, l.batch[0].carrier) && cs[l.batch[0].carrier].events == 0
    ensures forall i :: 0 <= i < |o.batch| ==> !Matches(o.batch[i], Carrier(l.batch[0].carrier))
  {
    var k := l.batch[0].carrier;
    assert Owed(l, k) + Owed(o, k) + EventsOf(cs, k) == Bit(Waits(cs, k));
    TallyExtremes(l.batch, Carrier(k));
    assert Matches(l.batch[0], Carrier(k));
    TallyExtremes(o.batch, Carrier(k));
  }

  /** The floor of a carrier that is about to be moved has a positive count. */
  lemma CountPositive(cs: seq<LetterCarrier>, counts: seq<int>, l: Lift, o: Lift, floors: nat)
    requires TicketsOk(cs, l, o) && CountsOk(cs, counts, l, o, floors)
    requires l.pc == Serving(Leaving) && l.batch != [] && l.batch[0].Request? && l.batch[0].carrier < |cs|
    requires cs[l.batch[0].carrier].floor < floors
    ensures counts[cs[l.batch[0].carrier].floor] > 0
  {
    var k := l.batch[0].carrier;
    var f := cs[k].floor;
    HeadWaits(cs, l, o);
    CountExtremes(OnFlags(cs, f));
    assert OnFlags(cs, f)[k];
    if Moving(cs, o, f) {
      assert !Matches(o.batch[0], Carrier(k));
      CountUpdate(OnFlags(cs, f), k, false);
      CountExtremes(OnFlags(cs, f)[k := false]);
      assert OnFlags(cs, f)[k := false][o.batch[0].carrier];
    }
  }

  lemma LeaveCounts(cs: seq<LetterCarrier>, counts: seq<int>, l: Lift, o: Lift, floors: nat, e: bool)
    requires CountsOk(cs, counts, l, o, floors) && l.pc == Serving(Leaving)
    requires l.batch != [] && l.batch[0].Request? && l.batch[0].carrier < |cs| && cs[l.batch[0].carrier].floor < floors
    ensures var f := cs[l.batch[0].carrier].floor;
      CountsOk(cs, counts[f := counts[f] - 1], l.(pc := Serving(Reaching(e))), o, floors)
  {
    var m := l.(pc := Serving(Reaching(e)));
    assert forall g :: Moving(cs, m, g) <==> cs[l.batch[0].carrier].floor == g;
    assert forall g :: !Moving(cs, l, g);
  }

  /** A carrier that really leaves its floor is taken off the floor's count. */
  lemma LeaveCounted(cfg: Config, s: State, kind: Kind)
    requires LiftInv(cfg, s, kind) && HeadIn(s, kind) && LiftOf(s, kind).pc == Serving(Leaving)
    requires s.carriers[LiftOf(s, kind).batch[0].carrier].floor != LiftOf(s, kind).batch[0].to
    ensures LiftInv(cfg, ApplyLeave(s, kind), kind)
  {
    var l := LiftOf(s, kind);
    var o := LiftOf(s, Other(kind));
    var e := s.counts[s.carriers[l.batch[0].carrier].floor] - 1 == 0;
    CountPositive(s.carriers, s.counts, l, o, cfg.floors);
    LeaveCounts(s.carriers, s.counts, l, o, cfg.floors, e);
    OwedFrame(s.carriers, l, l.(pc := Serving(Reaching(e))), o);
    Assembled(cfg, ApplyLeave(s, kind), kind, l.(pc := Serving(Reaching(e))), o);
  }

  lemma LeaveLift(cfg: Config, s: State, kind: Kind)
    requires LiftInv(cfg, s, kind) && HeadIn(s, kind) && LiftOf(s, kind).pc == Serving(Leaving)
    ensures LiftInv(cfg, ApplyLeave(s, kind), kind)
  {
    var l := LiftOf(s, kind);
    if s.carriers[l.batch[0].carrier].floor == l.batch[0].to {
      LiftFrame(cfg, s, kind, l.(pc := Serving(Signalling)), s.respawn);
    } else {
      LeaveCounted(cfg, s, kind);
    }
  }

  /** A carrier that holds no character may change its floor and events, and either elevator its phase,
      without losing a character or anybody exiting. */
  ghost predicate FlowOk(s: State) {
    JobsOk(s.words, s.carriers, s.delivery) && DoneOk(s.words, s.carriers, s.completedWords)
  }

  lemma LeaveFlow(s: State, kind: Kind)
    requires FlowOk(s) && HeadIn(s, kind)
    ensures FlowOk(ApplyLeave(s, kind))
  {
    JobsFrame(s.words, s.carriers, s.delivery, ApplyLeave(s, kind).delivery);
  }

  lemma LeaveFloorKeeps(cfg: Config, s: State, kind: Kind)
    requires Inv(cfg, s) && Enabled(cfg, s, LeaveFloor(kind))
    ensures Inv(cfg, Apply(cfg, s, LeaveFloor(kind)))
  {
    BothSides(cfg, s, kind);
    LeaveLift(cfg, s, kind);
    LeaveFlow(s, kind);
    Rebuilt(cfg, s, ApplyLeave(s, kind), kind);
  }

  lemma ReachCounts(cs: seq<LetterCarrier>, counts: seq<int>, l: Lift, o: Lift, floors: nat, next: Phase)
    requires CountsOk(cs, counts, l, o, floors) && TicketsOk(cs, l, o) && !next.Reaching?
    requires l.pc.Serving? && l.pc.phase.Reaching? && l.batch != [] && l.batch[0].Request?
    requires l.batch[0].carrier < |cs| && 0 <= l.batch[0].to < floors
    ensures var k := l.batch[0].carrier;
      var to := l.batch[0].to;
      CountsOk(cs[k := cs[k].(floor := to)], counts[to := counts[to] + 1], l.(pc := Serving(next)), o, floors)
  {
    var k := l.batch[0].carrier;
    var c := cs[k].(floor := l.batch[0].to);
    var m := l.(pc := Serving(next));
    HeadWaits(cs, l, o);
    CarrierChange(cs, k, c);
    assert forall f :: Moving(cs, l, f) <==> cs[k].floor == f;
    assert !BetweenFloors(m);
    if o.batch != [] {
      assert !Matches(o.batch[0], Carrier(k));
    }
    assert forall f :: Moving(cs[k := c], o, f) == Moving(cs, o, f);
  }

  lemma SamePostItems(cs: seq<LetterCarrier>, k: nat, c: LetterCarrier)
    requires k < |cs| && c.pc == cs[k].pc
    ensures forall kind :: Posters(cs[k := c], kind) == Posters(cs, kind)
  {
    CarrierChange(cs, k, c);
  }

  lemma SameItems(cs: seq<LetterCarrier>, k: nat, c: LetterCarrier, l: Lift, m: Lift, kind: Kind)
    requires ItemsOk(cs, l, kind) && k < |cs| && c.pc == cs[k].pc
    requires m.items == l.items && m.table == l.table && (m == l || l.pc != Collecting)
    ensures ItemsOk(cs[k := c], m, kind)
  {
    SamePostItems(cs, k, c);
  }

  lemma ReachTable(cs: seq<LetterCarrier>, l: Lift, next: Phase, kind: Kind, floors: nat)
    requires LiftOk(l, kind, floors) && BetweenFloors(l) && l.batch != [] && l.batch[0].Request?
    requires l.batch[0].carrier < |cs| && cs[l.batch[0].carrier].floor < floors
    requires next == if l.pc.phase.emptied then Reporting(cs[l.batch[0].carrier].floor) else Signalling
    ensures LiftOk(l.(pc := Serving(next)), kind, floors)
  {
  }

  lemma ReachRespawn(counts: seq<int>, respawn: seq<bool>, to: nat)
    requires RespawnOk(counts, respawn) && to < |counts|
    ensures RespawnOk(counts[to := counts[to] + 1], respawn[to := false])
  {
  }

  lemma ReachArrived(cs: seq<LetterCarrier>, l: Lift, o: Lift, c: LetterCarrier)
    requires ArrivedOk(cs, o) && TicketsOk(cs, l, o)
    requires l.batch != [] && l.batch[0].Request? && l.batch[0].carrier < |cs|
    ensures ArrivedOk(cs[l.batch[0].carrier := c], o)
  {
    HeadWaits(cs, l, o);
    if o.batch != [] {
      assert !Matches(o.batch[0], Carrier(l.batch[0].carrier));
    }
  }

  lemma ReachFrame(s: State, kind: Kind, next: Phase)
    requires HeadIn(s, kind) && BetweenFloors(LiftOf(s, kind))
    requires var l := LiftOf(s, kind);
      next == if l.pc.phase.emptied then Reporting(s.carriers[l.batch[0].carrier].floor) else Signalling
    ensures var t := ApplyReach(s, kind);
      var l := LiftOf(s, kind);
      var k := l.batch[0].carrier;
      && LiftOf(t, kind) == l.(pc := Serving(next)) && LiftOf(t, Other(kind)) == LiftOf(s, Other(kind))
      && t.carriers == s.carriers[k := s.carriers[k].(floor := l.batch[0].to)] && t.agenda == s.agenda
      && t.counts == s.counts[l.batch[0].to := s.counts[l.batch[0].to] + 1] && t.respawn == s.respawn[l.batch[0].to := false]
  {
  }

  lemma ReachLift(cfg: Config, s: State, kind: Kind)
    requires LiftInv(cfg, s, kind) && HeadIn(s, kind) && BetweenFloors(LiftOf(s, kind))
    ensures LiftInv(cfg, ApplyReach(s, kind), kind)
  {
    var l := LiftOf(s, kind);
    var k := l.batch[0].carrier;
    var next := if l.pc.phase.emptied then Reporting(s.carriers[k].floor) else Signalling;
    ReachFrame(s, kind, next);
    ReachParts(cfg, s, ApplyReach(s, kind), l, LiftOf(s, Other(kind)), kind, k, next);
  }

  lemma ReachParts(cfg: Config, s: State, t: State, l: Lift, o: Lift, kind: Kind, k: nat, next: Phase)
    requires LiftInv(cfg, s, kind) && HeadIn(s, kind) && BetweenFloors(l)
    requires l == LiftOf(s, kind) && o == LiftOf(s, Other(kind)) && k == l.batch[0].carrier
    requires next == if l.pc.phase.emptied then Reporting(s.carriers[k].floor) else Signalling
    requires LiftOf(t, kind) == l.(pc := Serving(next)) && LiftOf(t, Other(kind)) == o
    requires t.carriers == s.carriers[k := s.carriers[k].(floor := l.batch[0].to)] && t.agenda == s.agenda
    requires t.counts == s.counts[l.batch[0].to := s.counts[l.batch[0].to] + 1] && t.respawn == s.respawn[l.batch[0].to := false]
    ensures LiftInv(cfg, t, kind)
  {
    var c := s.carriers[k].(floor := l.batch[0].to);
    var m := l.(pc := Serving(next));
    ReachCounts(s.carriers, s.counts, l, o, cfg.floors, next);
    SameItems(s.carriers, k, c, l, m, kind);
    SameItems(s.carriers, k, c, o, o, Other(kind));
    ReachRespawn(s.counts, s.respawn, l.batch[0].to);
    ReachArrived(s.carriers, l, o, c);
    TicketsMove(s.carriers, l, m, o, k, c);
    ReachTable(s.carriers, l, next, kind, cfg.floors);
    Assembled(cfg, t, kind, m, o);
  }

  lemma ReachFlow(s: State, kind: Kind)
    requires FlowOk(s) && HeadIn(s, kind) && BetweenFloors(LiftOf(s, kind))
    requires Waits(s.carriers, LiftOf(s, kind).batch[0].carrier)
    ensures FlowOk(ApplyReach(s, kind))
  {
    var l := LiftOf(s, kind);
    var k := l.batch[0].carrier;
    var t := ApplyReach(s, kind);
    EventJobs(s.words, s.carriers, s.delivery, k, s.carriers[k].(floor := l.batch[0].to));
    JobsFrame(s.words, t.carriers, s.delivery, t.delivery);
  }

  lemma ReachFloorKeeps(cfg: Config, s: State, kind: Kind)
    requires Inv(cfg, s) && Enabled(cfg, s, ReachFloor(kind))
    ensures Inv(cfg, Apply(cfg, s, ReachFloor(kind)))
  {
    BothSides(cfg, s, kind);
    ReachLift(cfg, s, kind);
    HeadWaits(s.carriers, LiftOf(s, kind), LiftOf(s, Other(kind)));
    ReachFlow(s, kind);
    Rebuilt(cfg, s, ApplyReach(s, kind), kind);
  }

  lemma TicketsMove(cs: seq<LetterCarrier>, l: Lift, m: Lift, o: Lift, k: nat, c: LetterCarrier)
    requires TicketsOk(cs, l, o) && SameContents(l, m)
    requires k < |cs| && c.pc == cs[k].pc && c.events == cs[k].events
    ensures TicketsOk(cs[k := c], m, o)
  {
    forall q: nat
      ensures Owed(m, q) + Owed(o, q) + EventsOf(cs[k := c], q) == Bit(Waits(cs[k := c], q))
    {
      assert Owed(l, q) + Owed(o, q) + EventsOf(cs, q) == Bit(Waits(cs, q));
    }
  }

  lemma ReportLift(cfg: Config, s: State, kind: Kind)
    requires LiftInv(cfg, s, kind) && Enabled(cfg, s, ReportEmpty(kind))
    ensures LiftInv(cfg, ApplyReport(s, kind), kind)
    ensures SameContents(LiftOf(s, kind), LiftOf(ApplyReport(s, kind), kind))
  {
    var t := ApplyReport(s, kind);
    LiftFrame(cfg, s, kind, LiftOf(s, kind).(pc := Serving(Signalling)), t.respawn);
  }

  lemma ReportEmptyKeeps(cfg: Config, s: State, kind: Kind)
    requires Inv(cfg, s) && Enabled(cfg, s, ReportEmpty(kind))
    ensures Inv(cfg, Apply(cfg, s, ReportEmpty(kind)))
  {
    var t := ApplyReport(s, kind);
    BothSides(cfg, s, kind);
    ReportLift(cfg, s, kind);
    assert t == WithLift(s, kind, LiftOf(t, kind)).(respawn := t.respawn);
    LiftFrameKeeps(cfg, s, kind, LiftOf(t, kind), t.respawn);
  }

  /** Signalling exchanges the carrier's request for a wake-up. */
  lemma SignalTickets(cs: seq<LetterCarrier>, l: Lift, m: Lift, o: Lift)
    requires TicketsOk(cs, l, o) && l.batch != [] && l.batch[0].Request? && l.batch[0].carrier < |cs|
    requires m.table == l.table && m.batch == l.batch[1..]
    ensures var k := l.batch[0].carrier; TicketsOk(cs[k := cs[k].(events := cs[k].events + 1)], m, o)
  {
    var k := l.batch[0].carrier;
    var ds := cs[k := cs[k].(events := cs[k].events + 1)];
    forall q: nat
      ensures Owed(m, q) + Owed(o, q) + EventsOf(ds, q) == Bit(Waits(ds, q))
    {
      TallyPop(l.batch, Carrier(q));
      assert Owed(l, q) + Owed(o, q) + EventsOf(cs, q) == Bit(Waits(cs, q));
    }
  }

  lemma SignalLift(l: Lift, kind: Kind, floors: nat)
    requires LiftOk(l, kind, floors) && l.pc == Serving(Signalling)
    ensures LiftOk(NextRequest(l.(batch := l.batch[1..]), kind), kind, floors)
    ensures forall j: Job :: Tally(l.batch[1..], Carrying(j)) == Tally(l.batch, Carrying(j))
  {
    forall j: Job
      ensures Tally(l.batch[1..], Carrying(j)) == Tally(l.batch, Carrying(j))
    {
      TallyPop(l.batch, Carrying(j));
    }
  }

  lemma EventCounts(cs: seq<LetterCarrier>, k: nat, c: LetterCarrier, counts: seq<int>, l: Lift, m: Lift, o: Lift, floors: nat, agenda: seq<nat>)
    requires CountsOk(cs, counts, l, o, floors) && CarriersOk(cs, agenda, floors) && k < |cs|
    requires c.floor == cs[k].floor && c.pc == cs[k].pc
    requires l.pc == Serving(Signalling) && !(m.pc.Serving? && m.pc.phase.Reaching?)
    ensures CountsOk(cs[k := c], counts, m, o, floors) && CarriersOk(cs[k := c], agenda, floors)
  {
    FloorFrame(cs, k, c, counts, l, o, floors);
    MovingFrame(cs[k := c], counts, l, m, o, floors);
  }

  lemma EventArrived(cs: seq<LetterCarrier>, k: nat, c: LetterCarrier, l: Lift)
    requires ArrivedOk(cs, l) && k < |cs| && c.floor == cs[k].floor
    ensures ArrivedOk(cs[k := c], l)
  {
  }

  lemma NextArrived(cs: seq<LetterCarrier>, l: Lift, kind: Kind)
    ensures ArrivedOk(cs, NextRequest(l, kind))
  {
  }

  /** The elevator after its first request is done with. */
  lemma SignalNext(l: Lift, kind: Kind, floors: nat, cs: seq<LetterCarrier>)
    requires LiftOk(l, kind, floors) && l.pc == Serving(Signalling)
    ensures var m := NextRequest(l.(batch := l.batch[1..]), kind);
      && LiftOk(m, kind, floors) && ArrivedOk(cs, m) && m.items == l.items && m.table == l.table && m.batch == l.batch[1..]
      && !(m.pc.Serving? && m.pc.phase.Reaching?)
  {
    SignalLift(l, kind, floors);
    NextArrived(cs, l.(batch := l.batch[1..]), kind);
  }

  lemma SignalParts(cfg: Config, s: State, t: State, kind: Kind, l: Lift, m: Lift, o: Lift, k: nat)
    requires LiftInv(cfg, s, kind) && HeadIn(s, kind) && l.pc == Serving(Signalling)
    requires l == LiftOf(s, kind) && o == LiftOf(s, Other(kind)) && k == l.batch[0].carrier
    requires LiftOk(m, kind, cfg.floors) && ArrivedOk(t.carriers, m) && m.items == l.items && m.table == l.table
    requires m.batch == l.batch[1..] && !(m.pc.Serving? && m.pc.phase.Reaching?)
    requires LiftOf(t, kind) == m && LiftOf(t, Other(kind)) == o && t.counts == s.counts && t.respawn == s.respawn
    requires t.carriers == s.carriers[k := s.carriers[k].(events := s.carriers[k].events + 1)] && t.agenda == s.agenda
    ensures LiftInv(cfg, t, kind)
  {
    var c := s.carriers[k].(events := s.carriers[k].events + 1);
    SignalTickets(s.carriers, l, m, o);
    SameItems(s.carriers, k, c, l, m, kind);
    SameItems(s.carriers, k, c, o, o, Other(kind));
    EventCounts(s.carriers, k, c, s.counts, l, m, o, cfg.floors, s.agenda);
    EventArrived(s.carriers, k, c, o);
    Assembled(cfg, t, kind, m, o);
  }

  lemma SignalKeepsLift(cfg: Config, s: State, kind: Kind)
    requires LiftInv(cfg, s, kind) && HeadIn(s, kind) && LiftOf(s, kind).pc == Serving(Signalling)
    ensures LiftInv(cfg, ApplySignal(s, kind), kind)
  {
    var l := LiftOf(s, kind);
    var m := NextRequest(l.(batch := l.batch[1..]), kind);
    var t := ApplySignal(s, kind);
    assert LiftOf(t, kind) == m && LiftOf(t, Other(kind)) == LiftOf(s, Other(kind));
    SignalNext(l, kind, cfg.floors, t.carriers);
    SignalParts(cfg, s, t, kind, l, m, LiftOf(s, Other(kind)), l.batch[0].carrier);
  }

  lemma SignalJobs(words: seq<Word>, cs: seq<LetterCarrier>, l: Lift, m: Lift, floors: nat)
    requires JobsOk(words, cs, l) && LiftOk(l, Delivery, floors) && l.pc == Serving(Signalling)
    requires m.table == l.table && m.batch == l.batch[1..]
    ensures JobsOk(words, cs, m)
  {
    SignalLift(l, Delivery, floors);
  }

  lemma SignalFlow(s: State, kind: Kind, floors: nat)
    requires FlowOk(s) && HeadIn(s, kind) && LiftOf(s, kind).pc == Serving(Signalling) && LiftOk(LiftOf(s, kind), kind, floors)
    requires Waits(s.carriers, LiftOf(s, kind).batch[0].carrier)
    ensures FlowOk(ApplySignal(s, kind))
  {
    var l := LiftOf(s, kind);
    var k := l.batch[0].carrier;
    var t := ApplySignal(s, kind);
    EventJobs(s.words, s.carriers, s.delivery, k, s.carriers[k].(events := s.carriers[k].events + 1));
    if kind == Delivery {
      SignalJobs(s.words, t.carriers, l, t.delivery, floors);
    }
  }

  lemma SignalCarrierKeeps(cfg: Config, s: State, kind: Kind)
    requires Inv(cfg, s) && Enabled(cfg, s, SignalCarrier(kind))
    ensures Inv(cfg, Apply(cfg, s, SignalCarrier(kind)))
  {
    BothSides(cfg, s, kind);
    SignalKeepsLift(cfg, s, kind);
    HeadWaits(s.carriers, LiftOf(s, kind), LiftOf(s, Other(kind)));
    SignalFlow(s, kind, cfg.floors);
    Rebuilt(cfg, s, ApplySignal(s, kind), kind);
  }

  // ---------------------------------------------------------------------------------------------
  // Sorters' and the parent's steps

  lemma SortActive(words: seq<Word>, porters: seq<Porter>, active: seq<int>, capacity: int, floors: nat, w: nat)
    requires ActiveOk(words, porters, active, capacity, floors) && w < |words|
    requires words[w].admitted && words[w].arrivalFloor < floors && words[w].sortingFloor < floors
    ensures var y := Sort(words[w]);
      ActiveOk(words[w := y], porters,
               if words[w].reserved && !y.reserved then Reserve(active, words[w].arrivalFloor, words[w].sortingFloor, -1) else active,
               capacity, floors)
  {
    var ws := words[w := Sort(words[w])];
    forall f
      ensures Places(ws, porters, f) == Places(words, porters, f) - Bit(HoldsPlace(words, porters, w, f)) + Bit(HoldsPlace(ws, porters, w, f))
    {
      PlaceUpdate(words, porters, ws, porters, w, f);
    }
  }

  lemma SortDone(words: seq<Word>, cs: seq<LetterCarrier>, n: nat, w: nat)
    requires DoneOk(words, cs, n) && w < |words| && !words[w].completed
    ensures DoneOk(words[w := Sort(words[w])], cs, n + Bit(Sort(words[w]).completed))
  {
    var y := Sort(words[w]);
    CountUpdate(CompletedFlags(words), w, y.completed);
    assert CompletedFlags(words[w := y]) == CompletedFlags(words)[w := y.completed];
    CountExtremes(CompletedFlags(words));
  }

  lemma SortWords(cfg: Config, s: State, w: nat)
    requires WordInv(cfg, s) && w < |s.words| && s.words[w].admitted && !s.words[w].completed
    ensures WordInv(cfg, ApplySort(s, w))
  {
    var y := Sort(s.words[w]);
    SortOk(s.words[w]);
    WordChange(s.words, s.porters, w, y, cfg.floors);
    SortActive(s.words, s.porters, s.active, cfg.capacity, cfg.floors, w);
    var t := ApplySort(s, w);
    assert t.words == s.words[w := y] && t.porters == s.porters && t.cursor == s.cursor;
    assert t.active == if s.words[w].reserved && !y.reserved
                       then Reserve(s.active, s.words[w].arrivalFloor, s.words[w].sortingFloor, -1) else s.active;
  }

  lemma SortWordKeeps(cfg: Config, s: State, q: nat, w: nat)
    requires Inv(cfg, s) && Enabled(cfg, s, SortWord(q, w))
    ensures Inv(cfg, Apply(cfg, s, SortWord(q, w)))
  {
    SortWords(cfg, s, w);
    SortDone(s.words, s.carriers, s.completedWords, w);
    SortJobs(s.words, s.carriers, s.delivery, w);
  }

  lemma SortJobs(words: seq<Word>, cs: seq<LetterCarrier>, d: Lift, w: nat)
    requires JobsOk(words, cs, d) && w < |words|
    ensures JobsOk(words[w := Sort(words[w])], cs, d)
  {
    assert forall i: Job :: InTransit(words[w := Sort(words[w])], i) == InTransit(words, i);
  }

  lemma CheckFloorKeeps(cfg: Config, s: State, f: nat)
    requires Accepts(cfg) && Inv(cfg, s) && Enabled(cfg, s, CheckFloor(f))
    ensures Inv(cfg, Apply(cfg, s, CheckFloor(f)))
  {
  }

  lemma CarrierAdded(cs: seq<LetterCarrier>, c: LetterCarrier)
    requires c.pc == Scan
    ensures forall j :: Holders(cs + [c], j) == Holders(cs, j)
    ensures forall kind :: Posters(cs + [c], kind) == Posters(cs, kind)
    ensures forall f :: On(cs + [c], f) == On(cs, f) + Bit(c.floor == f)
  {
    forall j
      ensures Holders(cs + [c], j) == Holders(cs, j)
    {
      assert HoldFlags(cs + [c], j)[..|cs|] == HoldFlags(cs, j);
    }
    forall kind
      ensures Posters(cs + [c], kind) == Posters(cs, kind)
    {
      assert PostFlags(cs + [c], kind)[..|cs|] == PostFlags(cs, kind);
    }
    forall f
      ensures On(cs + [c], f) == On(cs, f) + Bit(c.floor == f)
    {
      assert OnFlags(cs + [c], f)[..|cs|] == OnFlags(cs, f);
    }
  }

  lemma AddedPosters(cs: seq<LetterCarrier>, c: LetterCarrier)
    requires c.pc == Scan
    ensures forall kind :: Posters(cs + [c], kind) == Posters(cs, kind)
  {
    CarrierAdded(cs, c);
  }

  lemma SpawnTickets(cs: seq<LetterCarrier>, l: Lift, o: Lift, f: nat)
    requires TicketsOk(cs, l, o)
    ensures TicketsOk(cs + [LetterCarrier(f, Scan, 0)], l, o)
  {
    var ds := cs + [LetterCarrier(f, Scan, 0)];
    forall q: nat
      ensures Owed(l, q) + Owed(o, q) + EventsOf(ds, q) == Bit(Waits(ds, q))
    {
      assert Owed(l, q) + Owed(o, q) + EventsOf(cs, q) == Bit(Waits(cs, q));
    }
  }

  lemma SpawnCounts(cs: seq<LetterCarrier>, counts: seq<int>, l: Lift, o: Lift, floors: nat, f: nat)
    requires CountsOk(cs, counts, l, o, floors) && TicketsOk(cs, l, o) && f < floors
    ensures CountsOk(cs + [LetterCarrier(f, Scan, 0)], counts[f := counts[f] + 1], l, o, floors)
  {
    var ds := cs + [LetterCarrier(f, Scan, 0)];
    CarrierAdded(cs, LetterCarrier(f, Scan, 0));
    if l.batch != [] && l.batch[0].Request? {
      HeadWaits(cs, l, o);
    }
    TicketsSwap(cs, l, o);
    if o.batch != [] && o.batch[0].Request? {
      HeadWaits(cs, o, l);
    }
    assert forall g :: Moving(ds, l, g) == Moving(cs, l, g);
    assert forall g :: Moving(ds, o, g) == Moving(cs, o, g);
  }

  lemma SpawnLift(cfg: Config, s: State)
    requires LiftInv(cfg, s, Delivery) && s.agenda != [] && |s.carriers| < MAX_CARRIERS && s.agenda[0] < cfg.floors
    ensures LiftInv(cfg, ApplySpawn(s), Delivery)
  {
    var f := s.agenda[0];
    AddedPosters(s.carriers, LetterCarrier(f, Scan, 0));
    SpawnTickets(s.carriers, s.delivery, s.reposition, f);
    SpawnCounts(s.carriers, s.counts, s.delivery, s.reposition, cfg.floors, f);
    SpawnLists(s.carriers, s.agenda, cfg.floors);
    ReachRespawn(s.counts, s.respawn, f);
  }

  lemma SpawnLists(cs: seq<LetterCarrier>, agenda: seq<nat>, floors: nat)
    requires CarriersOk(cs, agenda, floors) && agenda != [] && |cs| < MAX_CARRIERS
    ensures CarriersOk(cs + [LetterCarrier(agenda[0], Scan, 0)], agenda[1..], floors)
  {
  }

  lemma SpawnFlow(s: State)
    requires FlowOk(s) && s.agenda != [] && s.agenda[0] < |s.counts| && s.agenda[0] < |s.respawn|
    ensures FlowOk(ApplySpawn(s))
  {
    CarrierAdded(s.carriers, LetterCarrier(s.agenda[0], Scan, 0));
  }

  lemma SpawnCarrierKeeps(cfg: Config, s: State)
    requires Inv(cfg, s) && Enabled(cfg, s, SpawnCarrier)
    ensures Inv(cfg, Apply(cfg, s, SpawnCarrier))
  {
    SpawnLift(cfg, s);
    SpawnFlow(s);
    Rebuilt(cfg, s, ApplySpawn(s), Delivery);
  }

  // ---------------------------------------------------------------------------------------------
  // Every reachable state

  lemma InitPlaces(cfg: Config, s: State)
    requires Accepts(cfg) && Init(cfg, s)
    ensures ActiveOk(s.words, s.porters, s.active, cfg.capacity, cfg.floors)
  {
    forall f
      ensures Places(s.words, s.porters, f) == 0
    {
      CountExtremes(PlaceFlags(s.words, s.porters, f));
    }
  }

  lemma InitWords(cfg: Config, s: State)
    requires Accepts(cfg) && Init(cfg, s)
    ensures WordInv(cfg, s)
    ensures s.completedWords == Count(CompletedFlags(s.words))
  {
    forall w | 0 <= w < |s.words|
      ensures WordOk(s.words[w])
    {
      LoadedOk(s.words[w].text, s.words[w].sortingFloor);
    }
    InitPlaces(cfg, s);
    CountExtremes(CompletedFlags(s.words));
  }

  lemma InitLifts(cfg: Config, s: State)
    requires Accepts(cfg) && Init(cfg, s)
    ensures LiftInv(cfg, s, Delivery) && JobsOk(s.words, s.carriers, s.delivery)
  {
    forall q
      ensures Tally(IdleLift().table, q) == 0 && Tally([], q) == 0
    {
      TallyExtremes(IdleLift().table, q);
    }
    InitFlow(s);
  }

  lemma InitInv(cfg: Config, s: State)
    requires Accepts(cfg) && Init(cfg, s)
    ensures Inv(cfg, s)
  {
    InitWords(cfg, s);
    InitLifts(cfg, s);
  }

  lemma InitFlow(s: State)
    requires s.carriers == [] && s.delivery == IdleLift() && s.reposition == IdleLift()
    requires forall w :: 0 <= w < |s.words| ==> s.words[w] == Words.Loaded(s.words[w].text, s.words[w].sortingFloor)
    requires forall q :: Tally(IdleLift().table, q) == 0 && Tally([], q) == 0
    ensures JobsOk(s.words, s.carriers, s.delivery)
    ensures TicketsOk(s.carriers, s.delivery, s.reposition)
    ensures forall kind :: Posters(s.carriers, kind) == 0
    ensures forall f :: On(s.carriers, f) == 0
  {
    forall j: Job
      ensures Holders([], j) == 0 && !InTransit(s.words, j)
    {
      assert HoldFlags([], j) == [];
    }
    forall kind
      ensures Posters([], kind) == 0
    {
      assert PostFlags([], kind) == [];
    }
    forall f
      ensures On([], f) == 0
    {
      assert OnFlags([], f) == [];
    }
  }

  predicate OfCarrier(step: Step) {
    step.PickChar? || step.GiveUp? || step.Exit? || step.PlaceDirect? || step.EnterDelivery? || step.EnterReposition?
    || step.PostItem? || step.Wake?
  }

  predicate OfPorter(step: Step) {
    step.ClaimWord? || step.ReserveFloors? || step.Admit? || step.PutBack?
  }

  predicate OfLift(step: Step) {
    step.TakeItem? || step.TakeBatch? || step.HandOver? || step.LeaveFloor? || step.ReachFloor? || step.ReportEmpty?
    || step.SignalCarrier?
  }

  lemma CarrierStepKeepsInv(cfg: Config, s: State, step: Step)
    requires Inv(cfg, s) && Enabled(cfg, s, step) && OfCarrier(step)
    ensures Inv(cfg, Apply(cfg, s, step))
  {
    match step
    case PickChar(k, j) => PickCharKeeps(cfg, s, k, j);
    case GiveUp(k, to) => LeaveScanKeeps(cfg, s, k, Ask(to));
    case Exit(k) => LeaveScanKeeps(cfg, s, k, Gone);
    case PlaceDirect(k) => PlaceDirectKeeps(cfg, s, k);
    case EnterDelivery(k) => EnterDeliveryKeeps(cfg, s, k);
    case EnterReposition(k) => EnterRepositionKeeps(cfg, s, k);
    case PostItem(k) => PostItemKeeps(cfg, s, k);
    case Wake(k) => WakeKeeps(cfg, s, k);
  }

  lemma PorterStepKeepsInv(cfg: Config, s: State, step: Step)
    requires Inv(cfg, s) && Enabled(cfg, s, step) && OfPorter(step)
    ensures Inv(cfg, Apply(cfg, s, step))
  {
    match step
    case ClaimWord(p) => ClaimWordKeeps(cfg, s, p);
    case ReserveFloors(p) => ReserveFloorsKeeps(cfg, s, p);
    case Admit(p) => AdmitKeeps(cfg, s, p);
    case PutBack(p) => PutBackKeeps(cfg, s, p);
  }

  lemma LiftStepKeepsInv(cfg: Config, s: State, step: Step)
    requires Inv(cfg, s) && Enabled(cfg, s, step) && OfLift(step)
    ensures Inv(cfg, Apply(cfg, s, step))
  {
    match step
    case TakeItem(kind) => TakeItemKeeps(cfg, s, kind);
    case TakeBatch(kind) => TakeBatchKeeps(cfg, s, kind);
    case HandOver => HandOverKeeps(cfg, s);
    case LeaveFloor(kind) => LeaveFloorKeeps(cfg, s, kind);
    case ReachFloor(kind) => ReachFloorKeeps(cfg, s, kind);
    case ReportEmpty(kind) => ReportEmptyKeeps(cfg, s, kind);
    case SignalCarrier(kind) => SignalCarrierKeeps(cfg, s, kind);
  }

  /** Every step of every process keeps the invariant. */
  lemma StepKeepsInv(cfg: Config, s: State, step: Step)
    requires Accepts(cfg) && Inv(cfg, s) && Enabled(cfg, s, step)
    ensures Inv(cfg, Apply(cfg, s, step))
  {
    if OfCarrier(step) {
      CarrierStepKeepsInv(cfg, s, step);
    } else if OfPorter(step) {
      PorterStepKeepsInv(cfg, s, step);
    } else if OfLift(step) {
      LiftStepKeepsInv(cfg, s, step);
    } else if step.SortWord? {
      SortWordKeeps(cfg, s, step.q, step.w);
    } else if step.CheckFloor? {
      CheckFloorKeeps(cfg, s, step.f);
    } else {
      SpawnCarrierKeeps(cfg, s);
    }
  }

  lemma {:induction false} RunKeepsInv(cfg: Config, s: State, steps: seq<Step>, t: State)
    requires Accepts(cfg) && Inv(cfg, s) && Leads(cfg, s, steps, t)
    ensures Inv(cfg, t)
    decreases |steps|
  {
    if steps != [] {
      StepKeepsInv(cfg, s, steps[0]);
      RunKeepsInv(cfg, Apply(cfg, s, steps[0]), steps[1..], t);
    }
  }

  lemma ReachableInv(cfg: Config, t: State)
    requires Accepts(cfg) && Reachable(cfg, t)
    ensures Inv(cfg, t)
  {
    var s, steps :| Init(cfg, s) && Leads(cfg, s, steps, t);
    InitInv(cfg, s);
    RunKeepsInv(cfg, s, steps, t);
  }
}
