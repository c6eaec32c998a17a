/** The request tables of the two elevators and the batches they take from them.
    HW3/elevator.c:4-82 and HW3/letter_carrier.c:4-32. */
module Elevator {
  import opened Basics
  import opened Counting

  /** Character c of word w. */
  datatype Job = Job(w: nat, c: nat)

  /** A table slot: Free, or a carrier's request. A delivery names the character still to be brought
      along; a reposition brings none. */
  datatype Request = Free | Request(carrier: nat, from: int, to: int, job: Option<Job>)

  datatype Kind = Delivery | Reposition

  // ---------------------------------------------------------------------------------------------
  // Tallies

  datatype Query = Used | Carrier(k: nat) | Carrying(j: Job) | Same(r: Request) | Away(f: int)

  predicate Matches(r: Request, q: Query) {
    r.Request? && match q
      case Used => true
      case Carrier(k) => r.carrier == k
      case Carrying(j) => r.job == Some(j)
      case Same(r') => r == r'
      case Away(f) => r.to != f
  }

  function Flags(rs: seq<Request>, q: Query): (s: seq<bool>)
    ensures |s| == |rs| && forall i :: 0 <= i < |rs| ==> s[i] == Matches(rs[i], q)
  {
    seq(|rs|, i requires 0 <= i < |rs| => Matches(rs[i], q))
  }

  /** How many of the requests match. */
  function Tally(rs: seq<Request>, q: Query): (n: nat)
    ensures n <= |rs|
  {
    Count(Flags(rs, q))
  }

  function One(r: Request, q: Query): nat {
    if Matches(r, q) then 1 else 0
  }

  lemma TallyUpdate(rs: seq<Request>, i: nat, r: Request, q: Query)
    requires i < |rs|
    ensures Tally(rs[i := r], q) == Tally(rs, q) - One(rs[i], q) + One(r, q)
  {
    CountUpdate(Flags(rs, q), i, Matches(r, q));
    assert Flags(rs[i := r], q) == Flags(rs, q)[i := Matches(r, q)];
  }

  lemma TallyPush(rs: seq<Request>, r: Request, q: Query)
    ensures Tally(rs + [r], q) == Tally(rs, q) + One(r, q)
  {
    assert Flags(rs + [r], q)[..|rs|] == Flags(rs, q);
  }

  lemma {:induction false} TallyPop(rs: seq<Request>, q: Query)
    requires rs != []
    ensures Tally(rs, q) == One(rs[0], q) + Tally(rs[1..], q)
  {
    var n := |rs| - 1;
    if n == 0 {
      assert Flags(rs, q) == [Matches(rs[0], q)];
      assert Count([Matches(rs[0], q)][..0]) == 0;
    } else {
      TallyPop(rs[..n], q);
      assert Flags(rs[..n], q) == Flags(rs, q)[..n];
      assert rs[1..][..n - 1] == rs[..n][1..];
      assert Flags(rs[1..], q)[..n - 1] == Flags(rs[..n][1..], q);
    }
  }

  lemma TallyOne(r: Request, q: Query)
    ensures Tally([r], q) == One(r, q)
  {
    TallyPop([r], q);
  }

  lemma TallyExtremes(rs: seq<Request>, q: Query)
    ensures Tally(rs, q) == 0 <==> forall i :: 0 <= i < |rs| ==> !Matches(rs[i], q)
    ensures Tally(rs, q) == |rs| <==> forall i :: 0 <= i < |rs| ==> Matches(rs[i], q)
  {
    var s := Flags(rs, q);
    CountExtremes(s);
    assert (forall i :: 0 <= i < |rs| ==> !Matches(rs[i], q)) <==> forall i :: 0 <= i < |s| ==> !s[i];
    assert (forall i :: 0 <= i < |rs| ==> Matches(rs[i], q)) <==> forall i :: 0 <= i < |s| ==> s[i];
  }

  // ---------------------------------------------------------------------------------------------
  // Entering a request

  /** The first free slot from i on, -1 when the table is full. */
  function FirstFree(table: seq<Request>, i: nat): (j: int)
    requires i <= |table|
    ensures j == -1 || (i <= j < |table| && table[j].Free?)
    ensures forall k :: i <= k < (if j == -1 then |table| else j) ==> !table[k].Free?
    decreases |table| - i
  {
    if i == |table| then -1 else if table[i].Free? then i else FirstFree(table, i + 1)
  }

  /** A table in which no carrier below n has two requests, and none above has any, holds at most n. */
  lemma {:induction false} DistinctCarriersFit(table: seq<Request>, n: nat)
    requires forall k: nat :: Tally(table, Carrier(k)) <= if k < n then 1 else 0
    ensures Tally(table, Used) <= n
  {
    var names := set k | k in Below(n) && Tally(table, Carrier(k)) == 1;
    forall k: nat
      ensures Tally(table, Carrier(k)) == if k in names then 1 else 0
    {
      assert k < n <==> k in Below(n);
    }
    NamesCounted(table, names);
    SubsetSize(names, Below(n));
  }

  lemma {:induction false} NamesCounted(table: seq<Request>, names: set<nat>)
    requires forall k: nat :: Tally(table, Carrier(k)) == if k in names then 1 else 0
    ensures Tally(table, Used) == |names|
    decreases |table|
  {
    if table == [] {
      forall k: nat
        ensures k !in names
      {
        assert Tally(table, Carrier(k)) == 0;
      }
    } else {
      TallyPop(table, Used);
      var r := table[0];
      var rest := if r.Request? then names - {r.carrier} else names;
      if r.Request? {
        TallyPop(table, Carrier(r.carrier));
        assert r.carrier in names;
      }
      forall k: nat
        ensures Tally(table[1..], Carrier(k)) == if k in rest then 1 else 0
      {
        TallyPop(table, Carrier(k));
      }
      NamesCounted(table[1..], rest);
    }
  }

  // ---------------------------------------------------------------------------------------------
  // Taking a batch

  /** Whether a request starts on the side of the floor that the scan direction points to. */
  predicate Ahead(r: Request, dir: int, floor: int) {
    r.Request? && ((dir > 0 && r.from - floor >= 0) || (dir < 0 && r.from - floor <= 0))
  }

  function FirstAhead(table: seq<Request>, dir: int, floor: int, i: nat): (j: int)
    requires i <= |table|
    ensures j == -1 || (i <= j < |table| && Ahead(table[j], dir, floor))
    ensures forall k :: i <= k < (if j == -1 then |table| else j) ==> !Ahead(table[k], dir, floor)
    decreases |table| - i
  {
    if i == |table| then -1 else if Ahead(table[i], dir, floor) then i else FirstAhead(table, dir, floor, i + 1)
  }

  /** The request starts on the elevator's floor or further on in the scan direction. */
  ghost predicate OnTheWay(r: Request, dir: int, floor: int) {
    r.Request? && if dir == 1 then r.from >= floor else r.from <= floor
  }

  /** Slot f opens the next batch: the lowest request on the way; when there is none, the lowest request
      of all; -1 when the table is empty. */
  ghost predicate Opening(table: seq<Request>, dir: int, floor: int, f: int) {
    if exists i :: 0 <= i < |table| && OnTheWay(table[i], dir, floor) then
      && 0 <= f < |table| && OnTheWay(table[f], dir, floor)
      && forall i :: 0 <= i < f ==> !OnTheWay(table[i], dir, floor)
    else if exists i :: 0 <= i < |table| && table[i].Request? then
      0 <= f < |table| && table[f].Request? && forall i :: 0 <= i < f ==> table[i].Free?
    else
      f == -1
  }

  /** The request that opens the batch: the first one ahead, otherwise the first one behind. */
  function FirstIndex(table: seq<Request>, dir: int, floor: int): (j: int)
    requires dir == 1 || dir == -1
    ensures j == -1 || (0 <= j < |table| && table[j].Request?)
    ensures j == -1 <==> forall i :: 0 <= i < |table| ==> table[i].Free?
    ensures Opening(table, dir, floor, j)
  {
    var j := FirstAhead(table, dir, floor, 0);
    var k := FirstAhead(table, -dir, floor, 0);
    assert forall i :: 0 <= i < |table| && table[i].Request? ==>
      Ahead(table[i], dir, floor) || Ahead(table[i], -dir, floor);
    if j != -1 then j else k
  }

  function Direction(r: Request): int
    requires r.Request?
  {
    if r.to >= r.from then 1 else -1
  }

  /** Whether r may join a batch opened by first: it waits on the same floor and, for deliveries, goes
      the same way. */
  predicate Joins(r: Request, first: Request, kind: Kind)
    requires first.Request?
  {
    r.Request? && r.from == first.from && (kind == Delivery ==> Direction(r) == Direction(first))
  }

  datatype Taken = Taken(batch: seq<Request>, table: seq<Request>)

  /** The sweep over the table: slots i.. are offered to the batch until it is full. */
  function Gather(t: Taken, first: Request, kind: Kind, cap: int, i: nat): (r: Taken)
    requires first.Request? && i <= |t.table|
    ensures |r.table| == |t.table|
    decreases |t.table| - i
  {
    if i == |t.table| || |t.batch| >= cap then t
    else if Joins(t.table[i], first, kind) then
      Gather(Taken(t.batch + [t.table[i]], t.table[i := Free]), first, kind, cap, i + 1)
    else
      Gather(t, first, kind, cap, i + 1)
  }

  /** a must be exchanged with b, which stands after it. */
  predicate OutOfOrder(a: Request, b: Request, dir: int)
    requires a.Request? && b.Request?
  {
    if dir > 0 then b.to < a.to else b.to > a.to
  }

  ghost predicate AllRequests(b: seq<Request>) {
    forall i :: 0 <= i < |b| ==> b[i].Request?
  }

  /** The inner loop of the exchange sort, from position j on. */
  function ExchangeRow(b: seq<Request>, i: nat, j: nat, dir: int): (r: seq<Request>)
    requires i < j <= |b| && AllRequests(b)
    ensures |r| == |b| && AllRequests(r)
    decreases |b| - j
  {
    if j == |b| then b
    else if OutOfOrder(b[i], b[j], dir) then ExchangeRow(b[i := b[j]][j := b[i]], i, j + 1, dir)
    else ExchangeRow(b, i, j + 1, dir)
  }

  function ExchangeSort(b: seq<Request>, i: nat, dir: int): (r: seq<Request>)
    requires i <= |b| && AllRequests(b)
    ensures |r| == |b| && AllRequests(r)
    decreases |b| - i
  {
    if i == |b| then b else ExchangeSort(ExchangeRow(b, i, i + 1, dir), i + 1, dir)
  }

  lemma {:induction false} GatherRequests(t: Taken, first: Request, kind: Kind, cap: int, i: nat)
    requires first.Request? && i <= |t.table| && AllRequests(t.batch)
    ensures AllRequests(Gather(t, first, kind, cap, i).batch)
    decreases |t.table| - i
  {
    if i < |t.table| && |t.batch| < cap {
      if Joins(t.table[i], first, kind) {
        GatherRequests(Taken(t.batch + [t.table[i]], t.table[i := Free]), first, kind, cap, i + 1);
      } else {
        GatherRequests(t, first, kind, cap, i + 1);
      }
    }
  }

  /** What one call of the batch collection takes and leaves. */
  function Collect(table: seq<Request>, kind: Kind, dir: int, floor: int, cap: int): (r: Taken)
    requires dir == 1 || dir == -1
    ensures |r.table| == |table| && AllRequests(r.batch)
  {
    var f := FirstIndex(table, dir, floor);
    if f == -1 then Taken([], table)
    else
      var first := table[f];
      var t := Gather(Taken([first], table[f := Free]), first, kind, cap, 0);
      GatherRequests(Taken([first], table[f := Free]), first, kind, cap, 0);
      if kind == Delivery then t.(batch := ExchangeSort(t.batch, 0, Direction(first))) else t
  }

  /** The scan direction the collection leaves behind. */
  function CollectDirection(table: seq<Request>, dir: int, floor: int): (d: int)
    requires dir == 1 || dir == -1
    ensures d == 1 || d == -1
  {
    var f := FirstIndex(table, dir, floor);
    if f == -1 then dir else Direction(table[f])
  }

  // ---------------------------------------------------------------------------------------------
  // What a batch is

  lemma {:induction false} GatherTally(t: Taken, first: Request, kind: Kind, cap: int, i: nat, q: Query)
    requires first.Request? && i <= |t.table|
    ensures var r := Gather(t, first, kind, cap, i);
      Tally(r.batch, q) + Tally(r.table, q) == Tally(t.batch, q) + Tally(t.table, q)
    decreases |t.table| - i
  {
    if i < |t.table| && |t.batch| < cap {
      if Joins(t.table[i], first, kind) {
        TallyPush(t.batch, t.table[i], q);
        TallyUpdate(t.table, i, Free, q);
        GatherTally(Taken(t.batch + [t.table[i]], t.table[i := Free]), first, kind, cap, i + 1, q);
      } else {
        GatherTally(t, first, kind, cap, i + 1, q);
      }
    }
  }

  lemma {:induction false} RowTally(b: seq<Request>, i: nat, j: nat, dir: int, q: Query)
    requires i < j <= |b| && AllRequests(b)
    ensures Tally(ExchangeRow(b, i, j, dir), q) == Tally(b, q)
    decreases |b| - j
  {
    if j < |b| {
      if OutOfOrder(b[i], b[j], dir) {
        TallyUpdate(b, i, b[j], q);
        TallyUpdate(b[i := b[j]], j, b[i], q);
        RowTally(b[i := b[j]][j := b[i]], i, j + 1, dir, q);
      } else {
        RowTally(b, i, j + 1, dir, q);
      }
    }
  }

  lemma {:induction false} SortTally(b: seq<Request>, i: nat, dir: int, q: Query)
    requires i <= |b| && AllRequests(b)
    ensures Tally(ExchangeSort(b, i, dir), q) == Tally(b, q)
    decreases |b| - i
  {
    if i < |b| {
      RowTally(b, i, i + 1, dir, q);
      SortTally(ExchangeRow(b, i, i + 1, dir), i + 1, dir, q);
    }
  }

  /** Nothing is lost or copied: batch and remaining table together are the old table. */
  lemma CollectConserves(table: seq<Request>, kind: Kind, dir: int, floor: int, cap: int, q: Query)
    requires dir == 1 || dir == -1
    ensures var r := Collect(table, kind, dir, floor, cap);
      Tally(r.batch, q) + Tally(r.table, q) == Tally(table, q)
  {
    var f := FirstIndex(table, dir, floor);
    if f == -1 {
      assert Tally([], q) == 0;
    } else {
      var first := table[f];
      var t0 := Taken([first], table[f := Free]);
      TallyOne(first, q);
      TallyUpdate(table, f, Free, q);
      GatherTally(t0, first, kind, cap, 0, q);
      GatherRequests(t0, first, kind, cap, 0);
      if kind == Delivery {
        SortTally(Gather(t0, first, kind, cap, 0).batch, 0, Direction(first), q);
      }
    }
  }

  /** A batch is taken whenever there is a request. */
  lemma CollectProgress(table: seq<Request>, kind: Kind, dir: int, floor: int, cap: int)
    requires dir == 1 || dir == -1
    ensures Collect(table, kind, dir, floor, cap).batch == [] <==> Tally(table, Used) == 0
  {
    TallyExtremes(table, Used);
    var f := FirstIndex(table, dir, floor);
    if f != -1 {
      GatherGrows(Taken([table[f]], table[f := Free]), table[f], kind, cap, 0);
    }
  }

  lemma {:induction false} GatherGrows(t: Taken, first: Request, kind: Kind, cap: int, i: nat)
    requires first.Request? && i <= |t.table|
    ensures var r := Gather(t, first, kind, cap, i);
      |t.batch| <= |r.batch| && (|t.batch| <= cap ==> |r.batch| <= cap)
    decreases |t.table| - i
  {
    if i < |t.table| && |t.batch| < cap {
      if Joins(t.table[i], first, kind) {
        GatherGrows(Taken(t.batch + [t.table[i]], t.table[i := Free]), first, kind, cap, i + 1);
      } else {
        GatherGrows(t, first, kind, cap, i + 1);
      }
    }
  }

  /** Everything gathered joins the first request, and unless the batch is full nothing that would
      join is left from slot i on; slots before i are untouched. */
  lemma {:induction false} GatherMaximal(t: Taken, first: Request, kind: Kind, cap: int, i: nat)
    requires first.Request? && i <= |t.table|
    requires forall k :: 0 <= k < |t.batch| ==> Joins(t.batch[k], first, kind)
    ensures var r := Gather(t, first, kind, cap, i);
      && (forall k :: 0 <= k < |r.batch| ==> Joins(r.batch[k], first, kind))
      && (|r.batch| < cap ==> forall k :: i <= k < |r.table| ==> !Joins(r.table[k], first, kind))
      && r.table[..i] == t.table[..i]
    decreases |t.table| - i
  {
    if i < |t.table| && |t.batch| < cap {
      if Joins(t.table[i], first, kind) {
        var u := Taken(t.batch + [t.table[i]], t.table[i := Free]);
        GatherMaximal(u, first, kind, cap, i + 1);
        var r := Gather(u, first, kind, cap, i + 1);
        assert r.table[i] == r.table[..i + 1][i] == u.table[..i + 1][i];
        assert r.table[..i] == r.table[..i + 1][..i] == u.table[..i + 1][..i] == t.table[..i];
      } else {
        GatherMaximal(t, first, kind, cap, i + 1);
        var r := Gather(t, first, kind, cap, i + 1);
        assert r.table[i] == r.table[..i + 1][i] == t.table[..i + 1][i];
        assert r.table[..i] == r.table[..i + 1][..i] == t.table[..i + 1][..i] == t.table[..i];
      }
    }
  }

  /** b is in order up to n, and nothing after position k < n has to come before it. */
  ghost predicate SortedTo(b: seq<Request>, n: nat, dir: int)
    requires AllRequests(b)
  {
    forall k, m :: 0 <= k < n && k < m < |b| ==> !OutOfOrder(b[k], b[m], dir)
  }

  /** A row brings a request to position i that belongs before all compared ones, and only reorders. */
  lemma {:induction false} RowSelects(b: seq<Request>, i: nat, j: nat, dir: int)
    requires i < j <= |b| && AllRequests(b) && SortedTo(b, i, dir)
    requires forall m :: i < m < j ==> !OutOfOrder(b[i], b[m], dir)
    ensures SortedTo(ExchangeRow(b, i, j, dir), i + 1, dir)
    decreases |b| - j
  {
    if j < |b| {
      if OutOfOrder(b[i], b[j], dir) {
        var c := b[i := b[j]][j := b[i]];
        assert AllRequests(c);
        assert SortedTo(c, i, dir);
        RowSelects(c, i, j + 1, dir);
      } else {
        RowSelects(b, i, j + 1, dir);
      }
    }
  }

  lemma {:induction false} ExchangeSorts(b: seq<Request>, i: nat, dir: int)
    requires i <= |b| && AllRequests(b) && SortedTo(b, i, dir)
    ensures SortedTo(ExchangeSort(b, i, dir), |b|, dir)
    decreases |b| - i
  {
    if i < |b| {
      RowSelects(b, i, i + 1, dir);
      ExchangeSorts(ExchangeRow(b, i, i + 1, dir), i + 1, dir);
    }
  }

  ghost predicate AllJoin(b: seq<Request>, first: Request, kind: Kind)
    requires first.Request?
  {
    forall k :: 0 <= k < |b| ==> Joins(b[k], first, kind)
  }

  lemma {:induction false} RowKeepsJoining(b: seq<Request>, i: nat, j: nat, dir: int, first: Request, kind: Kind)
    requires first.Request? && i < j <= |b| && AllRequests(b) && AllJoin(b, first, kind)
    ensures AllJoin(ExchangeRow(b, i, j, dir), first, kind)
    decreases |b| - j
  {
    if j < |b| {
      if OutOfOrder(b[i], b[j], dir) {
        RowKeepsJoining(b[i := b[j]][j := b[i]], i, j + 1, dir, first, kind);
      } else {
        RowKeepsJoining(b, i, j + 1, dir, first, kind);
      }
    }
  }

  lemma {:induction false} SortKeepsJoining(b: seq<Request>, i: nat, dir: int, first: Request, kind: Kind)
    requires first.Request? && i <= |b| && AllRequests(b) && AllJoin(b, first, kind)
    ensures AllJoin(ExchangeSort(b, i, dir), first, kind)
    decreases |b| - i
  {
    if i < |b| {
      RowKeepsJoining(b, i, i + 1, dir, first, kind);
      SortKeepsJoining(ExchangeRow(b, i, i + 1, dir), i + 1, dir, first, kind);
    }
  }

  /** The request may ride in a batch opened by first: it waits on the same floor and, for deliveries,
      goes the same way. */
  ghost predicate Shares(r: Request, first: Request, kind: Kind) {
    && r.Request? && first.Request? && r.from == first.from
    && (kind == Delivery ==> (r.to >= r.from <==> first.to >= first.from))
  }

  /** picked are the slots below n, other than f, whose requests may ride with that of slot f; lowest
      first. */
  ghost predicate Picked(table: seq<Request>, kind: Kind, f: nat, n: nat, picked: seq<nat>) {
    && f < |table| && table[f].Request? && n <= |table|
    && (forall k :: 0 <= k < |picked| ==> picked[k] < n && picked[k] != f && Shares(table[picked[k]], table[f], kind))
    && (forall k, l :: 0 <= k < l < |picked| ==> picked[k] < picked[l])
    && forall m: nat :: m < n && m != f && Shares(table[m], table[f], kind) ==> m in picked
  }

  /** t is what taking slot f and then the picked slots off the table gives. */
  ghost predicate TakenOff(table: seq<Request>, kind: Kind, f: nat, n: nat, picked: seq<nat>, t: Taken) {
    && Picked(table, kind, f, n, picked)
    && |t.table| == |table| && (forall m: nat :: m < |table| ==> t.table[m] == if m == f || m in picked then Free else table[m])
    && |t.batch| == |picked| + 1 && t.batch[0] == table[f]
    && forall k :: 0 <= k < |picked| ==> t.batch[k + 1] == table[picked[k]]
  }

  lemma TakesOneMore(table: seq<Request>, kind: Kind, f: nat, i: nat, picked: seq<nat>, t: Taken)
    requires f < |table| && i < |table| && TakenOff(table, kind, f, i, picked, t) && Joins(t.table[i], table[f], kind)
    ensures TakenOff(table, kind, f, i + 1, picked + [i], Taken(t.batch + [t.table[i]], t.table[i := Free]))
  {
    var more := picked + [i];
    assert forall m: nat :: m in more <==> m in picked || m == i;
    assert Picked(table, kind, f, i + 1, more);
  }

  lemma PassesOver(table: seq<Request>, kind: Kind, f: nat, i: nat, picked: seq<nat>, t: Taken)
    requires f < |table| && i < |table| && TakenOff(table, kind, f, i, picked, t) && !Joins(t.table[i], table[f], kind)
    ensures TakenOff(table, kind, f, i + 1, picked, t)
  {
    assert i !in picked;
  }

  /** The sweep takes exactly the lowest requests that may ride along, and stops early only when full. */
  lemma {:induction false} GatherPicks(table: seq<Request>, kind: Kind, f: nat, cap: int, i: nat, t: Taken, before: seq<nat>)
    returns (n: nat, picked: seq<nat>)
    requires f < |table| && i <= |table| && TakenOff(table, kind, f, i, before, t) && |t.batch| <= cap
    ensures TakenOff(table, kind, f, n, picked, Gather(t, table[f], kind, cap, i))
    ensures |picked| + 1 <= cap && (|picked| + 1 < cap ==> n == |table|)
    decreases |table| - i
  {
    if i == |table| || |t.batch| >= cap {
      n, picked := i, before;
    } else if Joins(t.table[i], table[f], kind) {
      TakesOneMore(table, kind, f, i, before, t);
      n, picked := GatherPicks(table, kind, f, cap, i + 1, Taken(t.batch + [t.table[i]], t.table[i := Free]), before + [i]);
    } else {
      PassesOver(table, kind, f, i, before, t);
      n, picked := GatherPicks(table, kind, f, cap, i + 1, t, before);
    }
  }

  /** batch and rest are what slot f and the picked slots make of the table: a batch within capacity, for
      which the table was searched to the end unless it is full; repositions in the order of their slots,
      deliveries in the order of their destinations along the way. */
  ghost predicate BatchOf(table: seq<Request>, kind: Kind, cap: int, f: nat, n: nat, picked: seq<nat>,
                          batch: seq<Request>, rest: seq<Request>) {
    && Picked(table, kind, f, n, picked)
    && |batch| == |picked| + 1 <= cap && (|batch| < cap ==> n == |table|)
    && |rest| == |table| && (forall m: nat :: m < |table| ==> rest[m] == if m == f || m in picked then Free else table[m])
    && (forall k :: 0 <= k < |batch| ==> Shares(batch[k], table[f], kind))
    && match kind
       case Reposition => batch[0] == table[f] && forall k :: 0 <= k < |picked| ==> batch[k + 1] == table[picked[k]]
       case Delivery => forall k, l :: 0 <= k < l < |batch| ==>
         if table[f].to >= table[f].from then batch[k].to <= batch[l].to else batch[k].to >= batch[l].to
  }

  /** The shape of a batch, by the requests' own fields: which slot opens it, who rides along and in what
      order, and what stays in the table. */
  lemma BatchShape(table: seq<Request>, kind: Kind, dir: int, floor: int, cap: int, f: nat) returns (n: nat, picked: seq<nat>)
    requires (dir == 1 || dir == -1) && cap >= 1 && Opening(table, dir, floor, f)
    ensures var r := Collect(table, kind, dir, floor, cap); BatchOf(table, kind, cap, f, n, picked, r.batch, r.table)
    ensures table[f].Request? && CollectDirection(table, dir, floor) == if table[f].to >= table[f].from then 1 else -1
  {
    assert FirstIndex(table, dir, floor) == f;
    var first := table[f];
    var t0 := Taken([first], table[f := Free]);
    n, picked := GatherPicks(table, kind, f, cap, 0, t0, []);
    GatherRequests(t0, first, kind, cap, 0);
    GatherMaximal(t0, first, kind, cap, 0);
    Ordered(table, kind, cap, f, n, picked, Gather(t0, first, kind, cap, 0));
  }

  lemma Ordered(table: seq<Request>, kind: Kind, cap: int, f: nat, n: nat, picked: seq<nat>, t: Taken)
    requires f < |table| && TakenOff(table, kind, f, n, picked, t) && AllRequests(t.batch) && AllJoin(t.batch, table[f], kind)
    requires |picked| + 1 <= cap && (|picked| + 1 < cap ==> n == |table|)
    ensures BatchOf(table, kind, cap, f, n, picked,
                    if kind == Delivery then ExchangeSort(t.batch, 0, Direction(table[f])) else t.batch, t.table)
  {
    if kind == Delivery {
      DeliveryOrder(t.batch, table[f], ExchangeSort(t.batch, 0, Direction(table[f])));
    } else {
      forall k | 0 <= k < |t.batch|
        ensures Shares(t.batch[k], table[f], kind)
      {
        assert Joins(t.batch[k], table[f], kind);
      }
    }
  }

  lemma DeliveryOrder(b: seq<Request>, first: Request, r: seq<Request>)
    requires first.Request? && AllRequests(b) && AllJoin(b, first, Delivery) && r == ExchangeSort(b, 0, Direction(first))
    ensures forall k :: 0 <= k < |r| ==> Shares(r[k], first, Delivery)
    ensures forall k, l :: 0 <= k < l < |r| ==> if first.to >= first.from then r[k].to <= r[l].to else r[k].to >= r[l].to
  {
    SortKeepsJoining(b, 0, Direction(first), first, Delivery);
    ExchangeSorts(b, 0, Direction(first));
    forall k, l | 0 <= k < l < |r|
      ensures if first.to >= first.from then r[k].to <= r[l].to else r[k].to >= r[l].to
    {
      assert !OutOfOrder(r[k], r[l], Direction(first));
    }
  }
}
