/** A bounded buffer with its two condition variables: the private buffer, Regions A, B and D are all of
    this kind. HW4/reader.c:45-75, 161-175; HW4/dispatcher.c:15-66, 110-114; HW4/analyzer.c:58-73;
    HW4/aggregator.c:35-52.

    A party that has reached its push or pop, and holds or awaits the mutex, is awake on that side of the
    channel; one blocked on the side's condition is asleep. A signal moves one sleeper, chosen freely, and
    a broadcast moves all. */
module Channels {
  import opened Counting

  /** The parties on one side of a channel: all putters, or all takers. */
  datatype Side = Side(awake: set<nat>, asleep: set<nat>)

  /** The party k is at its operation on this side. */
  predicate At(s: Side, k: nat) {
    k in s.awake || k in s.asleep
  }

  ghost predicate SideOk(s: Side) {
    s.awake !! s.asleep
  }

  /** The one sleeper that a signal wakes. */
  predicate Picks(s: Side, pick: nat) {
    s.asleep != {} ==> pick in s.asleep
  }

  function Signal(s: Side, pick: nat): Side {
    if pick in s.asleep then Side(s.awake + {pick}, s.asleep - {pick}) else s
  }

  function Broadcast(s: Side): Side {
    Side(s.awake + s.asleep, {})
  }

  function Sleep(s: Side, me: nat): Side {
    Side(s.awake - {me}, s.asleep + {me})
  }

  function Depart(s: Side, me: nat): Side {
    s.(awake := s.awake - {me})
  }

  function Arrive(s: Side, me: nat): Side {
    s.(awake := s.awake + {me})
  }

  lemma Sizes(s: set<nat>, x: nat)
    ensures x !in s ==> |s + {x}| == |s| + 1
    ensures x in s ==> |s - {x}| == |s| - 1
  {
    if x in s {
      assert (s - {x}) + {x} == s;
    }
  }

  lemma SignalSide(s: Side, pick: nat)
    requires SideOk(s)
    ensures SideOk(Signal(s, pick)) && forall k :: At(Signal(s, pick), k) <==> At(s, k)
    ensures s.asleep != {} && Picks(s, pick) ==> |Signal(s, pick).awake| == |s.awake| + 1
    ensures s.asleep == {} ==> Signal(s, pick) == s
    ensures |Signal(s, pick).awake| <= |s.awake| + 1
  {
    Sizes(s.awake, pick);
  }

  lemma SleepSide(s: Side, me: nat)
    requires SideOk(s) && me in s.awake
    ensures SideOk(Sleep(s, me)) && forall k :: At(Sleep(s, me), k) <==> At(s, k)
    ensures |Sleep(s, me).awake| == |s.awake| - 1
  {
    Sizes(s.awake, me);
  }

  lemma DepartSide(s: Side, me: nat)
    requires SideOk(s) && me in s.awake
    ensures SideOk(Depart(s, me)) && forall k :: At(Depart(s, me), k) <==> At(s, k) && k != me
    ensures |Depart(s, me).awake| == |s.awake| - 1
  {
    Sizes(s.awake, me);
  }

  lemma ArriveSide(s: Side, me: nat)
    requires SideOk(s) && !At(s, me)
    ensures SideOk(Arrive(s, me)) && forall k :: At(Arrive(s, me), k) <==> At(s, k) || k == me
    ensures |Arrive(s, me).awake| == |s.awake| + 1
  {
    Sizes(s.awake, me);
  }

  datatype Channel<T> = Channel(items: seq<T>, capacity: nat, closed: bool, put: Side, take: Side)

  predicate CanPut<T>(c: Channel<T>, me: nat, pick: nat) {
    me in c.put.awake && |c.items| != c.capacity && Picks(c.take, pick)
  }

  /** Writing one item and signalling not_empty. */
  function Put<T>(c: Channel<T>, me: nat, x: T, pick: nat): Channel<T> {
    c.(items := c.items + [x], put := Depart(c.put, me), take := Signal(c.take, pick))
  }

  predicate MustSleepPut<T>(c: Channel<T>, me: nat) {
    me in c.put.awake && |c.items| == c.capacity
  }

  function SleepPut<T>(c: Channel<T>, me: nat): Channel<T> {
    c.(put := Sleep(c.put, me))
  }

  predicate CanTake<T>(c: Channel<T>, me: nat, pick: nat) {
    me in c.take.awake && c.items != [] && Picks(c.put, pick)
  }

  /** Removing the first item and signalling not_full. */
  function Take<T>(c: Channel<T>, me: nat, pick: nat): Channel<T>
    requires c.items != []
  {
    c.(items := c.items[1..], take := Depart(c.take, me), put := Signal(c.put, pick))
  }

  predicate MustSleepTake<T>(c: Channel<T>, me: nat) {
    me in c.take.awake && c.items == [] && !c.closed
  }

  function SleepTake<T>(c: Channel<T>, me: nat): Channel<T> {
    c.(take := Sleep(c.take, me))
  }

  /** Nothing is left and nothing will come. */
  predicate AtEnd<T>(c: Channel<T>, me: nat) {
    me in c.take.awake && c.items == [] && c.closed
  }

  function Leave<T>(c: Channel<T>, me: nat): Channel<T> {
    c.(take := Depart(c.take, me))
  }

  function ArrivePut<T>(c: Channel<T>, me: nat): Channel<T> {
    c.(put := Arrive(c.put, me))
  }

  function ArriveTake<T>(c: Channel<T>, me: nat): Channel<T> {
    c.(take := Arrive(c.take, me))
  }

  /** Setting the end flag and broadcasting not_empty. */
  function Close<T>(c: Channel<T>): Channel<T> {
    c.(closed := true, take := Broadcast(c.take))
  }

  /** A sleeper on either side may also wake without a signal, or when its wait times out. */
  predicate CanNudge<T>(c: Channel<T>, put: bool, k: nat) {
    k in if put then c.put.asleep else c.take.asleep
  }

  function Nudged<T>(c: Channel<T>, put: bool, k: nat): Channel<T> {
    if put then c.(put := Signal(c.put, k)) else c.(take := Signal(c.take, k))
  }

  function Awake<T>(c: Channel<T>): nat {
    |c.put.awake| + |c.take.awake|
  }

  /** No wake-up is lost: while somebody sleeps on a condition, enough others are already awake to use
      up whatever room or items there are. */
  ghost predicate ChannelOk<T>(c: Channel<T>) {
    && 0 < c.capacity && |c.items| <= c.capacity
    && SideOk(c.put) && SideOk(c.take)
    && (c.take.asleep != {} ==> !c.closed && |c.items| <= |c.take.awake|)
    && (c.put.asleep != {} ==> c.capacity - |c.items| <= |c.put.awake|)
  }

  function Empty<T>(capacity: nat, putters: set<nat>, takers: set<nat>): Channel<T> {
    Channel([], capacity, false, Side(putters, {}), Side(takers, {}))
  }

  lemma PutOk<T>(c: Channel<T>, me: nat, x: T, pick: nat)
    requires ChannelOk(c) && CanPut(c, me, pick)
    ensures ChannelOk(Put(c, me, x, pick))
    ensures forall k :: At(Put(c, me, x, pick).put, k) <==> At(c.put, k) && k != me
    ensures forall k :: At(Put(c, me, x, pick).take, k) <==> At(c.take, k)
  {
    DepartSide(c.put, me);
    SignalSide(c.take, pick);
  }

  lemma TakeOk<T>(c: Channel<T>, me: nat, pick: nat)
    requires ChannelOk(c) && CanTake(c, me, pick)
    ensures ChannelOk(Take(c, me, pick))
    ensures forall k :: At(Take(c, me, pick).take, k) <==> At(c.take, k) && k != me
    ensures forall k :: At(Take(c, me, pick).put, k) <==> At(c.put, k)
  {
    DepartSide(c.take, me);
    SignalSide(c.put, pick);
  }

  lemma SleepPutOk<T>(c: Channel<T>, me: nat)
    requires ChannelOk(c) && MustSleepPut(c, me)
    ensures ChannelOk(SleepPut(c, me)) && Awake(SleepPut(c, me)) == Awake(c) - 1
    ensures forall k :: At(SleepPut(c, me).put, k) <==> At(c.put, k)
  {
    SleepSide(c.put, me);
  }

  lemma SleepTakeOk<T>(c: Channel<T>, me: nat)
    requires ChannelOk(c) && MustSleepTake(c, me)
    ensures ChannelOk(SleepTake(c, me)) && Awake(SleepTake(c, me)) == Awake(c) - 1
    ensures forall k :: At(SleepTake(c, me).take, k) <==> At(c.take, k)
  {
    SleepSide(c.take, me);
  }

  lemma ArrivePutOk<T>(c: Channel<T>, me: nat)
    requires ChannelOk(c) && !At(c.put, me)
    ensures ChannelOk(ArrivePut(c, me)) && forall k :: At(ArrivePut(c, me).put, k) <==> At(c.put, k) || k == me
  {
    ArriveSide(c.put, me);
  }

  lemma ArriveTakeOk<T>(c: Channel<T>, me: nat)
    requires ChannelOk(c) && !At(c.take, me)
    ensures ChannelOk(ArriveTake(c, me)) && forall k :: At(ArriveTake(c, me).take, k) <==> At(c.take, k) || k == me
  {
    ArriveSide(c.take, me);
  }

  lemma CloseOk<T>(c: Channel<T>)
    requires ChannelOk(c)
    ensures ChannelOk(Close(c)) && forall k :: At(Close(c).take, k) <==> At(c.take, k)
  {
  }

  lemma NudgeOk<T>(c: Channel<T>, put: bool, k: nat)
    requires ChannelOk(c) && CanNudge(c, put, k)
    ensures ChannelOk(Nudged(c, put, k))
    ensures forall j :: (At(Nudged(c, put, k).put, j) <==> At(c.put, j)) && (At(Nudged(c, put, k).take, j) <==> At(c.take, j))
  {
    SignalSide(c.put, k);
    SignalSide(c.take, k);
  }

  lemma LeaveOk<T>(c: Channel<T>, me: nat)
    requires ChannelOk(c) && AtEnd(c, me)
    ensures ChannelOk(Leave(c, me)) && forall k :: At(Leave(c, me).take, k) <==> At(c.take, k) && k != me
  {
    DepartSide(c.take, me);
  }

  /** When nobody at a channel is awake, its putters wait for room, its takers for items, and there are
      not both kinds. */
  lemma OnlyBlocked<T>(c: Channel<T>, k: nat, j: nat)
    requires ChannelOk(c) && c.put.awake == {} && c.take.awake == {}
    ensures At(c.put, k) ==> |c.items| == c.capacity > 0
    ensures At(c.take, j) ==> c.items == [] && !c.closed
    ensures !(At(c.put, k) && At(c.take, j))
  {
  }
}
