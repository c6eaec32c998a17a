/** The circular array behind every channel: entries with head, tail and count under one mutex.
    HW4/reader.c:45-75, 161-175; HW4/dispatcher.c:15-66, 110-114; HW4/analyzer.c:58-73. */
module RingBuffers {
  import opened Channels

  datatype Taken<T> = Item(value: T) | Finished | NotYet

  /** An index one lap further at most, brought back into an array of n elements. */
  function Wrap(i: nat, n: nat): nat {
    if i < n then i else i - n
  }

  /** The count elements of a from head on, going round the end. */
  function Laid<T>(a: seq<T>, head: nat, count: nat): (s: seq<T>)
    requires head < |a| && count <= |a|
    ensures |s| == count
  {
    if head + count <= |a| then a[head..head + count] else a[head..] + a[..head + count - |a|]
  }

  lemma NextIndex(i: nat, n: nat)
    requires i < n
    ensures (i + 1) % n == Wrap(i + 1, n)
  {
  }

  lemma LaidPush<T>(a: seq<T>, head: nat, count: nat, x: T)
    requires head < |a| && count < |a|
    ensures Laid(a[Wrap(head + count, |a|) := x], head, count + 1) == Laid(a, head, count) + [x]
  {
  }

  lemma LaidPop<T>(a: seq<T>, head: nat, count: nat)
    requires head < |a| && 0 < count <= |a|
    ensures Laid(a, head, count) == [a[head]] + Laid(a, Wrap(head + 1, |a|), count - 1)
  {
  }

  class RingBuffer<T(0)> {
    var entries: array<T>
    var head: nat
    var tail: nat
    var count: nat
    var closed: bool

    ghost predicate Valid()
      reads this
    {
      && 0 < entries.Length && head < entries.Length && tail < entries.Length && count <= entries.Length
      && tail == Wrap(head + count, entries.Length)
    }

    /** The queue that the occupied part of the array stands for, oldest first. */
    ghost function Contents(): (s: seq<T>)
      requires Valid()
      reads this, entries
    {
      Laid(entries[..], head, count)
    }

    /** The array stands for the buffer of this channel. */
    ghost predicate Holds(c: Channel<T>)
      reads this, entries
    {
      Valid() && Contents() == c.items && entries.Length == c.capacity && closed == c.closed
    }

    constructor (capacity: nat)
      requires 0 < capacity
      ensures Holds(Empty(capacity, {}, {})) && fresh(entries)
    {
      entries := new T[capacity];
      head, tail, count, closed := 0, 0, 0, false;
    }

    /** One round of a push by the party me: false, and nothing done, when it must sleep until there is room. */
    method Push(x: T, ghost c: Channel<T>, ghost me: nat, ghost pick: nat) returns (ok: bool)
      requires Holds(c) && me in c.put.awake && Picks(c.take, pick)
      modifies this`tail, this`count, entries
      ensures ok == CanPut(c, me, pick) == !MustSleepPut(c, me)
      ensures Holds(if ok then Put(c, me, x, pick) else SleepPut(c, me))
      ensures ok == (|old(Contents())| < entries.Length)
      ensures Contents() == if ok then old(Contents()) + [x] else old(Contents())
    {
      ok := count != entries.Length;
      if ok {
        LaidPush(entries[..], head, count, x);
        NextIndex(tail, entries.Length);
        ghost var before := entries[..];
        entries[tail] := x;
        assert entries[..] == before[tail := x];
        tail := (tail + 1) % entries.Length;
        count := count + 1;
      }
    }

    /** One round of a pop by the party me: an item, the end of the stream, or neither when it must sleep. */
    method Pop(ghost c: Channel<T>, ghost me: nat, ghost pick: nat) returns (r: Taken<T>)
      requires Holds(c) && me in c.take.awake && Picks(c.put, pick)
      modifies this`head, this`count
      ensures r.Item? == CanTake(c, me, pick) && r.Finished? == AtEnd(c, me) && r.NotYet? == MustSleepTake(c, me)
      ensures match r
              case Item(x) => x == c.items[0] && Holds(Take(c, me, pick))
              case Finished => Holds(Leave(c, me))
              case NotYet => Holds(SleepTake(c, me))
      ensures match r
              case Item(x) => old(Contents()) == [x] + Contents()
              case Finished => old(Contents()) == Contents() == [] && closed
              case NotYet => old(Contents()) == Contents() == [] && !closed
    {
      if count == 0 {
        return if closed then Finished else NotYet;
      }
      r := Item(entries[head]);
      LaidPop(entries[..], head, count);
      NextIndex(head, entries.Length);
      head := (head + 1) % entries.Length;
      count := count - 1;
    }

    /** Setting producers_done, eof_posted or dispatcher_done. */
    method End(ghost c: Channel<T>)
      requires Holds(c)
      modifies this`closed
      ensures Holds(Close(c))
    {
      closed := true;
    }
  }
}
