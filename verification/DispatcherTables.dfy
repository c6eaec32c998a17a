/** The dispatcher's own counters, updated in place as items come out of Region A. HW4/dispatcher.c:70-71, 98-123. */
module DispatcherTables {
  import opened Channels
  import opened Pipeline

  class Tables {
    const eofSeen: array<nat>
    var finished: nat

    /** The counters are those of state s. */
    ghost predicate Shows(s: State)
      reads this, eofSeen
    {
      Shaped(s) && eofSeen[..] == s.eofSeen && finished == s.finished
    }

    constructor ()
      ensures eofSeen.Length == LEVELS && eofSeen[..] == [0, 0, 0, 0] && finished == 0 && fresh(eofSeen)
    {
      eofSeen := new nat[LEVELS](_ => 0);
      finished := 0;
    }

    /** An item has been popped: a line goes on to its level; a marker is counted, and the last one of a
        level leads to its eof_posted. */
    method Handle(x: Item, files: nat, posted: bool, ghost s: State) returns (next: Dispatcher)
      requires Shows(s) && ItemLevel(x) < LEVELS && files == |s.readers| && s.finished < LEVELS
      requires posted == s.levels[ItemLevel(x)].queue.closed
      modifies eofSeen
      ensures Shows(Routed(s, x)) && next == Routed(s, x).dispatcher
      ensures match x
              case Line(e) => eofSeen[..] == old(eofSeen[..]) && next == ToLevel(e)
              case Eof(_, l) =>
                && eofSeen[..] == old(eofSeen[..])[l := old(eofSeen[l]) + 1]
                && next == if eofSeen[l] == files && !posted then PostEof(l) else Fetch
    {
      match x {
        case Line(e) => next := ToLevel(e);
        case Eof(_, l) =>
          eofSeen[l] := eofSeen[l] + 1;
          next := if eofSeen[l] == files && !posted then PostEof(l) else Fetch;
      }
    }

    /** After eof_posted has been set: back to Region A, or done with all four levels. */
    method Posted(ghost c: Config, ghost s: State) returns (next: Dispatcher)
      requires Shows(s) && s.dispatcher.PostEof?
      modifies this`finished
      ensures Shows(Apply(c, s, PostLevel)) && next == Apply(c, s, PostLevel).dispatcher
      ensures finished == old(finished) + 1 && next == if finished < 4 then Fetch else SetDone
    {
      finished := finished + 1;
      next := if finished < LEVELS then Fetch else SetDone;
    }

    /** Where an entry goes after its level's queue: a line of a priority source goes to Region D too. */
    method AfterLevel(e: Entry, priority: seq<string>, ghost c: Config, ghost s: State, ghost pick: nat) returns (next: Dispatcher)
      requires Shaped(s) && s.dispatcher == ToLevel(e) && priority == c.priority && Enabled(s, RouteLevel(pick))
      ensures next == Apply(c, s, RouteLevel(pick)).dispatcher
      ensures next == if e.source in priority then ToPriority(e) else Fetch
    {
      var i := 0;
      while i < |priority|
        invariant i <= |priority| && e.source !in priority[..i]
      {
        if priority[i] == e.source {
          return ToPriority(e);
        }
        i := i + 1;
      }
      assert priority[..i] == priority;
      return Fetch;
    }
  }
}
