/** The critical sections under queue_lock, over the shared queue and flags. HW5/main.c:191-214, 229-239, 244-270. */
module ShiftDesk {
  import opened OrderQueues
  import opened Shift

  /** What one round of a courier's section comes to. Broadcasts wake the couriers, signals the main thread. */
  datatype Choice = GoToSleep | GoHome(broadcast: bool) | Take(order: Order)

  class Desk {
    const queue: OrderQueue
    var stopping: bool
    var active: int
    var cancelledCount: int

    constructor (queue: OrderQueue)
      ensures this.queue == queue && !stopping && active == 0 && cancelledCount == 0
    {
      this.queue := queue;
      stopping, active, cancelledCount := false, 0, 0;
    }

    /** The shared variables are those of state s. */
    ghost predicate Shows(s: State)
      reads this, queue, queue.spine
    {
      && queue.Valid() && queue.Contents() == s.queue && stopping == s.stopping
      && active == s.active && cancelledCount == s.cancelledCount
    }

    /** A courier with the lock tests the queue once: it sleeps, leaves, or takes the first order. */
    method TakeOrder(ghost n: nat, ghost s: State, ghost c: nat) returns (choice: Choice)
      requires Shows(s) && AtPc(s, c, Ready) && Control(n, s)
      modifies this`stopping, this`active, queue
      ensures choice.GoToSleep? == Enabled(n, s, Wait(c)) && choice.GoHome? == Enabled(n, s, Leave(c))
      ensures choice.Take? == Enabled(n, s, Start(c))
      ensures match choice
              case GoToSleep => Shows(Apply(n, s, Wait(c)))
              case GoHome(b) =>
                && Shows(Apply(n, s, Leave(c)))
                && Apply(n, s, Leave(c)).main == (if b then Signalled(s.main) else s.main)
                && Apply(n, s, Leave(c)).couriers == (if b then Woken(SetPc(s, c, Gone).couriers) else SetPc(s, c, Gone).couriers)
              case Take(o) => o == s.queue[0] && Shows(Apply(n, s, Start(c)))
      ensures match choice
              case GoToSleep =>
                && queue.Contents() == old(queue.Contents()) == [] && old(active) > 0 && active == old(active)
                && !old(stopping) && !stopping
              case GoHome(b) =>
                && queue.Contents() == old(queue.Contents()) && active == old(active)
                && (old(stopping) || queue.Contents() == []) && (b <==> !old(stopping) && active == 0) && stopping
              case Take(o) =>
                old(queue.Contents()) == [o] + queue.Contents() && active == old(active) + 1 && !old(stopping) && !stopping
    {
      var size := queue.Size();
      if size == 0 && !stopping && active > 0 {
        return GoToSleep;
      }
      if stopping {
        return GoHome(false);
      }
      var first := queue.Pop();
      if first.Nothing? {
        var last := active == 0;
        if last {
          stopping := true;
        }
        return GoHome(last);
      }
      active := active + 1;
      return Take(first.order);
    }

    /** A courier returns: it ends the shift, or lets the others try for the remaining orders. */
    method EndDelivery(ghost n: nat, ghost s: State, ghost c: nat) returns (broadcast: bool, signal: bool)
      requires Shows(s) && Enabled(n, s, Return(c))
      modifies this`stopping, this`active
      ensures var s' := Apply(n, s, Return(c));
              && Shows(s') && s'.main == (if signal then Signalled(s.main) else s.main)
              && s'.couriers == if broadcast then Woken(SetPc(s, c, Ready).couriers) else SetPc(s, c, Ready).couriers
      ensures active == old(active) - 1 && queue.Contents() == old(queue.Contents())
      ensures stopping == signal == (old(stopping) || (queue.Contents() == [] && active == 0))
      ensures broadcast == (signal || queue.Contents() != [])
    {
      broadcast, signal := false, false;
      active := active - 1;
      var size := queue.Size();
      if (size == 0 && active == 0) || stopping {
        stopping := true;
        broadcast, signal := true, true;
      } else if size > 0 {
        broadcast := true;
      }
    }

    /** Takes every pending order off the queue and counts it as cancelled, unless the shift is stopping. */
    method CancelPendingOrders(ghost s: State) returns (broadcast: bool, cancelled: seq<Order>)
      requires Shows(s) && queue.Valid()
      modifies this`stopping, this`cancelledCount, queue
      ensures Shows(Cancelled(s)) && Cancelled(s).cancelled == s.cancelled + cancelled
      ensures Cancelled(s).couriers == if broadcast then Woken(s.couriers) else s.couriers
      ensures broadcast == !old(stopping) && stopping && cancelledCount == old(cancelledCount) + |cancelled|
      ensures old(queue.Contents()) == cancelled + queue.Contents() && (old(stopping) ==> cancelled == [])
      ensures broadcast ==> queue.Contents() == []
    {
      cancelled := [];
      if stopping {
        assert s.cancelled + [] == s.cancelled;
        return false, [];
      }
      stopping := true;
      cancelled := CancelAll();
      broadcast := true;
    }

    /** Pops until the queue is empty, counting each order. */
    method CancelAll() returns (cancelled: seq<Order>)
      requires queue.Valid()
      modifies this`cancelledCount, queue
      ensures queue.Valid() && queue.Contents() == [] && cancelled == old(queue.Contents())
      ensures cancelledCount == old(cancelledCount) + |cancelled|
    {
      cancelled := [];
      ghost var all := queue.Contents();
      while true
        invariant queue.Valid() && |cancelled| <= |all|
        invariant cancelled == all[..|cancelled|] && queue.Contents() == all[|cancelled|..]
        invariant cancelledCount == old(cancelledCount) + |cancelled|
        decreases |all| - |cancelled|
      {
        var next := queue.Pop();
        if next.Nothing? {
          break;
        }
        cancelled := cancelled + [next.order];
        cancelledCount := cancelledCount + 1;
      }
    }
  }
}
