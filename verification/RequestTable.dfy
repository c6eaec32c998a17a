/** A request table as the elevator and the letter carriers update it in place.
    HW3/elevator.c:4-82, HW3/letter_carrier.c:4-32. */
module RequestTable {
  import opened Elevator

  class RequestTable {
    const kind: Kind
    const slots: array<Request>
    var floor: int
    var dir: int
    var items: nat

    ghost predicate Valid()
      reads this
    {
      dir == 1 || dir == -1
    }

    constructor (kind: Kind, size: nat)
      ensures Valid() && fresh(slots) && this.kind == kind
      ensures slots.Length == size && forall i :: 0 <= i < size ==> slots[i] == Free
      ensures floor == 0 && dir == 1 && items == 0
    {
      this.kind := kind;
      slots := new Request[size](_ => Free);
      floor, dir, items := 0, 1, 0;
    }

    /** Puts the request into the first free slot and posts one item; a full table refuses it. */
    method Enqueue(r: Request) returns (ok: bool)
      modifies this`items, slots
      ensures var i := FirstFree(old(slots[..]), 0);
        && (ok <==> i != -1)
        && slots[..] == (if ok then old(slots[..])[i := r] else old(slots[..]))
        && items == (if ok then old(items) + 1 else old(items))
    {
      for i := 0 to slots.Length
        invariant slots[..] == old(slots[..]) && items == old(items)
        invariant FirstFree(slots[..], 0) == FirstFree(slots[..], i)
      {
        if slots[i].Free? {
          slots[i] := r;
          items := items + 1;
          return true;
        }
      }
      return false;
    }

    method FirstIdx() returns (best: int)
      requires Valid()
      ensures Opening(slots[..], dir, floor, best) && best == FirstIndex(slots[..], dir, floor)
    {
      best := -1;
      var d := dir;
      for pass := 0 to 2
        invariant d == if pass == 1 then -dir else dir
        invariant best == if pass == 0 then -1 else if pass == 1 then FirstAhead(slots[..], dir, floor, 0)
                          else FirstIndex(slots[..], dir, floor)
      {
        if best == -1 {
          var i := 0;
          while i < slots.Length && best == -1
            invariant 0 <= i <= slots.Length
            invariant FirstAhead(slots[..], d, floor, 0) == if best == -1 then FirstAhead(slots[..], d, floor, i) else best
            decreases slots.Length - i, best == -1
          {
            if Ahead(slots[i], d, floor) {
              best := i;
            } else {
              i := i + 1;
            }
          }
        }
        d := -d;
      }
    }

    /** Moves a batch out of the table into the caller's array and sorts it there. */
    method CollectBatch(batch: array<Request>, cap: int) returns (count: nat, ghost f: int, ghost n: nat, ghost picked: seq<nat>)
      requires Valid() && batch != slots && 1 <= cap <= batch.Length
      modifies this`dir, slots, batch
      ensures Valid() && count <= batch.Length
      ensures Opening(old(slots[..]), old(dir), floor, f)
      ensures if f == -1 then count == 0 && slots[..] == old(slots[..]) && dir == old(dir)
              else BatchOf(old(slots[..]), kind, cap, f, n, picked, batch[..count], slots[..])
                   && dir == if old(slots[f].to >= slots[f].from) then 1 else -1
      ensures batch[..count] == Collect(old(slots[..]), kind, old(dir), floor, cap).batch
      ensures slots[..] == Collect(old(slots[..]), kind, old(dir), floor, cap).table
      ensures dir == CollectDirection(old(slots[..]), old(dir), floor)
    {
      var fi := FirstIdx();
      f, n, picked := fi, 0, [];
      if fi == -1 {
        return 0, f, n, picked;
      }
      n, picked := BatchShape(slots[..], kind, dir, floor, cap, fi);
      var first := slots[fi];
      slots[fi] := Free;
      batch[0] := first;
      dir := Direction(first);
      GatherRequests(Taken([first], slots[..]), first, kind, cap, 0);
      assert batch[..1] == [first];
      count := Sweep(batch, first, cap);
      if kind == Delivery {
        SortBatch(batch, count, dir);
      }
    }

    /** Offers every slot to the batch, which holds its first request already, until it is full. */
    method Sweep(batch: array<Request>, first: Request, cap: int) returns (count: nat)
      requires batch != slots && 1 <= cap <= batch.Length && first.Request?
      modifies slots, batch
      ensures count <= batch.Length
      ensures Taken(batch[..count], slots[..]) == Gather(Taken(old(batch[..1]), old(slots[..])), first, kind, cap, 0)
    {
      count := 1;
      var i := 0;
      while i < slots.Length && count < cap
        invariant 0 <= i <= slots.Length && 1 <= count <= cap
        invariant Gather(Taken(batch[..count], slots[..]), first, kind, cap, i)
               == Gather(Taken(old(batch[..1]), old(slots[..])), first, kind, cap, 0)
      {
        if Joins(slots[i], first, kind) {
          ghost var b := batch[..count];
          batch[count] := slots[i];
          slots[i] := Free;
          count := count + 1;
          assert batch[..count] == b + [batch[count - 1]];
        }
        i := i + 1;
      }
    }

    /** The exchange sort over the filled part of the batch. */
    static method SortBatch(batch: array<Request>, count: nat, dir: int)
      requires count <= batch.Length && AllRequests(batch[..count])
      modifies batch
      ensures batch[..count] == ExchangeSort(old(batch[..count]), 0, dir)
    {
      for i := 0 to count
        invariant AllRequests(batch[..count])
        invariant ExchangeSort(batch[..count], i, dir) == ExchangeSort(old(batch[..count]), 0, dir)
      {
        ghost var b := batch[..count];
        for j := i + 1 to count
          invariant AllRequests(batch[..count])
          invariant ExchangeRow(batch[..count], i, j, dir) == ExchangeRow(b, i, i + 1, dir)
        {
          ghost var c := batch[..count];
          assert batch[i] == c[i] && batch[j] == c[j];
          if OutOfOrder(batch[i], batch[j], dir) {
            batch[i], batch[j] := batch[j], batch[i];
            assert batch[..count] == c[i := c[j]][j := c[i]];
          }
        }
      }
    }
  }
}
