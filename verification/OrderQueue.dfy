/** The pending-order queue: a linked list kept in order of priority and id. HW5/order_queue.c:5-81,
    HW5/order_queue.h:9-30. */
module OrderQueues {

  /** priority is 1 (express), 2 (standard) or 3 (economy). */
  datatype Order = Order(id: int, recipient: string, priority: int, duration: int)

  predicate Higher(a: Order, b: Order) {
    if a.priority != b.priority then a.priority < b.priority else a.id < b.id
  }

  predicate SameRank(a: Order, b: Order) {
    a.priority == b.priority && a.id == b.id
  }

  /** Inserting an order behind all that do not rank below it. */
  function Inserted(s: seq<Order>, x: Order): seq<Order> {
    if s == [] || Higher(x, s[0]) then [x] + s else [s[0]] + Inserted(s[1..], x)
  }

  /** The queue after pushing all orders of the input. */
  function Queued(input: seq<Order>): seq<Order> {
    if input == [] then [] else Inserted(Queued(input[..|input| - 1]), input[|input| - 1])
  }

  ghost predicate Sorted(s: seq<Order>) {
    forall i, j :: 0 <= i < j < |s| ==> !Higher(s[j], s[i])
  }

  /** The orders of one rank, in sequence. */
  function OfRank(s: seq<Order>, x: Order): seq<Order> {
    if s == [] then [] else (if SameRank(s[0], x) then [s[0]] else []) + OfRank(s[1..], x)
  }

  /** t is s sorted by rank, equal ranks in the order in which they stand in s. */
  ghost predicate StablySorted(s: seq<Order>, t: seq<Order>) {
    Sorted(t) && forall x :: OfRank(t, x) == OfRank(s, x)
  }

  lemma {:induction false} OfRankJoin(a: seq<Order>, b: seq<Order>, x: Order)
    ensures OfRank(a + b, x) == OfRank(a, x) + OfRank(b, x)
  {
    if a == [] {
      assert a + b == b;
    } else {
      assert (a + b)[1..] == a[1..] + b;
      OfRankJoin(a[1..], b, x);
    }
  }

  lemma {:induction false} InsertedElements(s: seq<Order>, x: Order)
    ensures multiset(Inserted(s, x)) == multiset(s) + multiset{x} && |Inserted(s, x)| == |s| + 1
  {
    if s != [] && !Higher(x, s[0]) {
      assert s == [s[0]] + s[1..];
      InsertedElements(s[1..], x);
    }
  }

  lemma {:induction false} InsertedSorted(s: seq<Order>, x: Order)
    requires Sorted(s)
    ensures Sorted(Inserted(s, x))
  {
    if s != [] && !Higher(x, s[0]) {
      InsertedSorted(s[1..], x);
      InsertedElements(s[1..], x);
      var t := Inserted(s[1..], x);
      forall j | 0 <= j < |t|
        ensures !Higher(t[j], s[0])
      {
        assert t[j] in multiset(t);
        assert t[j] in multiset(s[1..]) || t[j] == x;
      }
    }
  }

  lemma {:induction false} InsertedStable(s: seq<Order>, x: Order, r: Order)
    requires Sorted(s)
    ensures OfRank(Inserted(s, x), r) == OfRank(s, r) + OfRank([x], r)
  {
    if s == [] {
    } else if Higher(x, s[0]) {
      OfRankJoin([x], s, r);
      if SameRank(x, r) {
        NoneOfRank(s, r);
      }
    } else {
      InsertedStable(s[1..], x, r);
      OfRankJoin([s[0]], Inserted(s[1..], x), r);
    }
  }

  lemma {:induction false} NoneOfRank(s: seq<Order>, r: Order)
    requires forall i :: 0 <= i < |s| ==> !SameRank(s[i], r)
    ensures OfRank(s, r) == []
  {
    if s != [] {
      NoneOfRank(s[1..], r);
    }
  }

  /** Pushing all orders sorts them stably by priority and id. */
  lemma {:induction false} QueuedIsStableSort(input: seq<Order>)
    ensures StablySorted(input, Queued(input))
    ensures multiset(Queued(input)) == multiset(input) && |Queued(input)| == |input|
  {
    if input != [] {
      var n := |input| - 1;
      QueuedIsStableSort(input[..n]);
      assert input == input[..n] + [input[n]];
      InsertedSorted(Queued(input[..n]), input[n]);
      InsertedElements(Queued(input[..n]), input[n]);
      forall r
        ensures OfRank(Queued(input), r) == OfRank(input, r)
      {
        InsertedStable(Queued(input[..n]), input[n], r);
        OfRankJoin(input[..n], [input[n]], r);
      }
    }
  }

  /** The order of service: a smaller priority number comes first, among equal ones a smaller id. */
  ghost predicate NotAfter(a: Order, b: Order) {
    a.priority < b.priority || (a.priority == b.priority && a.id <= b.id)
  }

  /** t holds the orders of the input in the order of service; place tells where each stood in the input,
      and orders of equal priority and id stay in the order of the input. */
  ghost predicate InService(input: seq<Order>, t: seq<Order>, place: seq<nat>) {
    && |place| == |t| == |input|
    && (forall i :: 0 <= i < |t| ==> place[i] < |input| && t[i] == input[place[i]])
    && forall i, j :: 0 <= i < j < |t| ==>
         && place[i] != place[j] && NotAfter(t[i], t[j])
         && (t[i].priority == t[j].priority && t[i].id == t[j].id ==> place[i] < place[j])
  }

  /** An order is put behind all that come no later in the order of service, and before all others. */
  ghost predicate PutInPlace(s: seq<Order>, x: Order, k: nat, t: seq<Order>) {
    && k <= |s| && t == s[..k] + [x] + s[k..]
    && (forall i :: 0 <= i < k ==> NotAfter(s[i], x))
    && forall i :: k <= i < |s| ==> !NotAfter(s[i], x)
  }

  lemma {:induction false} InsertedInPlace(s: seq<Order>, x: Order) returns (k: nat)
    requires Sorted(s)
    ensures PutInPlace(s, x, k, Inserted(s, x))
  {
    k := 0;
    if s != [] && !Higher(x, s[0]) {
      k := InsertedInPlace(s[1..], x);
      k := k + 1;
      assert s[..k] == [s[0]] + s[1..][..k - 1] && s[k..] == s[1..][k - 1..];
      assert forall i :: 0 < i < |s| ==> s[i] == s[1..][i - 1];
    } else if s != [] {
      assert forall i :: 0 < i < |s| ==> !Higher(s[i], s[0]);
    }
  }

  /** The queue holds the orders in the order of service. */
  lemma {:induction false} QueuedInService(input: seq<Order>) returns (place: seq<nat>)
    ensures InService(input, Queued(input), place)
  {
    place := [];
    if input != [] {
      var n := |input| - 1;
      var before := QueuedInService(input[..n]);
      QueuedIsStableSort(input[..n]);
      var k := InsertedInPlace(Queued(input[..n]), input[n]);
      place := before[..k] + [n] + before[k..];
      PlacedInService(input, Queued(input[..n]), before, k, place, Queued(input));
    }
  }

  lemma PlacedInService(input: seq<Order>, s: seq<Order>, before: seq<nat>, k: nat, place: seq<nat>, t: seq<Order>)
    requires input != [] && InService(input[..|input| - 1], s, before) && PutInPlace(s, input[|input| - 1], k, t)
    requires place == before[..k] + [|input| - 1] + before[k..]
    ensures InService(input, t, place)
  {
    var n := |input| - 1;
    forall i | 0 <= i < |t|
      ensures place[i] < |input| && t[i] == input[place[i]]
      ensures i == k ==> t[i] == input[n] && place[i] == n
      ensures i < k ==> t[i] == s[i] && place[i] == before[i]
      ensures i > k ==> t[i] == s[i - 1] && place[i] == before[i - 1]
    {
    }
  }

  /** There is only one stable sorting. */
  lemma {:induction false} StableSortUnique(a: seq<Order>, b: seq<Order>)
    requires Sorted(a) && Sorted(b) && forall x :: OfRank(a, x) == OfRank(b, x)
    ensures a == b
  {
    if a == [] || b == [] {
      assert a != [] ==> OfRank(a, a[0]) != [];
      assert b != [] ==> OfRank(b, b[0]) != [];
    } else {
      HeadRank(a, b);
      HeadRank(b, a);
      assert OfRank(a, a[0]) == OfRank(b, a[0]);
      assert OfRank(a, a[0])[0] == a[0] && OfRank(b, a[0])[0] == b[0];
      forall x
        ensures OfRank(a[1..], x) == OfRank(b[1..], x)
      {
        assert OfRank(a, x) == OfRank(b, x);
        var first := if SameRank(a[0], x) then [a[0]] else [];
        assert OfRank(a, x)[|first|..] == OfRank(a[1..], x);
        assert OfRank(b, x)[|first|..] == OfRank(b[1..], x);
      }
      StableSortUnique(a[1..], b[1..]);
    }
  }

  /** The first of one sorting does not rank below the first of another with the same ranks. */
  lemma HeadRank(a: seq<Order>, b: seq<Order>)
    requires Sorted(a) && a != [] && b != [] && OfRank(a, b[0]) == OfRank(b, b[0])
    ensures !Higher(b[0], a[0])
  {
    if Higher(b[0], a[0]) {
      NoneOfRank(a, b[0]);
      assert false;
    }
  }

  class Node {
    const order: Order
    var next: Node?

    constructor (order: Order)
      ensures this.order == order && next == null
    {
      this.order := order;
      next := null;
    }
  }

  ghost function NodeAt(nodes: seq<Node>, i: nat): Node? {
    if i < |nodes| then nodes[i] else null
  }

  /** Node i points to the one behind it. */
  ghost predicate LinkedAt(nodes: seq<Node>, i: nat)
    requires i < |nodes|
    reads nodes
  {
    nodes[i].next == NodeAt(nodes, i + 1)
  }

  ghost function OrdersOf(nodes: seq<Node>): (s: seq<Order>)
    ensures |s| == |nodes|
  {
    seq(|nodes|, i requires 0 <= i < |nodes| => nodes[i].order)
  }

  ghost function Splice(nodes: seq<Node>, k: nat, n: Node): seq<Node>
    requires k <= |nodes|
  {
    nodes[..k] + [n] + nodes[k..]
  }

  lemma Spliced(nodes: seq<Node>, k: nat, n: Node)
    requires k <= |nodes|
    ensures var all := Splice(nodes, k, n);
            && |all| == |nodes| + 1 && all[k] == n
            && (forall i :: 0 <= i < k ==> all[i] == nodes[i])
            && (forall i :: k < i < |all| ==> all[i] == nodes[i - 1])
            && (forall i: nat :: i < k ==> NodeAt(all, i) == NodeAt(nodes, i))
            && (forall i: nat :: k < i ==> NodeAt(all, i) == NodeAt(nodes, i - 1))
  {
  }

  /** Setting two links splices a node into a list. */
  lemma SpliceLinked(nodes: seq<Node>, k: nat, n: Node, i: nat)
    requires k <= |nodes| && n.next == NodeAt(nodes, k) && i <= |nodes|
    requires i + 1 == k ==> nodes[i].next == n
    requires i + 1 < k ==> LinkedAt(nodes, i)
    requires i > k ==> LinkedAt(nodes, i - 1)
    ensures LinkedAt(Splice(nodes, k, n), i)
  {
    Spliced(nodes, k, n);
  }

  ghost predicate Distinct(nodes: seq<Node>) {
    forall i, j :: 0 <= i < j < |nodes| ==> nodes[i] != nodes[j]
  }

  lemma SpliceDistinct(nodes: seq<Node>, k: nat, n: Node)
    requires k <= |nodes| && n !in nodes && Distinct(nodes)
    ensures Distinct(Splice(nodes, k, n))
  {
    var all := Splice(nodes, k, n);
    forall i, j | 0 <= i < j < |all|
      ensures all[i] != all[j]
    {
      var i', j' := if i < k then i else i - 1, if j < k then j else j - 1;
      assert i != k ==> all[i] == nodes[i'];
      assert j != k ==> all[j] == nodes[j'];
    }
  }

  lemma SpliceOrders(nodes: seq<Node>, k: nat, n: Node)
    requires k <= |nodes|
    ensures OrdersOf(Splice(nodes, k, n)) == OrdersOf(nodes)[..k] + [n.order] + OrdersOf(nodes)[k..]
  {
  }

  class OrderQueue {
    var head: Node?
    var size: nat
    /** The nodes from head on. */
    ghost var spine: seq<Node>

    /** The links and the size are those of the spine. */
    ghost predicate Linked()
      reads this, spine
    {
      && size == |spine|
      && head == NodeAt(spine, 0)
      && (forall i :: 0 <= i < |spine| ==> LinkedAt(spine, i))
      && Distinct(spine)
    }

    ghost predicate Valid()
      reads this, spine
    {
      Linked() && Sorted(Contents())
    }

    /** The pending orders, next one first. */
    ghost function Contents(): (s: seq<Order>)
      reads this
    {
      OrdersOf(spine)
    }

    constructor ()
      ensures Valid() && Contents() == []
    {
      head, size, spine := null, 0, [];
    }

    /** The last node that the new order must stand behind; none when it becomes the head. */
    method ScanFor(order: Order) returns (scan: Node?, ghost k: nat)
      requires Valid()
      ensures k <= |spine| && scan == if k == 0 then null else spine[k - 1]
      ensures Inserted(Contents(), order) == Contents()[..k] + [order] + Contents()[k..]
    {
      scan, k := null, 0;
      if head != null && !Higher(order, head.order) {
        var node: Node := head;
        k := 1;
        while node.next != null && !Higher(order, node.next.order)
          invariant 1 <= k <= |spine| && node == spine[k - 1]
          invariant forall i :: 0 <= i < k ==> !Higher(order, spine[i].order)
          decreases |spine| - k
        {
          assert LinkedAt(spine, k - 1);
          node := node.next;
          k := k + 1;
        }
        scan := node;
        assert LinkedAt(spine, k - 1);
      }
      InsertedAt(Contents(), order, k);
    }

    method Push(order: Order) returns (ghost k: nat)
      requires Valid()
      modifies this, spine
      ensures Valid() && Contents() == Inserted(old(Contents()), order)
      ensures PutInPlace(old(Contents()), order, k, Contents())
      ensures forall i :: 0 <= i < |spine| ==> spine[i] in old(spine) || fresh(spine[i])
    {
      var node := new Node(order);
      var scan;
      scan, k := ScanFor(order);
      Link(node, scan, k);
      InsertedSorted(old(Contents()), order);
      k := InsertedInPlace(old(Contents()), order);
    }

    /** Puts a new node behind scan, or at the head. */
    method Link(node: Node, scan: Node?, ghost k: nat)
      requires Linked() && k <= |spine| && node !in spine
      requires scan == if k == 0 then null else spine[k - 1]
      modifies this, node`next, spine
      ensures Linked() && spine == Splice(old(spine), k, node)
      ensures Contents() == old(Contents())[..k] + [node.order] + old(Contents())[k..]
    {
      ghost var linked := spine;
      assert k > 0 ==> LinkedAt(linked, k - 1);
      if scan == null {
        node.next := head;
        head := node;
      } else {
        node.next := scan.next;
        scan.next := node;
      }
      forall i | 0 <= i < |linked| && i + 1 != k
        ensures LinkedAt(linked, i)
      {
        assert linked[i] != scan && old(LinkedAt(linked, i));
      }
      forall i | 0 <= i <= |linked|
        ensures LinkedAt(Splice(linked, k, node), i)
      {
        SpliceLinked(linked, k, node, i);
      }
      SpliceDistinct(linked, k, node);
      SpliceOrders(linked, k, node);
      Spliced(linked, k, node);
      spine := Splice(linked, k, node);
      size := size + 1;
    }

    method Pop() returns (r: Popped)
      requires Valid()
      modifies this
      ensures Valid()
      ensures match r
              case Nothing => old(Contents()) == Contents() == []
              case First(x) => old(Contents()) != [] && x == old(Contents())[0] && Contents() == old(Contents())[1..]
    {
      if head == null {
        return Nothing;
      }
      var first := head;
      ghost var before := spine;
      assert LinkedAt(spine, 0);
      head := first.next;
      size := size - 1;
      spine := spine[1..];
      assert forall i :: 0 <= i < |spine| ==> Contents()[i] == old(Contents())[i + 1];
      forall i | 0 <= i < |spine|
        ensures LinkedAt(spine, i)
      {
        assert LinkedAt(before, i + 1);
      }
      return First(first.order);
    }

    method Clear()
      requires Valid()
      modifies this
      ensures Valid() && Contents() == []
    {
      var r := Pop();
      while r.First?
        invariant Valid() && (r.Nothing? ==> Contents() == [])
        decreases size, r.First?
      {
        r := Pop();
      }
    }

    method Size() returns (n: nat)
      requires Valid()
      ensures n == |Contents()|
    {
      n := size;
    }
  }

  datatype Popped = Nothing | First(order: Order)

  /** Where the scan stops is where the order belongs. */
  lemma {:induction false} InsertedAt(s: seq<Order>, x: Order, k: nat)
    requires k <= |s| && (forall i :: 0 <= i < k ==> !Higher(x, s[i])) && (k < |s| ==> Higher(x, s[k]))
    ensures Inserted(s, x) == s[..k] + [x] + s[k..]
  {
    if k > 0 {
      InsertedAt(s[1..], x, k - 1);
      assert s[..k] == [s[0]] + s[1..][..k - 1] && s[k..] == s[1..][k - 1..];
    }
  }
}
