/**
 * The kitchen display: the header statistics over the fetched orders, the one action
 * button each order card offers, the active and completed columns, and the rule that a
 * status change is relayed to the hub only after the order API accepted it.
 */
module Kitchen {

  import opened Wrappers
  import opened Domain
  import opened Sorting
  import opened Hub

  /** The five header figures. */
  datatype Stats = Stats(
    totalOrders: nat,
    waitingOrders: nat,
    preparingOrders: nat,
    completedOrders: nat,
    totalRevenue: int)

  /**
   * The statistics of `fetchOrders`: the number of orders, exact-status counts for
   * `WAITING`, `PREPARING` and `COMPLETED`, and the revenue of the completed orders.
   */
  function StatsOf(orders: seq<Order>): (s: Stats)
    ensures s.totalOrders == |orders|
    ensures s.waitingOrders <= s.totalOrders && s.preparingOrders <= s.totalOrders && s.completedOrders <= s.totalOrders
    ensures s.completedOrders == |WithStatus(orders, Completed)|
    ensures s.totalRevenue == SumAmounts(WithStatus(orders, Completed))
  {
    Stats(|orders|, |WithStatus(orders, Waiting)|, |WithStatus(orders, Preparing)|,
          |WithStatus(orders, Completed)|, SumAmounts(WithStatus(orders, Completed)))
  }

  /** The number of orders with a given status, counted one by one. */
  function CountOf(orders: seq<Order>, status: string): (r: nat)
    ensures r <= |orders|
  {
    if orders == [] then 0
    else CountOf(orders[..|orders| - 1], status) + (if orders[|orders| - 1].status == status then 1 else 0)
  }

  /** The revenue of the completed orders, added up one by one over the whole list. */
  function CompletedRevenue(orders: seq<Order>): int
  {
    if orders == [] then 0
    else
      var last := orders[|orders| - 1];
      CompletedRevenue(orders[..|orders| - 1]) + (if last.status == Completed then last.totalAmount else 0)
  }

  /**
   * The filter-then-count and filter-then-sum of the page agree with counting and summing
   * over the whole list: each count is the number of exact matches, and the revenue adds
   * the completed orders' amounts and nothing else.
   */
  lemma {:induction false} StatsCountExactMatches(orders: seq<Order>)
    ensures StatsOf(orders).waitingOrders == CountOf(orders, Waiting)
    ensures StatsOf(orders).preparingOrders == CountOf(orders, Preparing)
    ensures StatsOf(orders).completedOrders == CountOf(orders, Completed)
    ensures StatsOf(orders).totalRevenue == CompletedRevenue(orders)
  {
    if orders != [] {
      var init := orders[..|orders| - 1];
      StatsCountExactMatches(init);
      var last := orders[|orders| - 1];
      var done := WithStatus(init, Completed);
      assert WithStatus(orders, Completed) == done + (if last.status == Completed then [last] else []);
      if last.status == Completed {
        assert SumAmounts(done + [last]) == SumAmounts(done) + last.totalAmount by {
          assert (done + [last])[..|done + [last]| - 1] == done;
        }
      } else {
        assert done + [] == done;
      }
    }
  }

  /**
   * The three counts never exceed the total: a list's waiting, preparing and completed
   * orders are different orders, and `CONFIRMED`/`READY` ones are counted in none of them.
   */
  lemma {:induction false} ThreeCountsBounded(orders: seq<Order>)
    ensures CountOf(orders, Waiting) + CountOf(orders, Preparing) + CountOf(orders, Completed) <= |orders|
    ensures var s := StatsOf(orders); s.waitingOrders + s.preparingOrders + s.completedOrders <= s.totalOrders
  {
    if orders != [] {
      ThreeCountsBounded(orders[..|orders| - 1]);
    }
    StatsCountExactMatches(orders);
  }

  /**
   * The status the action button of an order card moves it to: one step forward along
   * `WAITING`, `CONFIRMED`, `PREPARING`, `READY`, `COMPLETED`; no button after that or for
   * a status outside the progression.
   */
  function NextStatus(status: string): (r: Option<string>)
    ensures r.Some? ==> r.value in Progression
    ensures status == Completed || status !in Progression ==> r.None?
  {
    if status == Waiting then Some(Confirmed)
    else if status == Confirmed then Some(Preparing)
    else if status == Preparing then Some(Ready)
    else if status == Ready then Some(Completed)
    else None
  }

  /** The button moves exactly one position along the progression, in both directions of the iff. */
  lemma NextStatusIsOneStep(s: string, t: string)
    ensures NextStatus(s) == Some(t) <==> exists i | 0 <= i < |Progression| - 1 :: Progression[i] == s && Progression[i + 1] == t
  {
    if NextStatus(s) == Some(t) {
      var i := if s == Waiting then 0 else if s == Confirmed then 1 else if s == Preparing then 2 else 3;
      assert Progression[i] == s && Progression[i + 1] == t;
    }
  }

  /** Pressing the button from `WAITING` four times reaches `COMPLETED`, which offers none. */
  lemma ButtonsWalkToCompleted()
    ensures NextStatus(Waiting) == Some(Confirmed) && NextStatus(Confirmed) == Some(Preparing)
    ensures NextStatus(Preparing) == Some(Ready) && NextStatus(Ready) == Some(Completed)
    ensures NextStatus(Completed) == None
  {
  }

  /** The statuses shown in the active column. */
  const ActiveStatuses: seq<string> := [Waiting, Confirmed, Preparing, Ready]

  /** A status of the progression is either active or `COMPLETED`, never both. */
  lemma ProgressionSplit(s: string)
    requires s in Progression
    ensures s in ActiveStatuses <==> s != Completed
  {
  }

  /** The orders whose status is active, in list order. */
  function Active(orders: seq<Order>): (r: seq<Order>)
    ensures forall o | o in r :: o in orders && o.status in ActiveStatuses
    ensures forall o | o in orders && o.status in ActiveStatuses :: o in r
  {
    if orders == [] then []
    else
      var last := orders[|orders| - 1];
      assert orders == orders[..|orders| - 1] + [last];
      Active(orders[..|orders| - 1]) + (if last.status in ActiveStatuses then [last] else [])
  }

  /**
   * The active column keeps the list's order and multiplicity, whatever the statuses: the
   * active orders of a concatenation are those of each part, one after the other.
   */
  lemma {:induction false} ActiveAppend(a: seq<Order>, b: seq<Order>)
    ensures Active(a + b) == Active(a) + Active(b)
    decreases |b|
  {
    if b == [] {
      assert a + b == a;
    } else {
      var init := b[..|b| - 1];
      var last := b[|b| - 1];
      var tail := if last.status in ActiveStatuses then [last] else [];
      assert (a + b)[..|a + b| - 1] == a + init;
      assert (a + b)[|a + b| - 1] == last;
      assert Active(a + b) == Active(a + init) + tail;
      assert Active(b) == Active(init) + tail;
      ActiveAppend(a, init);
    }
  }

  /** A single order is listed exactly when its status is active. */
  lemma ActiveSingle(o: Order)
    ensures Active([o]) == if o.status in ActiveStatuses then [o] else []
  {
    assert [o][..0] == [];
  }

  function CreatedMillis(o: Order): int
  {
    o.createdAt.millis
  }

  /** `activeOrders`: the active orders, oldest first. */
  function ActiveOrders(orders: seq<Order>): (r: seq<Order>)
    ensures multiset(r) == multiset(Active(orders))
    ensures forall o | o in r :: o in orders && o.status in ActiveStatuses
    ensures forall o | o in orders && o.status in ActiveStatuses :: o in r
    ensures SortedBy(r, CreatedMillis)
  {
    var r := SortBy(Active(orders), CreatedMillis);
    assert forall o :: o in r <==> o in multiset(Active(orders));
    r
  }

  /** `completedOrders`: the completed orders, in list order. */
  function CompletedOrders(orders: seq<Order>): (r: seq<Order>)
    ensures forall o | o in r :: o in orders && o.status == Completed
    ensures forall o | o in orders && o.status == Completed :: o in r
  {
    WithStatus(orders, Completed)
  }

  /**
   * The completed column keeps the list's order and multiplicity: the completed orders of
   * a concatenation are those of each part, one after the other, and a single order is
   * listed exactly when it is COMPLETED.
   */
  lemma CompletedOrdersAppend(a: seq<Order>, b: seq<Order>)
    ensures CompletedOrders(a + b) == CompletedOrders(a) + CompletedOrders(b)
    ensures forall o :: CompletedOrders([o]) == if o.status == Completed then [o] else []
  {
    WithStatusAppend(a, b, Completed);
    forall o ensures CompletedOrders([o]) == if o.status == Completed then [o] else [] {
      WithStatusSingle(o, Completed);
    }
  }

  /** The history panel: the first ten completed orders. */
  function History(orders: seq<Order>): (r: seq<Order>)
    ensures |r| == if |CompletedOrders(orders)| <= 10 then |CompletedOrders(orders)| else 10
    ensures r <= CompletedOrders(orders)
    ensures |CompletedOrders(orders)| <= 10 ==> r == CompletedOrders(orders)
  {
    var done := CompletedOrders(orders);
    if |done| <= 10 then done else done[..10]
  }

  /**
   * When every order has one of the five statuses, the two columns split the list: no
   * order is in both, and together they hold every order exactly as often as the list.
   */
  lemma ColumnsPartitionOrders(orders: seq<Order>)
    requires forall o | o in orders :: o.status in Progression
    ensures forall o | o in ActiveOrders(orders) :: o !in CompletedOrders(orders)
    ensures multiset(ActiveOrders(orders)) + multiset(CompletedOrders(orders)) == multiset(orders)
  {
    ActiveAndCompleted(orders);
  }

  lemma {:induction false} ActiveAndCompleted(orders: seq<Order>)
    requires forall o | o in orders :: o.status in Progression
    ensures multiset(Active(orders)) + multiset(WithStatus(orders, Completed)) == multiset(orders)
  {
    if orders != [] {
      var init := orders[..|orders| - 1];
      var last := orders[|orders| - 1];
      forall o | o in init ensures o.status in Progression {
        assert o in orders;
      }
      ActiveAndCompleted(init);
      assert last in orders;
      LastSplits(orders);
      LastOfMultiset(orders);
    }
  }

  /** The last order lands in exactly one of the two filters, and nothing else changes. */
  lemma LastSplits(orders: seq<Order>)
    requires orders != [] && orders[|orders| - 1].status in Progression
    ensures multiset(Active(orders)) + multiset(WithStatus(orders, Completed))
         == multiset(Active(orders[..|orders| - 1])) + multiset(WithStatus(orders[..|orders| - 1], Completed))
            + multiset{orders[|orders| - 1]}
  {
    var init := orders[..|orders| - 1];
    var last := orders[|orders| - 1];
    var a := if last.status in ActiveStatuses then [last] else [];
    var d := if last.status == Completed then [last] else [];
    assert Active(orders) == Active(init) + a;
    assert WithStatus(orders, Completed) == WithStatus(init, Completed) + d;
    assert multiset(Active(orders)) == multiset(Active(init)) + multiset(a);
    assert multiset(WithStatus(orders, Completed)) == multiset(WithStatus(init, Completed)) + multiset(d);
    ProgressionSplit(last.status);
    if last.status == Completed {
      assert a == [] && d == [last];
    } else {
      assert a == [last] && d == [];
    }
    InExactlyOne(last, a, d);
    Regroup(multiset(Active(init)), multiset(a), multiset(WithStatus(init, Completed)), multiset(d), multiset{last});
  }

  lemma Regroup(x: multiset<Order>, a: multiset<Order>, y: multiset<Order>, d: multiset<Order>, o: multiset<Order>)
    requires a + d == o
    ensures (x + a) + (y + d) == (x + y) + o
  {
  }

  lemma LastOfMultiset(orders: seq<Order>)
    requires orders != []
    ensures multiset(orders) == multiset(orders[..|orders| - 1]) + multiset{orders[|orders| - 1]}
  {
    assert orders == orders[..|orders| - 1] + [orders[|orders| - 1]];
  }

  lemma InExactlyOne(o: Order, a: seq<Order>, d: seq<Order>)
    requires (a == [] && d == [o]) || (a == [o] && d == [])
    ensures multiset(a) + multiset(d) == multiset{o}
  {
  }

  /**
   * `updateOrderStatus`: the relay sent after a status change. The change itself is a
   * `PATCH` whose answer is the updated order, or nothing when it failed; only a success
   * is relayed, with the requested status and the queue number from the answer.
   */
  function StatusRelay(orderId: string, newStatus: string, patched: Option<Order>): (r: Option<StatusUpdate>)
    ensures r.Some? <==> patched.Some?
    ensures r.Some? ==> r.value.orderId == orderId && r.value.status == newStatus
                        && r.value.queueNumber == patched.value.queueNumber
  {
    match patched
    case Some(order) => Some(StatusUpdate(orderId, newStatus, order.queueNumber))
    case None => None
  }

  /**
   * The kitchen screen `c` changes a status: after a successful change the hub routes the
   * relay to the order's customer room and to the kitchen; after a failed one nothing is
   * sent at all.
   */
  method UpdateOrderStatus(io: Server, c: ConnId, orderId: string, newStatus: string, patched: Option<Order>)
    requires io.Valid() && c in io.connections
    modifies io
    ensures io.Valid() && io.rooms == old(io.rooms) && io.connections == old(io.connections)
    ensures patched.None? ==> io.outbox == old(io.outbox)
    ensures patched.Some? ==>
      io.outbox == old(io.outbox) + Deliver(io.rooms, StatusRoutes(StatusUpdate(orderId, newStatus, patched.value.queueNumber)))
  {
    var relay := StatusRelay(orderId, newStatus, patched);
    if relay.Some? {
      io.OrderStatusUpdate(c, relay.value);
    }
  }
}
