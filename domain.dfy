/**
 * The order record the pages and routes exchange (the `Order` interface of the kitchen
 * and report pages, which the customer page shares minus its items), the fixed status
 * and payment vocabularies, and the two list operations every page repeats on it.
 */
module Domain {

  import opened Wrappers

  const Waiting: string := "WAITING"
  const Confirmed: string := "CONFIRMED"
  const Preparing: string := "PREPARING"
  const Ready: string := "READY"
  const Completed: string := "COMPLETED"

  const Cash: string := "CASH"
  const Qris: string := "QRIS"
  const Pending: string := "PENDING"

  /** The statuses in their forward order; nothing follows `COMPLETED`. */
  const Progression: seq<string> := [Waiting, Confirmed, Preparing, Ready, Completed]

  /**
   * The three things the pages read from `new Date(order.createdAt)`: `getTime()`,
   * `getHours()` in local time, and `toLocaleString('id-ID')`.
   */
  datatype Timestamp = Timestamp(millis: int, hour: nat, localText: string)

  /** One line of an order, with the category of the menu item it refers to. */
  datatype OrderItem = OrderItem(
    id: string,
    menuItemId: string,
    quantity: int,
    price: int,
    notes: Option<string>,
    category: string)

  /** An order as the order API returns it; amounts are whole rupiah. */
  datatype Order = Order(
    id: string,
    queueNumber: string,
    customerName: Option<string>,
    totalAmount: int,
    status: string,
    paymentMethod: Option<string>,
    paymentStatus: string,
    createdAt: Timestamp,
    items: seq<OrderItem>)

  /** `orders.filter(o => o.status === status)`. */
  function WithStatus(orders: seq<Order>, status: string): (r: seq<Order>)
    ensures |r| <= |orders|
    ensures forall o | o in r :: o in orders && o.status == status
    ensures forall o | o in orders && o.status == status :: o in r
    ensures multiset(r) <= multiset(orders)
  {
    if orders == [] then []
    else
      var last := orders[|orders| - 1];
      assert orders == orders[..|orders| - 1] + [last];
      WithStatus(orders[..|orders| - 1], status) + (if last.status == status then [last] else [])
  }

  /**
   * The filter keeps list order and multiplicity: filtering a concatenation filters each
   * part. With `WithStatusSingle` this fixes `WithStatus` on every list.
   */
  lemma {:induction false} WithStatusAppend(a: seq<Order>, b: seq<Order>, status: string)
    ensures WithStatus(a + b, status) == WithStatus(a, status) + WithStatus(b, status)
    decreases |b|
  {
    if b == [] {
      assert a + b == a;
    } else {
      var init := b[..|b| - 1];
      var last := b[|b| - 1];
      var tail := if last.status == status then [last] else [];
      assert (a + b)[..|a + b| - 1] == a + init;
      assert (a + b)[|a + b| - 1] == last;
      assert WithStatus(a + b, status) == WithStatus(a + init, status) + tail;
      assert WithStatus(b, status) == WithStatus(init, status) + tail;
      WithStatusAppend(a, init, status);
    }
  }

  /** A single order is kept exactly when its status matches. */
  lemma WithStatusSingle(o: Order, status: string)
    ensures WithStatus([o], status) == if o.status == status then [o] else []
  {
    assert [o][..0] == [];
  }

  /** `orders.reduce((sum, o) => sum + o.totalAmount, 0)`. */
  function SumAmounts(orders: seq<Order>): int
  {
    if orders == [] then 0 else SumAmounts(orders[..|orders| - 1]) + orders[|orders| - 1].totalAmount
  }
}
