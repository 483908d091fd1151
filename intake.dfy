/**
 * The order API: `POST` validates a submitted order, fills in the initial status and
 * payment defaults, maps the line items, stores the order and tells the kitchen; `GET`
 * turns its `filter` query value into a lower bound on the creation time. The database
 * is a parameter: a function from the data handed to `create` to the stored order, or
 * to nothing when `create` throws.
 */
module OrderApi {

  import opened Wrappers
  import opened Domain
  import opened Hub
  import opened HttpServer

  const MissingFields: string := "Missing required fields"
  const CreateFailed: string := "Failed to create order"
  const FetchFailed: string := "Failed to fetch orders"

  /** A JSON response: the value with status 200, or an error message with its status. */
  datatype Response<T> = Ok(value: T) | Failure(status: nat, error: string)

  /** One line item as the client sends it. */
  datatype ItemInput = ItemInput(menuItemId: string, quantity: int, price: int, notes: Option<string>)

  /** The fields `POST` reads from the request body; an absent field is `None`. */
  datatype PostBody = PostBody(
    queueNumber: Option<string>,
    customerName: Option<string>,
    items: Option<seq<ItemInput>>,
    totalAmount: Option<int>,
    paymentMethod: Option<string>)

  /** One nested `orderItems.create` entry. */
  datatype ItemData = ItemData(menuItemId: string, quantity: int, price: int, notes: Option<string>)

  /** The `data` handed to `db.order.create`. */
  datatype OrderData = OrderData(
    queueNumber: string,
    customerName: string,
    totalAmount: int,
    status: string,
    paymentMethod: string,
    paymentStatus: string,
    items: seq<ItemData>)

  /** JavaScript truthiness of an optional string: present and not empty. */
  predicate TruthyText(s: Option<string>)
  {
    s.Some? && s.value != ""
  }

  /** JavaScript truthiness of an optional number: present and not zero. */
  predicate TruthyAmount(n: Option<int>)
  {
    n.Some? && n.value != 0
  }

  /** The required-field check: the body is refused when this does not hold. */
  predicate Accepts(b: PostBody)
  {
    !(!TruthyText(b.queueNumber) || !TruthyText(b.customerName) || b.items.None?
      || |b.items.value| == 0 || !TruthyAmount(b.totalAmount))
  }

  /** `paymentMethod || 'CASH'`. */
  function MethodOrCash(m: Option<string>): (r: string)
    ensures TruthyText(m) ==> r == m.value
    ensures !TruthyText(m) ==> r == Cash
    ensures r != ""
  {
    if TruthyText(m) then m.value else Cash
  }

  /** `items.map(...)`: each input line becomes one create entry with the same four fields. */
  function ItemsData(items: seq<ItemInput>): (r: seq<ItemData>)
    ensures |r| == |items|
    ensures forall i | 0 <= i < |items| ::
      r[i].menuItemId == items[i].menuItemId && r[i].quantity == items[i].quantity
      && r[i].price == items[i].price && r[i].notes == items[i].notes
  {
    if items == [] then []
    else
      var last := items[|items| - 1];
      ItemsData(items[..|items| - 1]) + [ItemData(last.menuItemId, last.quantity, last.price, last.notes)]
  }

  /**
   * The data a valid body is stored as: its queue number, name and total as given, status
   * `WAITING`, payment status `PENDING`, the payment method or `CASH`, and its items.
   */
  function Build(b: PostBody): (d: OrderData)
    requires Accepts(b)
    ensures d.queueNumber == b.queueNumber.value && d.customerName == b.customerName.value
    ensures d.totalAmount == b.totalAmount.value && d.totalAmount != 0
    ensures d.status == Waiting && d.paymentStatus == Pending
    ensures d.paymentMethod == MethodOrCash(b.paymentMethod)
    ensures d.items == ItemsData(b.items.value) && |d.items| == |b.items.value| > 0
  {
    OrderData(b.queueNumber.value, b.customerName.value, b.totalAmount.value,
              Waiting, MethodOrCash(b.paymentMethod), Pending, ItemsData(b.items.value))
  }

  /**
   * The response to a `POST`: `None` for the body is a body that does not parse, and the
   * database answers `None` when `create` throws; both land in the 500 handler.
   */
  function Respond(body: Option<PostBody>, db: OrderData -> Option<Order>): (r: Response<Order>)
    ensures r.Ok? ==> body.Some? && Accepts(body.value) && db(Build(body.value)) == Some(r.value)
    ensures r.Failure? ==> r.status in {400, 500}
    ensures r.Failure? && r.status == 400 <==> body.Some? && !Accepts(body.value)
    ensures r.Failure? && r.status == 500 ==> r.error == CreateFailed
    ensures r.Failure? && r.status == 400 ==> r.error == MissingFields
  {
    if body.None? then Failure(500, CreateFailed)
    else if !Accepts(body.value) then Failure(400, MissingFields)
    else
      match db(Build(body.value))
      case Some(order) => Ok(order)
      case None => Failure(500, CreateFailed)
  }

  /**
   * A body missing any one required field, or carrying a falsy one (an empty queue number
   * or name, no items, a total of 0), is answered 400 without touching the database.
   */
  lemma FalsyFieldsRejected(b: PostBody, db: OrderData -> Option<Order>)
    requires !TruthyText(b.queueNumber) || !TruthyText(b.customerName)
          || b.items.None? || b.items == Some([]) || b.totalAmount == Some(0) || b.totalAmount.None?
    ensures Respond(Some(b), db) == Failure(400, MissingFields)
  {
  }

  /**
   * Every body with all five checks passed reaches the database, and whatever it stores
   * starts out `WAITING` and `PENDING` with one entry per submitted line.
   */
  lemma CompleteBodyStored(b: PostBody, db: OrderData -> Option<Order>)
    requires TruthyText(b.queueNumber) && TruthyText(b.customerName)
    requires b.items.Some? && b.items.value != [] && TruthyAmount(b.totalAmount)
    ensures Accepts(b)
    ensures Respond(Some(b), db) == (if db(Build(b)).Some? then Ok(db(Build(b)).value) else Failure(500, CreateFailed))
    ensures Build(b).status == Waiting && Build(b).paymentStatus == Pending
    ensures |Build(b).items| == |b.items.value|
  {
  }

  /**
   * The `POST` handler: answer as `Respond` does and, only when an order was created and
   * the global hub handle is set, publish it to the kitchen as `order-received`. Whether
   * the handle is set changes nothing in the response.
   */
  method Post(body: Option<PostBody>, db: OrderData -> Option<Order>, process: Runtime) returns (resp: Response<Order>)
    requires process.globalIO != null ==> process.globalIO.Valid()
    modifies process.globalIO
    ensures resp == Respond(body, db)
    ensures process.globalIO == old(process.globalIO)
    ensures process.globalIO != null ==>
      process.globalIO.Valid()
      && process.globalIO.rooms == old(process.globalIO.rooms)
      && process.globalIO.connections == old(process.globalIO.connections)
      && process.globalIO.outbox == old(process.globalIO.outbox)
           + (if resp.Ok? then Deliver(old(process.globalIO.rooms), NewOrderRoutes(resp.value)) else [])
  {
    resp := Respond(body, db);
    if resp.Ok? {
      var io := process.GetGlobalIO();
      if io != null {
        io.PublishAll(NewOrderRoutes(resp.value));
      }
    }
  }

  /** The three lower bounds `GET` can put on `createdAt`. */
  datatype Bound = StartOfToday | SevenDaysAgo | OneMonthAgo

  /** The `where` clause of the query: no condition, or `createdAt >= bound`. */
  datatype Where = Everything | CreatedSince(bound: Bound)

  /** `searchParams.get('filter') || 'all'`. */
  function FilterValue(param: Option<string>): (f: string)
    ensures f != ""
    ensures TruthyText(param) ==> f == param.value
  {
    if TruthyText(param) then param.value else "all"
  }

  /** The clause the if-chain leaves in `whereClause` for a filter value. */
  function WhereFor(filter: string): (w: Where)
    ensures w.CreatedSince? <==> filter in {"today", "week", "month"}
    ensures w == CreatedSince(StartOfToday) <==> filter == "today"
    ensures w == CreatedSince(SevenDaysAgo) <==> filter == "week"
    ensures w == CreatedSince(OneMonthAgo) <==> filter == "month"
  {
    if filter == "today" then CreatedSince(StartOfToday)
    else if filter == "week" then CreatedSince(SevenDaysAgo)
    else if filter == "month" then CreatedSince(OneMonthAgo)
    else Everything
  }

  /** The instants the three bounds stand for at the time of the request. */
  datatype Instants = Instants(startOfToday: int, sevenDaysAgo: int, oneMonthAgo: int)

  /** Whether an order satisfies a clause. */
  predicate Admits(w: Where, at: Instants, o: Order)
  {
    match w
    case Everything => true
    case CreatedSince(StartOfToday) => o.createdAt.millis >= at.startOfToday
    case CreatedSince(SevenDaysAgo) => o.createdAt.millis >= at.sevenDaysAgo
    case CreatedSince(OneMonthAgo) => o.createdAt.millis >= at.oneMonthAgo
  }

  /**
   * A missing or empty filter means `all`, and every value other than `today`, `week`
   * and `month` (`all` included) admits every order.
   */
  lemma UnknownFilterAdmitsAll(param: Option<string>, at: Instants, o: Order)
    requires FilterValue(param) !in {"today", "week", "month"}
    ensures WhereFor(FilterValue(param)) == Everything
    ensures Admits(WhereFor(FilterValue(param)), at, o)
  {
  }

  /** A missing filter query value selects every order. */
  lemma DefaultFilterIsAll(at: Instants, o: Order)
    ensures FilterValue(None) == "all" && WhereFor(FilterValue(None)) == Everything
    ensures Admits(WhereFor(FilterValue(None)), at, o)
  {
  }

  /**
   * The `GET` handler: start from no condition, let the if-chain replace it, and answer
   * with the database's result for that clause (which it orders newest first), or 500
   * when the query throws.
   */
  method Get(param: Option<string>, fetch: Where -> Option<seq<Order>>) returns (resp: Response<seq<Order>>)
    ensures resp.Ok? <==> fetch(WhereFor(FilterValue(param))).Some?
    ensures resp.Ok? ==> resp.value == fetch(WhereFor(FilterValue(param))).value
    ensures resp.Failure? ==> resp.status == 500 && resp.error == FetchFailed
  {
    var filter := if TruthyText(param) then param.value else "all";
    var whereClause := Everything;
    if filter == "today" {
      whereClause := CreatedSince(StartOfToday);
    } else if filter == "week" {
      whereClause := CreatedSince(SevenDaysAgo);
    } else if filter == "month" {
      whereClause := CreatedSince(OneMonthAgo);
    }
    match fetch(whereClause)
    case Some(orders) => resp := Ok(orders);
    case None => resp := Failure(500, FetchFailed);
  }
}
