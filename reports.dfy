/**
 * The sales report: statistics over the completed orders among those fetched (count,
 * revenue, average, distinct customers, payment-method counts, sales per category and
 * per hour), the five busiest hours, and the CSV export of every fetched order.
 *
 * The per-category and per-hour objects are association lists in key insertion order,
 * the order `Object.entries` lists them in for these keys.
 */
module Reports {

  import opened Wrappers
  import opened Text
  import opened Decimal
  import opened Domain
  import opened Sorting

  /** One key of a `Record<string, number>` and its amount. */
  datatype Entry = Entry(key: string, amount: int)

  type Tally = seq<Entry>

  function Keys(t: Tally): (r: seq<string>)
    ensures |r| == |t| && forall i | 0 <= i < |t| :: r[i] == t[i].key
  {
    seq(|t|, i requires 0 <= i < |t| => t[i].key)
  }

  predicate DistinctKeys(t: Tally)
  {
    forall i, j | 0 <= i < j < |t| :: t[i].key != t[j].key
  }

  /** `record[key] || 0`: the amount under `key`, 0 when the key is absent. */
  function Amount(t: Tally, key: string): int
  {
    if t == [] then 0 else if t[0].key == key then t[0].amount else Amount(t[1..], key)
  }

  /** The sum of all amounts of the record. */
  function TallyTotal(t: Tally): int
  {
    if t == [] then 0 else t[0].amount + TallyTotal(t[1..])
  }

  /**
   * `record[key] = (record[key] || 0) + amount`: the amount under `key` grows by `amount`,
   * every other key keeps its amount, and a new key goes to the end.
   */
  function Bump(t: Tally, key: string, amount: int): (r: Tally)
    ensures forall k :: Amount(r, k) == Amount(t, k) + (if k == key then amount else 0)
    ensures TallyTotal(r) == TallyTotal(t) + amount
  {
    if t == [] then [Entry(key, amount)]
    else if t[0].key == key then
      var r := [Entry(key, t[0].amount + amount)] + t[1..];
      assert r[1..] == t[1..];
      r
    else
      var rest := Bump(t[1..], key, amount);
      var r := [t[0]] + rest;
      assert r[1..] == rest;
      r
  }

  /** Bumping keeps the keys, adding `key` at the end when it is new; so keys stay distinct. */
  lemma BumpKeys(t: Tally, key: string, amount: int)
    ensures Keys(Bump(t, key, amount)) == if key in Keys(t) then Keys(t) else Keys(t) + [key]
    ensures DistinctKeys(t) ==> DistinctKeys(Bump(t, key, amount))
  {
    BumpKeyOrder(t, key, amount);
    if DistinctKeys(t) {
      var r := Bump(t, key, amount);
      var kt := Keys(t);
      var kr := Keys(r);
      forall i, j | 0 <= i < j < |r| ensures r[i].key != r[j].key {
        assert r[i].key == kr[i] && r[j].key == kr[j];
        if j < |t| {
          assert kr[i] == t[i].key && kr[j] == t[j].key;
        } else {
          assert kr[i] == kt[i] && kr[j] == key && key !in kt;
        }
      }
    }
  }

  lemma {:induction false} BumpKeyOrder(t: Tally, key: string, amount: int)
    ensures Keys(Bump(t, key, amount)) == if key in Keys(t) then Keys(t) else Keys(t) + [key]
  {
    if t != [] {
      var r := Bump(t, key, amount);
      KeysCons(t);
      KeysCons(r);
      if t[0].key == key {
        assert r[1..] == t[1..];
      } else {
        BumpKeyOrder(t[1..], key, amount);
        assert r[1..] == Bump(t[1..], key, amount);
      }
    }
  }

  lemma KeysCons(t: Tally)
    requires t != []
    ensures Keys(t) == [t[0].key] + Keys(t[1..])
  {
  }

  /** The amount of one order line. */
  function LineAmount(item: OrderItem): int
  {
    item.price * item.quantity
  }

  /** The inner `forEach`: one order's lines added to the record by category. */
  function ItemsTally(t: Tally, items: seq<OrderItem>): (r: Tally)
    ensures DistinctKeys(t) ==> DistinctKeys(r)
  {
    if items == [] then t
    else
      var last := items[|items| - 1];
      var before := ItemsTally(t, items[..|items| - 1]);
      BumpKeys(before, last.category, LineAmount(last));
      Bump(before, last.category, LineAmount(last))
  }

  /** `categorySales`: the lines of the orders, order by order, summed per category. */
  function CategoryTally(orders: seq<Order>): (r: Tally)
    ensures DistinctKeys(r)
  {
    if orders == [] then []
    else ItemsTally(CategoryTally(orders[..|orders| - 1]), orders[|orders| - 1].items)
  }

  /** The key of an hour: `` `${hour}:00` ``. */
  function HourKey(hour: nat): string
  {
    NatToString(hour) + ":00"
  }

  /** Different hours get different keys. */
  lemma HourKeyInjective(h1: nat, h2: nat)
    requires HourKey(h1) == HourKey(h2)
    ensures h1 == h2
  {
    var s1 := NatToString(h1);
    var s2 := NatToString(h2);
    assert s1 == HourKey(h1)[..|s1|];
    assert s2 == HourKey(h2)[..|s2|];
    ValueOfNatToString(h1);
    ValueOfNatToString(h2);
  }

  /** `hourlySales`: the order amounts summed per hour of creation. */
  function HourlyTally(orders: seq<Order>): (r: Tally)
    ensures DistinctKeys(r)
  {
    if orders == [] then []
    else
      var last := orders[|orders| - 1];
      var before := HourlyTally(orders[..|orders| - 1]);
      BumpKeys(before, HourKey(last.createdAt.hour), last.totalAmount);
      Bump(before, HourKey(last.createdAt.hour), last.totalAmount)
  }

  /** The distinct `customerName` values, a missing name being one value of its own. */
  function Customers(orders: seq<Order>): set<Option<string>>
  {
    set i | 0 <= i < |orders| :: orders[i].customerName
  }

  /** How many orders name payment method `m` (a present, non-empty method that equals it). */
  function MethodCount(orders: seq<Order>, m: string): (r: nat)
    ensures r <= |orders|
  {
    if orders == [] then 0
    else
      var last := orders[|orders| - 1];
      MethodCount(orders[..|orders| - 1], m)
        + (if last.paymentMethod.Some? && last.paymentMethod.value != "" && last.paymentMethod.value == m then 1 else 0)
  }

  /** `totalOrders > 0 ? totalRevenue / totalOrders : 0`, as an exact quotient. */
  function Average(revenue: int, count: nat): (r: real)
    ensures count == 0 ==> r == 0.0
    ensures count > 0 ==> r * count as real == revenue as real
  {
    if count > 0 then revenue as real / count as real else 0.0
  }

  /** The figures `calculateStats` stores. */
  datatype SalesStats = SalesStats(
    totalOrders: nat,
    totalRevenue: int,
    averageOrderValue: real,
    totalCustomers: nat,
    cash: nat,
    qris: nat,
    categorySales: Tally,
    hourlySales: Tally)

  /** The statistics of a fetched list: every figure is taken over its completed orders. */
  function StatsOf(orders: seq<Order>): SalesStats
  {
    var done := WithStatus(orders, Completed);
    SalesStats(|done|, SumAmounts(done), Average(SumAmounts(done), |done|), |Customers(done)|,
               MethodCount(done, Cash), MethodCount(done, Qris), CategoryTally(done), HourlyTally(done))
  }

  /** The `paymentMethods` reduce: a counter per method, bumped for each order naming it. */
  method CountMethods(done: seq<Order>) returns (cash: nat, qris: nat)
    ensures cash == MethodCount(done, Cash) && qris == MethodCount(done, Qris)
  {
    cash, qris := 0, 0;
    for i := 0 to |done|
      invariant cash == MethodCount(done[..i], Cash) && qris == MethodCount(done[..i], Qris)
    {
      assert done[..i + 1][..i] == done[..i];
      var m := done[i].paymentMethod;
      if m.Some? && m.value != "" {
        if m.value == Cash {
          cash := cash + 1;
        } else if m.value == Qris {
          qris := qris + 1;
        }
      }
    }
    assert done[..|done|] == done;
  }

  /** The nested `forEach` filling `categorySales`. */
  method SumByCategory(done: seq<Order>) returns (categorySales: Tally)
    ensures categorySales == CategoryTally(done)
  {
    categorySales := [];
    for i := 0 to |done|
      invariant categorySales == CategoryTally(done[..i])
    {
      assert done[..i + 1][..i] == done[..i];
      var items := done[i].items;
      for j := 0 to |items|
        invariant categorySales == ItemsTally(CategoryTally(done[..i]), items[..j])
      {
        assert items[..j + 1][..j] == items[..j];
        categorySales := Bump(categorySales, items[j].category, LineAmount(items[j]));
      }
      assert items[..|items|] == items;
    }
    assert done[..|done|] == done;
  }

  /** The `forEach` filling `hourlySales`. */
  method SumByHour(done: seq<Order>) returns (hourlySales: Tally)
    ensures hourlySales == HourlyTally(done)
  {
    hourlySales := [];
    for i := 0 to |done|
      invariant hourlySales == HourlyTally(done[..i])
    {
      assert done[..i + 1][..i] == done[..i];
      hourlySales := Bump(hourlySales, HourKey(done[i].createdAt.hour), done[i].totalAmount);
    }
    assert done[..|done|] == done;
  }

  /**
   * `calculateStats`: filter the completed orders, count and sum them, then walk them to
   * count payment methods and, line by line, to fill the per-category and per-hour records.
   */
  method CalculateStats(orderData: seq<Order>) returns (stats: SalesStats)
    ensures stats == StatsOf(orderData)
  {
    var done := WithStatus(orderData, Completed);
    var totalOrders := |done|;
    var totalRevenue := SumAmounts(done);
    var averageOrderValue := if totalOrders > 0 then totalRevenue as real / totalOrders as real else 0.0;
    var totalCustomers := |Customers(done)|;
    var cash, qris := CountMethods(done);
    var categorySales := SumByCategory(done);
    var hourlySales := SumByHour(done);
    stats := SalesStats(totalOrders, totalRevenue, averageOrderValue, totalCustomers, cash, qris, categorySales, hourlySales);
  }

  /** The amount of all lines of some orders. */
  function LinesRevenue(items: seq<OrderItem>): int
  {
    if items == [] then 0 else LinesRevenue(items[..|items| - 1]) + LineAmount(items[|items| - 1])
  }

  function ItemRevenue(orders: seq<Order>): int
  {
    if orders == [] then 0 else ItemRevenue(orders[..|orders| - 1]) + LinesRevenue(orders[|orders| - 1].items)
  }

  /** The amount of the lines of one category. */
  function CategoryLines(items: seq<OrderItem>, c: string): int
  {
    if items == [] then 0
    else CategoryLines(items[..|items| - 1], c) + (if items[|items| - 1].category == c then LineAmount(items[|items| - 1]) else 0)
  }

  function CategoryRevenue(orders: seq<Order>, c: string): int
  {
    if orders == [] then 0 else CategoryRevenue(orders[..|orders| - 1], c) + CategoryLines(orders[|orders| - 1].items, c)
  }

  lemma {:induction false} ItemsTallyAdds(t: Tally, items: seq<OrderItem>, c: string)
    ensures TallyTotal(ItemsTally(t, items)) == TallyTotal(t) + LinesRevenue(items)
    ensures Amount(ItemsTally(t, items), c) == Amount(t, c) + CategoryLines(items, c)
  {
    if items != [] {
      ItemsTallyAdds(t, items[..|items| - 1], c);
    }
  }

  /**
   * Each category's figure is the price × quantity of that category's lines over the
   * orders, and the figures add up to the amount of all their lines.
   */
  lemma {:induction false} CategorySalesSumLines(orders: seq<Order>, c: string)
    ensures Amount(CategoryTally(orders), c) == CategoryRevenue(orders, c)
    ensures TallyTotal(CategoryTally(orders)) == ItemRevenue(orders)
  {
    if orders != [] {
      var init := orders[..|orders| - 1];
      CategorySalesSumLines(init, c);
      ItemsTallyAdds(CategoryTally(init), orders[|orders| - 1].items, c);
    }
  }

  /** The amounts of the orders created in hour `h`. */
  function HourRevenue(orders: seq<Order>, h: nat): int
  {
    if orders == [] then 0
    else
      var last := orders[|orders| - 1];
      HourRevenue(orders[..|orders| - 1], h) + (if last.createdAt.hour == h then last.totalAmount else 0)
  }

  /**
   * The figure under `"<h>:00"` is the amount of the orders created in hour `h`, and the
   * hourly figures add up to the revenue.
   */
  lemma {:induction false} HourlySalesSumRevenue(orders: seq<Order>, h: nat)
    ensures Amount(HourlyTally(orders), HourKey(h)) == HourRevenue(orders, h)
    ensures TallyTotal(HourlyTally(orders)) == SumAmounts(orders)
  {
    if orders != [] {
      var last := orders[|orders| - 1];
      HourlySalesSumRevenue(orders[..|orders| - 1], h);
      if HourKey(last.createdAt.hour) == HourKey(h) {
        HourKeyInjective(last.createdAt.hour, h);
      }
    }
  }

  lemma {:induction false} MethodCountsBounded(orders: seq<Order>)
    ensures MethodCount(orders, Cash) + MethodCount(orders, Qris) <= |orders|
  {
    if orders != [] {
      MethodCountsBounded(orders[..|orders| - 1]);
    }
  }

  lemma {:induction false} CustomersBounded(orders: seq<Order>)
    ensures |Customers(orders)| <= |orders|
    ensures orders != [] ==> |Customers(orders)| >= 1
  {
    if orders != [] {
      var init := orders[..|orders| - 1];
      CustomersBounded(init);
      assert Customers(orders) == Customers(init) + {orders[|orders| - 1].customerName} by {
        forall x | x in Customers(orders) ensures x in Customers(init) + {orders[|orders| - 1].customerName} {
          var i :| 0 <= i < |orders| && orders[i].customerName == x;
          if i < |init| {
            assert init[i].customerName == x;
          }
        }
        forall x | x in Customers(init) ensures x in Customers(orders) {
          var i :| 0 <= i < |init| && init[i].customerName == x;
          assert orders[i].customerName == x;
        }
      }
    }
  }

  /**
   * The statistics' guarantees: the hourly figures add up to the revenue, the category
   * figures to the completed orders' lines, CASH and QRIS together count at most every
   * completed order, and there are no more distinct customers than completed orders.
   */
  lemma StatsConsistent(orders: seq<Order>)
    ensures var s := StatsOf(orders);
      && TallyTotal(s.hourlySales) == s.totalRevenue
      && TallyTotal(s.categorySales) == ItemRevenue(WithStatus(orders, Completed))
      && s.cash + s.qris <= s.totalOrders
      && s.totalCustomers <= s.totalOrders
      && (s.totalOrders == 0 ==> s.averageOrderValue == 0.0)
  {
    var done := WithStatus(orders, Completed);
    HourlySalesSumRevenue(done, 0);
    CategorySalesSumLines(done, "");
    MethodCountsBounded(done);
    CustomersBounded(done);
  }

  /**
   * An order that is not completed changes no statistic, wherever it sits in the fetched
   * list (which comes newest first).
   */
  lemma OnlyCompletedCount(a: seq<Order>, o: Order, b: seq<Order>)
    requires o.status != Completed
    ensures StatsOf(a + [o] + b) == StatsOf(a + b)
  {
    WithStatusAppend(a + [o], b, Completed);
    WithStatusAppend(a, [o], Completed);
    WithStatusSingle(o, Completed);
    WithStatusAppend(a, b, Completed);
    assert WithStatus(a + [o], Completed) == WithStatus(a, Completed);
    assert WithStatus(a + [o] + b, Completed) == WithStatus(a + b, Completed);
  }

  function NegatedAmount(e: Entry): int
  {
    -e.amount
  }

  /** The busiest hours: the hourly figures by amount, largest first, at most five. */
  function PeakHours(hourly: Tally): (r: Tally)
    ensures |r| == if |hourly| < 5 then |hourly| else 5
    ensures multiset(r) <= multiset(hourly)
    ensures forall e | e in r :: e in hourly
    ensures forall i, j | 0 <= i < j < |r| :: r[i].amount >= r[j].amount
    ensures forall e, i | e in hourly && e !in r && 0 <= i < |r| :: r[i].amount >= e.amount
  {
    var sorted := SortBy(hourly, NegatedAmount);
    var n := if |hourly| < 5 then |hourly| else 5;
    SortedPrefix(hourly, sorted, n);
    sorted[..n]
  }

  /** A prefix of the hourly figures sorted by descending amount keeps the largest ones. */
  lemma SortedPrefix(hourly: Tally, sorted: Tally, n: nat)
    requires multiset(sorted) == multiset(hourly) && SortedBy(sorted, NegatedAmount)
    requires n <= |hourly|
    ensures |sorted| == |hourly|
    ensures multiset(sorted[..n]) <= multiset(hourly)
    ensures forall e | e in sorted[..n] :: e in hourly
    ensures forall i, j | 0 <= i < j < n :: sorted[i].amount >= sorted[j].amount
    ensures forall e, i | e in hourly && e !in sorted[..n] && 0 <= i < n :: sorted[i].amount >= e.amount
  {
    assert |sorted| == |multiset(sorted)| == |multiset(hourly)| == |hourly|;
    var r := sorted[..n];
    assert sorted == r + sorted[n..];
    assert multiset(sorted) == multiset(r) + multiset(sorted[n..]);
    assert forall e | e in r :: e in multiset(sorted);
    forall i, j | 0 <= i < j < n ensures sorted[i].amount >= sorted[j].amount {
      assert NegatedAmount(sorted[i]) <= NegatedAmount(sorted[j]);
    }
    forall e, i | e in hourly && e !in r && 0 <= i < n ensures sorted[i].amount >= e.amount {
      assert e in multiset(sorted);
      PrefixHoldsSmallest(sorted, NegatedAmount, n, e);
      assert NegatedAmount(sorted[i]) <= NegatedAmount(e);
    }
  }

  /** The fixed header of the export. */
  const Header: seq<string> := ["Tanggal", "Nomor Antrian", "Pelanggan", "Total", "Metode Pembayaran", "Status"]

  /** `value || '-'`. */
  function OrDash(value: Option<string>): (r: string)
    ensures r != ""
    ensures value.Some? && value.value != "" ==> r == value.value
  {
    if value.Some? && value.value != "" then value.value else "-"
  }

  /** The six fields of one order's row, in header order. */
  function Row(o: Order): (r: seq<string>)
    ensures |r| == |Header|
  {
    [o.createdAt.localText, o.queueNumber, OrDash(o.customerName), IntToString(o.totalAmount),
     OrDash(o.paymentMethod), o.status]
  }

  /** The lines of the export: the header, then one row per fetched order, completed or not. */
  function CsvLines(orders: seq<Order>): (r: seq<string>)
    ensures |r| == |orders| + 1
    ensures r[0] == Join(Header, ",")
    ensures forall i | 0 <= i < |orders| :: r[i + 1] == Join(Row(orders[i]), ",")
  {
    [Join(Header, ",")] + seq(|orders|, i requires 0 <= i < |orders| => Join(Row(orders[i]), ","))
  }

  /** `exportReport`: fields joined by `,` and lines by a line feed, with no quoting. */
  function ExportReport(orders: seq<Order>): string
  {
    Join(CsvLines(orders), "\n")
  }

  /** No field of the order's row contains `c`. */
  predicate FieldsAvoid(o: Order, c: char)
  {
    forall k | 0 <= k < |Row(o)| :: c !in Row(o)[k]
  }

  lemma HeaderAvoids(c: char)
    requires c == ',' || c == '\n'
    ensures forall k | 0 <= k < |Header| :: c !in Header[k]
  {
  }

  lemma RowAvoids(o: Order, c: char)
    requires c == ',' || c == '\n'
    requires c !in o.createdAt.localText && c !in o.queueNumber && c !in o.status
    requires o.customerName.Some? ==> c !in o.customerName.value
    requires o.paymentMethod.Some? ==> c !in o.paymentMethod.value
    ensures FieldsAvoid(o, c)
  {
    var t := IntToString(o.totalAmount);
    assert c !in t by {
      forall k | 0 <= k < |t| ensures t[k] != c {
        assert IsDigit(t[k]) || t[k] == '-';
      }
    }
  }

  /**
   * A reader splitting the export at line feeds gets back the header line and one line
   * per order, provided no field holds a line feed.
   */
  lemma ExportLines(orders: seq<Order>)
    requires forall i | 0 <= i < |orders| :: FieldsAvoid(orders[i], '\n')
    ensures Split(ExportReport(orders), '\n') == CsvLines(orders)
    ensures |Split(ExportReport(orders), '\n')| == |orders| + 1
  {
    var lines := CsvLines(orders);
    HeaderAvoids('\n');
    JoinAvoids(Header, ",", '\n');
    forall k | 0 <= k < |lines| ensures '\n' !in lines[k] {
      if k > 0 {
        JoinAvoids(Row(orders[k - 1]), ",", '\n');
      }
    }
    SplitJoin(lines, '\n');
  }

  /** Splitting a row line at commas gives its six fields back, when no field holds a comma. */
  lemma RowFields(o: Order)
    requires FieldsAvoid(o, ',')
    ensures Split(Join(Row(o), ","), ',') == Row(o)
  {
    SplitJoin(Row(o), ',');
  }

  /**
   * Without quoting, a comma inside a field moves every later field one column right:
   * a date text `a + "," + b` yields seven fields under a six-field header.
   */
  lemma CommaInDateShiftsColumns(o: Order, a: string, b: string)
    requires o.createdAt.localText == a + "," + b && ',' !in a && ',' !in b
    requires forall k | 1 <= k < |Row(o)| :: ',' !in Row(o)[k]
    ensures Split(Join(Row(o), ","), ',') == [a, b] + Row(o)[1..]
    ensures |Split(Join(Row(o), ","), ',')| == |Header| + 1
  {
    var row := Row(o);
    var parts := [a, b] + row[1..];
    assert Join(parts, ",") == Join(row, ",") by {
      assert parts[1..] == [b] + row[1..];
      assert Join(parts, ",") == a + "," + Join([b] + row[1..], ",");
      assert ([b] + row[1..])[1..] == row[1..];
      assert Join([b] + row[1..], ",") == b + "," + Join(row[1..], ",");
      assert Join(row, ",") == row[0] + "," + Join(row[1..], ",");
    }
    SplitJoin(parts, ',');
  }
}
