/**
 * The customer page: the cart (add, set quantity, total), the guards before ordering,
 * the payload sent to the order API, the menu grouped by category, the status labels,
 * and how a `status-updated` message is applied to the order on screen.
 */
module Customer {

  import opened Wrappers
  import opened Text
  import opened Domain
  import OrderApi

  /** A menu entry as the menu API returns it; prices are whole rupiah. */
  datatype MenuItem = MenuItem(
    id: string,
    name: string,
    description: string,
    price: int,
    category: string,
    available: bool)

  /** A cart line: the menu entry as it was added, and how many. */
  datatype CartLine = CartLine(item: MenuItem, quantity: int)

  /** Whether some line of the cart is for menu item `id` (`cart.find(...)` is truthy). */
  predicate Holds(cart: seq<CartLine>, id: string)
  {
    exists i | 0 <= i < |cart| :: cart[i].item.id == id
  }

  /** No menu item has two lines. */
  predicate DistinctIds(cart: seq<CartLine>)
  {
    forall i, j | 0 <= i < j < |cart| :: cart[i].item.id != cart[j].item.id
  }

  /** Every line has at least one unit. */
  predicate PositiveQuantities(cart: seq<CartLine>)
  {
    forall i | 0 <= i < |cart| :: cart[i].quantity >= 1
  }

  function Bumped(line: CartLine, id: string): CartLine
  {
    if line.item.id == id then line.(quantity := line.quantity + 1) else line
  }

  /**
   * `addToCart`: an item already in the cart gets one more unit on its line (the line
   * keeps the entry as first added), every other line is untouched; a new item is
   * appended with quantity 1.
   */
  function AddToCart(cart: seq<CartLine>, item: MenuItem): (r: seq<CartLine>)
    ensures Holds(cart, item.id) ==> |r| == |cart|
    ensures Holds(cart, item.id) ==> forall i | 0 <= i < |cart| ::
      if cart[i].item.id == item.id then r[i] == cart[i].(quantity := cart[i].quantity + 1) else r[i] == cart[i]
    ensures !Holds(cart, item.id) ==> r == cart + [CartLine(item, 1)]
  {
    if Holds(cart, item.id) then seq(|cart|, i requires 0 <= i < |cart| => Bumped(cart[i], item.id))
    else cart + [CartLine(item, 1)]
  }

  /** Adding keeps one line per item, and every line at one unit or more. */
  lemma AddToCartKeepsLinesDistinct(cart: seq<CartLine>, item: MenuItem)
    requires DistinctIds(cart) && PositiveQuantities(cart)
    ensures DistinctIds(AddToCart(cart, item)) && PositiveQuantities(AddToCart(cart, item))
    ensures Holds(AddToCart(cart, item), item.id)
  {
    var r := AddToCart(cart, item);
    if !Holds(cart, item.id) {
      forall i, j | 0 <= i < j < |r| ensures r[i].item.id != r[j].item.id {
        if j == |cart| {
          assert r[i] == cart[i];
        }
      }
      assert r[|cart|].item.id == item.id;
    } else {
      var k :| 0 <= k < |cart| && cart[k].item.id == item.id;
      assert r[k].item.id == item.id;
    }
  }

  /** The lines except those for `id`, in their order. */
  function Dropped(cart: seq<CartLine>, id: string): (r: seq<CartLine>)
    ensures |r| <= |cart|
    ensures forall l :: l in r <==> l in cart && l.item.id != id
    ensures !Holds(cart, id) ==> r == cart
  {
    if cart == [] then []
    else
      var last := cart[|cart| - 1];
      assert cart == cart[..|cart| - 1] + [last];
      assert !Holds(cart, id) ==> !Holds(cart[..|cart| - 1], id) by {
        if Holds(cart[..|cart| - 1], id) {
          var i :| 0 <= i < |cart| - 1 && cart[..|cart| - 1][i].item.id == id;
          assert cart[i].item.id == id;
        }
      }
      Dropped(cart[..|cart| - 1], id) + (if last.item.id == id then [] else [last])
  }

  /**
   * Removal keeps the cart's order: dropping from a concatenation drops from each part.
   * With `DroppedSingle` this fixes `Dropped` on every cart.
   */
  lemma {:induction false} DroppedAppend(a: seq<CartLine>, b: seq<CartLine>, id: string)
    ensures Dropped(a + b, id) == Dropped(a, id) + Dropped(b, id)
    decreases |b|
  {
    if b == [] {
      assert a + b == a;
    } else {
      var init := b[..|b| - 1];
      var last := b[|b| - 1];
      assert b == init + [last];
      assert a + b == (a + init) + [last];
      var tail := if last.item.id == id then [] else [last];
      var x, y := Dropped(a, id), Dropped(init, id);
      DroppedAppend(a, init, id);
      DroppedSnoc(a + init, last, id);
      assert Dropped(a + b, id) == (x + y) + tail;
      DroppedSnoc(init, last, id);
      assert Dropped(b, id) == y + tail;
      assert (x + y) + tail == x + (y + tail);
    }
  }

  lemma DroppedSnoc(cart: seq<CartLine>, l: CartLine, id: string)
    ensures Dropped(cart + [l], id) == Dropped(cart, id) + if l.item.id == id then [] else [l]
  {
    assert (cart + [l])[..|cart|] == cart;
  }

  /** A single line survives removal exactly when it is for another item. */
  lemma DroppedSingle(l: CartLine, id: string)
    ensures Dropped([l], id) == if l.item.id == id then [] else [l]
  {
    assert [l][..0] == [];
  }

  function WithQuantity(line: CartLine, id: string, quantity: int): CartLine
  {
    if line.item.id == id then line.(quantity := quantity) else line
  }

  /**
   * `updateQuantity`: 0 removes the item's line and keeps the others in order; any other
   * value becomes the quantity of that item's line, every other line untouched.
   */
  function UpdateQuantity(cart: seq<CartLine>, id: string, quantity: int): (r: seq<CartLine>)
    ensures quantity == 0 ==> r == Dropped(cart, id) && !Holds(r, id)
    ensures quantity != 0 ==> |r| == |cart| && forall i | 0 <= i < |cart| ::
      if cart[i].item.id == id then r[i] == cart[i].(quantity := quantity) else r[i] == cart[i]
  {
    if quantity == 0 then
      Dropped(cart, id)
    else seq(|cart|, i requires 0 <= i < |cart| => WithQuantity(cart[i], id, quantity))
  }

  /** Setting a quantity of zero or more keeps one line per item and no empty line. */
  lemma UpdateQuantityKeepsLinesValid(cart: seq<CartLine>, id: string, quantity: int)
    requires DistinctIds(cart) && PositiveQuantities(cart) && quantity >= 0
    ensures DistinctIds(UpdateQuantity(cart, id, quantity)) && PositiveQuantities(UpdateQuantity(cart, id, quantity))
  {
    if quantity == 0 {
      DroppedSubsequence(cart, id);
    }
  }

  /** What `Dropped` keeps is a subsequence, so distinct and positive lines stay so. */
  lemma {:induction false} DroppedSubsequence(cart: seq<CartLine>, id: string)
    ensures DistinctIds(cart) ==> DistinctIds(Dropped(cart, id))
    ensures PositiveQuantities(cart) ==> PositiveQuantities(Dropped(cart, id))
  {
    if cart != [] {
      var init := cart[..|cart| - 1];
      var last := cart[|cart| - 1];
      DroppedSubsequence(init, id);
      var d := Dropped(init, id);
      var r := Dropped(cart, id);
      if DistinctIds(cart) {
        assert DistinctIds(init);
        forall l | l in d ensures l.item.id != last.item.id {
          var i :| 0 <= i < |init| && init[i] == l;
          assert cart[i] == l;
        }
      }
      if PositiveQuantities(cart) {
        assert PositiveQuantities(init);
      }
    }
  }

  /** What one line adds to the total. */
  function Subtotal(line: CartLine): int
  {
    line.item.price * line.quantity
  }

  /** `getTotalPrice`: the sum of price × quantity over the lines, 0 for an empty cart. */
  function TotalPrice(cart: seq<CartLine>): int
  {
    if cart == [] then 0
    else TotalPrice(cart[..|cart| - 1]) + Subtotal(cart[|cart| - 1])
  }

  /** The summed prices of the lines for `id` (one price when the ids are distinct). */
  function PricesOf(cart: seq<CartLine>, id: string): int
  {
    if cart == [] then 0
    else PricesOf(cart[..|cart| - 1], id) + (if cart[|cart| - 1].item.id == id then cart[|cart| - 1].item.price else 0)
  }

  /** The part of the total contributed by the lines for `id`. */
  function TotalOf(cart: seq<CartLine>, id: string): int
  {
    if cart == [] then 0
    else
      var last := cart[|cart| - 1];
      TotalOf(cart[..|cart| - 1], id) + (if last.item.id == id then Subtotal(last) else 0)
  }

  lemma {:induction false} TotalPriceAppend(a: seq<CartLine>, b: seq<CartLine>)
    ensures TotalPrice(a + b) == TotalPrice(a) + TotalPrice(b)
    decreases |b|
  {
    if b == [] {
      assert a + b == a;
    } else {
      assert (a + b)[..|a + b| - 1] == a + b[..|b| - 1];
      TotalPriceAppend(a, b[..|b| - 1]);
    }
  }

  /** Removing the lines for `id` takes away exactly their share of the total. */
  lemma {:induction false} DroppedTotal(cart: seq<CartLine>, id: string)
    ensures TotalPrice(Dropped(cart, id)) == TotalPrice(cart) - TotalOf(cart, id)
  {
    if cart != [] {
      var init := cart[..|cart| - 1];
      var last := cart[|cart| - 1];
      DroppedTotal(init, id);
      var tail := if last.item.id == id then [] else [last];
      TotalPriceAppend(Dropped(init, id), tail);
      assert TotalPrice([last]) == Subtotal(last) by {
        assert [last][..0] == [];
      }
    }
  }

  /** Setting the quantity of the lines for `id` to `q` replaces their share by `q` times their prices. */
  lemma {:induction false} SetQuantityTotal(cart: seq<CartLine>, id: string, q: int)
    ensures TotalPrice(seq(|cart|, i requires 0 <= i < |cart| => WithQuantity(cart[i], id, q)))
         == TotalPrice(cart) - TotalOf(cart, id) + q * PricesOf(cart, id)
  {
    if cart != [] {
      var init := cart[..|cart| - 1];
      var last := cart[|cart| - 1];
      SetQuantityTotal(init, id, q);
      var r := seq(|cart|, i requires 0 <= i < |cart| => WithQuantity(cart[i], id, q));
      var ri := seq(|init|, i requires 0 <= i < |init| => WithQuantity(init[i], id, q));
      assert r[..|r| - 1] == ri;
      var w := WithQuantity(last, id, q);
      assert r[|r| - 1] == w;
      assert Subtotal(w) == Subtotal(last) - (if last.item.id == id then Subtotal(last) else 0)
                          + q * (if last.item.id == id then last.item.price else 0);
      assert q * (PricesOf(init, id) + (if last.item.id == id then last.item.price else 0))
          == q * PricesOf(init, id) + q * (if last.item.id == id then last.item.price else 0);
    }
  }

  /**
   * Setting the quantity of item `id` to `q` replaces that item's share of the total by
   * `q` times its price; removal (`q` = 0) subtracts the share.
   */
  lemma UpdateQuantityTotal(cart: seq<CartLine>, id: string, q: int)
    ensures TotalPrice(UpdateQuantity(cart, id, q)) == TotalPrice(cart) - TotalOf(cart, id) + q * PricesOf(cart, id)
  {
    if q == 0 {
      DroppedTotal(cart, id);
    } else {
      SetQuantityTotal(cart, id, q);
    }
  }

  /**
   * Adding one unit raises the total by the item's price: the price recorded on its line
   * when the item is already in the cart (summed over its lines), the offered price when
   * it is new.
   */
  lemma {:induction false} AddToCartTotal(cart: seq<CartLine>, item: MenuItem)
    ensures TotalPrice(AddToCart(cart, item))
         == TotalPrice(cart) + (if Holds(cart, item.id) then PricesOf(cart, item.id) else item.price)
  {
    if Holds(cart, item.id) {
      BumpedTotal(cart, item.id);
      assert AddToCart(cart, item) == seq(|cart|, i requires 0 <= i < |cart| => Bumped(cart[i], item.id));
    } else {
      TotalPriceAppend(cart, [CartLine(item, 1)]);
      assert TotalPrice([CartLine(item, 1)]) == Subtotal(CartLine(item, 1)) == item.price by {
        assert [CartLine(item, 1)][..0] == [];
      }
    }
  }

  lemma {:induction false} BumpedTotal(cart: seq<CartLine>, id: string)
    ensures TotalPrice(seq(|cart|, i requires 0 <= i < |cart| => Bumped(cart[i], id)))
         == TotalPrice(cart) + PricesOf(cart, id)
  {
    if cart != [] {
      var init := cart[..|cart| - 1];
      var last := cart[|cart| - 1];
      BumpedTotal(init, id);
      var r := seq(|cart|, i requires 0 <= i < |cart| => Bumped(cart[i], id));
      var ri := seq(|init|, i requires 0 <= i < |init| => Bumped(init[i], id));
      assert r[..|r| - 1] == ri;
      var b := Bumped(last, id);
      assert r[|r| - 1] == b;
      assert Subtotal(b) == Subtotal(last) + (if last.item.id == id then last.item.price else 0);
    }
  }

  /** A cart whose lines all have a positive price and quantity has a positive total. */
  lemma {:induction false} PositiveTotal(cart: seq<CartLine>)
    requires cart != [] && PositiveQuantities(cart)
    requires forall i | 0 <= i < |cart| :: cart[i].item.price > 0
    ensures TotalPrice(cart) > 0
  {
    var init := cart[..|cart| - 1];
    var last := cart[|cart| - 1];
    if init != [] {
      PositiveTotal(init);
    }
    assert Subtotal(last) >= last.item.price * 1;
  }

  /** `startOrder`: the order form opens only for a name that is not blank after trimming. */
  function StartOrder(customerName: string): (r: bool)
    ensures r <==> exists i | 0 <= i < |customerName| :: !IsWhitespace(customerName[i])
  {
    TrimEmptyIffBlank(customerName);
    Trim(customerName) != ""
  }

  /** Names made only of Unicode space separators, such as U+3000, are refused as blank. */
  lemma SpaceSeparatorNamesRefused(customerName: string)
    requires customerName == "\U{3000}" || customerName == "\U{1680}\U{2007}\U{202F}\U{205F}"
    ensures !StartOrder(customerName)
  {
  }

  /** The line items of the payload: id, quantity and price of each line, no notes. */
  function PayloadItems(cart: seq<CartLine>): (r: seq<OrderApi.ItemInput>)
    ensures |r| == |cart|
    ensures forall i | 0 <= i < |cart| ::
      r[i] == OrderApi.ItemInput(cart[i].item.id, cart[i].quantity, cart[i].item.price, None)
  {
    seq(|cart|, i requires 0 <= i < |cart| => OrderApi.ItemInput(cart[i].item.id, cart[i].quantity, cart[i].item.price, None))
  }

  /**
   * `submitOrder`: nothing is sent for an empty cart; otherwise the body carries the queue
   * number and name as held by the page, one item per line, the cart total and the chosen
   * payment method.
   */
  function SubmitOrder(cart: seq<CartLine>, queueNumber: string, customerName: string, paymentMethod: string)
    : (r: Option<OrderApi.PostBody>)
    ensures r.None? <==> cart == []
    ensures r.Some? ==>
      && r.value.items == Some(PayloadItems(cart))
      && r.value.totalAmount == Some(TotalPrice(cart))
      && r.value.queueNumber == Some(queueNumber)
      && r.value.customerName == Some(customerName)
      && r.value.paymentMethod == Some(paymentMethod)
  {
    if |cart| == 0 then None
    else Some(OrderApi.PostBody(Some(queueNumber), Some(customerName), Some(PayloadItems(cart)),
                                Some(TotalPrice(cart)), Some(paymentMethod)))
  }

  /**
   * What the page submits passes the order API's required-field check whenever the page's
   * own guards passed (a non-empty cart, a name that is not blank), a queue number was
   * obtained, and the total is not 0; the stored data then has one item per cart line.
   */
  lemma {:induction false} SubmittedOrderAccepted(cart: seq<CartLine>, queueNumber: string, customerName: string, paymentMethod: string)
    requires cart != [] && StartOrder(customerName) && queueNumber != "" && TotalPrice(cart) != 0
    ensures OrderApi.Accepts(SubmitOrder(cart, queueNumber, customerName, paymentMethod).value)
    ensures var d := OrderApi.Build(SubmitOrder(cart, queueNumber, customerName, paymentMethod).value);
      |d.items| == |cart| && d.totalAmount == TotalPrice(cart) && d.status == Waiting
      && forall i | 0 <= i < |cart| :: d.items[i].menuItemId == cart[i].item.id && d.items[i].quantity == cart[i].quantity
  {
    var b := SubmitOrder(cart, queueNumber, customerName, paymentMethod).value;
    assert customerName != "";
    assert OrderApi.Accepts(b);
  }

  /** One group of the menu: a category and its items. */
  datatype Group = Group(category: string, items: seq<MenuItem>)

  /** Whether some menu item has category `c`. */
  predicate HasCategory(menu: seq<MenuItem>, c: string)
  {
    exists i | 0 <= i < |menu| :: menu[i].category == c
  }

  /** The categories of the menu in order of first appearance. */
  function Categories(menu: seq<MenuItem>): (r: seq<string>)
    ensures forall c :: c in r <==> HasCategory(menu, c)
    ensures forall i, j | 0 <= i < j < |r| :: r[i] != r[j]
  {
    if menu == [] then []
    else
      var init := menu[..|menu| - 1];
      var c := menu[|menu| - 1].category;
      var before := Categories(init);
      assert forall d :: HasCategory(menu, d) <==> HasCategory(init, d) || d == c by {
        forall d ensures HasCategory(menu, d) <==> HasCategory(init, d) || d == c {
          if HasCategory(menu, d) {
            var i :| 0 <= i < |menu| && menu[i].category == d;
            if i < |init| {
              assert init[i].category == d;
            }
          }
          if HasCategory(init, d) {
            var i :| 0 <= i < |init| && init[i].category == d;
            assert menu[i].category == d;
          }
          assert menu[|menu| - 1].category == c;
        }
      }
      if c in before then before else before + [c]
  }

  /** The items of one category, in menu order. */
  function InCategory(menu: seq<MenuItem>, c: string): (r: seq<MenuItem>)
    ensures forall x :: x in r <==> x in menu && x.category == c
  {
    if menu == [] then []
    else
      var last := menu[|menu| - 1];
      assert menu == menu[..|menu| - 1] + [last];
      InCategory(menu[..|menu| - 1], c) + (if last.category == c then [last] else [])
  }

  /** The grouping the page renders: one group per category, in first-appearance order. */
  function Grouped(menu: seq<MenuItem>): (r: seq<Group>)
    ensures |r| == |Categories(menu)|
    ensures forall k | 0 <= k < |r| :: r[k] == Group(Categories(menu)[k], InCategory(menu, Categories(menu)[k]))
  {
    var cs := Categories(menu);
    seq(|cs|, k requires 0 <= k < |cs| => Group(cs[k], InCategory(menu, cs[k])))
  }

  /** Where the group for category `c` sits in the accumulator, if it exists yet. */
  function GroupIndex(groups: seq<Group>, c: string): (r: Option<nat>)
    ensures r.Some? ==> r.value < |groups| && groups[r.value].category == c
    ensures r.None? ==> forall k | 0 <= k < |groups| :: groups[k].category != c
  {
    if groups == [] then None
    else if groups[|groups| - 1].category == c then Some(|groups| - 1)
    else GroupIndex(groups[..|groups| - 1], c)
  }

  lemma {:induction false} InCategoryEmpty(menu: seq<MenuItem>, c: string)
    requires !HasCategory(menu, c)
    ensures InCategory(menu, c) == []
  {
    if menu != [] {
      var init := menu[..|menu| - 1];
      assert forall i | 0 <= i < |init| :: init[i] == menu[i];
      InCategoryEmpty(init, c);
    }
  }

  lemma InCategorySnoc(menu: seq<MenuItem>, x: MenuItem, c: string)
    ensures InCategory(menu + [x], c) == InCategory(menu, c) + (if x.category == c then [x] else [])
  {
    var m := menu + [x];
    assert m[..|m| - 1] == menu;
  }

  lemma CategoriesSnoc(menu: seq<MenuItem>, x: MenuItem)
    ensures Categories(menu + [x]) == if x.category in Categories(menu) then Categories(menu) else Categories(menu) + [x.category]
  {
    var m := menu + [x];
    assert m[..|m| - 1] == menu;
  }

  /** An item of a category already present joins the end of that category's group. */
  lemma GroupedSnocExisting(menu: seq<MenuItem>, x: MenuItem, k: nat)
    requires k < |Grouped(menu)| && Grouped(menu)[k].category == x.category
    ensures Grouped(menu + [x]) == Grouped(menu)[k := Group(x.category, Grouped(menu)[k].items + [x])]
  {
    var g := Grouped(menu);
    var g2 := Grouped(menu + [x]);
    CategoriesSnoc(menu, x);
    assert Categories(menu + [x]) == Categories(menu);
    forall j | 0 <= j < |g| ensures g2[j] == g[k := Group(x.category, g[k].items + [x])][j] {
      InCategorySnoc(menu, x, Categories(menu)[j]);
    }
  }

  /** An item of a new category opens a group of its own at the end. */
  lemma GroupedSnocNew(menu: seq<MenuItem>, x: MenuItem)
    requires forall k | 0 <= k < |Grouped(menu)| :: Grouped(menu)[k].category != x.category
    ensures Grouped(menu + [x]) == Grouped(menu) + [Group(x.category, [x])]
  {
    var g := Grouped(menu);
    var g2 := Grouped(menu + [x]);
    var cs := Categories(menu);
    assert x.category !in cs;
    CategoriesSnoc(menu, x);
    var cs2 := cs + [x.category];
    assert Categories(menu + [x]) == cs2;
    assert |g2| == |g| + 1;
    forall j | 0 <= j < |g| ensures g2[j] == g[j] {
      assert cs2[j] == cs[j];
      InCategorySnoc(menu, x, cs[j]);
    }
    assert g2[|g|] == Group(x.category, [x]) by {
      InCategoryEmpty(menu, x.category);
      InCategorySnoc(menu, x, x.category);
    }
    assert g2 == g + [Group(x.category, [x])];
  }

  /**
   * `menuByCategory`: the accumulator starts empty and each item is pushed onto the group
   * of its category, which is created at the end the first time the category appears.
   */
  method MenuByCategory(menu: seq<MenuItem>) returns (groups: seq<Group>)
    ensures groups == Grouped(menu)
  {
    groups := [];
    for i := 0 to |menu|
      invariant groups == Grouped(menu[..i])
    {
      var x := menu[i];
      assert menu[..i + 1] == menu[..i] + [x];
      match GroupIndex(groups, x.category)
      case Some(k) =>
        GroupedSnocExisting(menu[..i], x, k);
        groups := groups[k := Group(x.category, groups[k].items + [x])];
      case None =>
        GroupedSnocNew(menu[..i], x);
        groups := groups + [Group(x.category, [x])];
    }
    assert menu[..|menu|] == menu;
  }

  /**
   * Every menu item appears in exactly one group, the one of its own category, and each
   * group keeps the menu's order (it is the menu filtered to its category).
   */
  lemma EachItemInOneGroup(menu: seq<MenuItem>, x: MenuItem)
    requires x in menu
    ensures var g := Grouped(menu);
      exists k | 0 <= k < |g| :: g[k].category == x.category && x in g[k].items
    ensures var g := Grouped(menu);
      forall k | 0 <= k < |g| && x in g[k].items :: g[k].category == x.category
  {
    var g := Grouped(menu);
    var i :| 0 <= i < |menu| && menu[i] == x;
    assert x.category in Categories(menu);
    var k :| 0 <= k < |Categories(menu)| && Categories(menu)[k] == x.category;
    assert g[k].category == x.category && x in g[k].items;
  }

  /** `getStatusText`: the five known statuses get their Indonesian label, others pass through. */
  function StatusText(status: string): (r: string)
    ensures status !in Progression ==> r == status
    ensures status == Waiting ==> r == "Menunggu Konfirmasi"
    ensures status == Confirmed ==> r == "Pesanan Dikonfirmasi"
    ensures status == Preparing ==> r == "Sedang Disiapkan"
    ensures status == Ready ==> r == "Siap Diambil"
    ensures status == Completed ==> r == "Selesai"
  {
    if status == Waiting then "Menunggu Konfirmasi"
    else if status == Confirmed then "Pesanan Dikonfirmasi"
    else if status == Preparing then "Sedang Disiapkan"
    else if status == Ready then "Siap Diambil"
    else if status == Completed then "Selesai"
    else status
  }

  /** The five known statuses get five different labels, none of them a raw status. */
  lemma StatusLabelsDistinct(s: string, t: string)
    requires s in Progression && t in Progression && s != t
    ensures StatusText(s) != StatusText(t)
    ensures StatusText(s) !in Progression
  {
  }

  /** The notification shown for a status change; `WAITING` and unknown statuses get none. */
  function StatusMessage(status: string): (r: Option<string>)
    ensures r.Some? <==> status in [Confirmed, Preparing, Ready, Completed]
  {
    if status == Confirmed then Some("Pesanan Anda telah dikonfirmasi!")
    else if status == Preparing then Some("Pesanan Anda sedang disiapkan...")
    else if status == Ready then Some("Pesanan Anda siap diambil!")
    else if status == Completed then Some("Pesanan Anda telah selesai. Terima kasih!")
    else None
  }

  /** The page's state after a `status-updated` message, and the notification it shows. */
  datatype Applied = Applied(current: Option<Order>, notice: Option<string>)

  /**
   * `handleStatusUpdate`: a message for the order on screen replaces its status (and
   * nothing else) and may show a notification; any other message changes nothing.
   */
  function HandleStatusUpdate(current: Option<Order>, orderId: string, status: string): (r: Applied)
    ensures current.None? || current.value.id != orderId ==> r == Applied(current, None)
    ensures current.Some? && current.value.id == orderId ==>
      r.current == Some(current.value.(status := status)) && r.notice == StatusMessage(status)
  {
    if current.Some? && current.value.id == orderId then Applied(Some(current.value.(status := status)), StatusMessage(status))
    else Applied(current, None)
  }

  /** Applying the same message twice is the same as applying it once, notification aside. */
  lemma StatusUpdateIdempotent(current: Option<Order>, orderId: string, status: string)
    ensures HandleStatusUpdate(HandleStatusUpdate(current, orderId, status).current, orderId, status).current
         == HandleStatusUpdate(current, orderId, status).current
  {
  }
}
