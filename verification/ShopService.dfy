// The endpoints and services as they run: fields updated in place, loops over request
// data and rows, and rollback. Each method does to the tables what its function in Pos,
// Orders or Inventory says, and Handle what Lifecycle says of a request, so the laws of
// every run are laws of this class.

module ShopService {
  import opened Wrappers
  import opened Sums
  import opened ShopData
  import P = Pos
  import O = Orders
  import I = Inventory
  import L = Lifecycle

  datatype UpdateResult = Updated(sku: int, currentStock: int) | SkuMissing(sku: int)

  // The answers of a bulk update, one per entry.
  function UpdateResults(db: Db, shop: int, updates: seq<I.StockUpdate>): seq<UpdateResult> {
    if updates == [] then []
    else [if I.SkuOf(db, shop, updates[0].sku) then Updated(updates[0].sku, updates[0].stock)
          else SkuMissing(updates[0].sku)] + UpdateResults(db, shop, updates[1..])
  }

  class Shop {
    var products: map<int, Product>
    var skus: map<int, Sku>
    var stock: map<int, int>
    var stockLog: map<int, seq<StockLog>>
    var orders: map<int, Order>
    var lines: seq<Line>
    var carts: map<int, Cart>
    var nextOrder: int
    var nextLine: int
    var nextCart: int

    ghost function State(): Db
      reads this
    {
      Db(products, skus, stock, stockLog, orders, lines, carts, nextOrder, nextLine, nextCart)
    }

    constructor ()
      ensures State() == Db(map[], map[], map[], map[], map[], [], map[], 1, 1, 1)
      ensures State().Valid()
    {
      products, skus, stock, stockLog, orders := map[], map[], map[], map[], map[];
      lines, carts := [], map[];
      nextOrder, nextLine, nextCart := 1, 1, 1;
    }

    // ---------- transactions ----------

    method Savepoint() returns (saved: Db)
      ensures saved == State()
    {
      saved := Db(products, skus, stock, stockLog, orders, lines, carts, nextOrder, nextLine, nextCart);
    }

    method Rollback(saved: Db)
      modifies this
      ensures State() == saved
    {
      products, skus, stock, stockLog := saved.products, saved.skus, saved.stock, saved.stockLog;
      orders, lines, carts := saved.orders, saved.lines, saved.carts;
      nextOrder, nextLine, nextCart := saved.nextOrder, saved.nextLine, saved.nextCart;
    }

    method InsertOrder(order: Order) returns (o: int)
      modifies this
      ensures o == old(nextOrder) && State() == P.WithNewOrder(old(State()), order)
    {
      o := nextOrder;
      orders, nextOrder := orders[o := order], nextOrder + 1;
    }

    // ---------- the till ----------

    // The totals of the order's items, one row after the other.
    method SumOfItems(o: int) returns (subtotal: real)
      ensures subtotal == Money(lines, {o})
    {
      subtotal := 0.0;
      for i := 0 to |lines|
        invariant subtotal == Money(lines[..i], {o})
      {
        assert lines[..i + 1] == lines[..i] + [lines[i]];
        SumRealConcat(lines[..i], [lines[i]], MoneyOn({o}));
        assert SumReal([lines[i]], MoneyOn({o})) == MoneyAt(lines[i], {o});
        if lines[i].order == o {
          subtotal := subtotal + lines[i].totalPrice;
        }
      }
      assert lines[..|lines|] == lines;
    }

    method RecalculateOrderAmount(o: int)
      requires o in orders
      modifies this
      ensures State() == P.Recalculate(old(State()), o)
    {
      var subtotal := SumOfItems(o);
      orders := orders[o := orders[o].(subtotal := subtotal, total := subtotal - orders[o].discount)];
    }

    method ApplyDiscount(o: int, kind: P.DiscountType, value: real) returns (amount: real)
      requires o in orders
      modifies this
      ensures amount == P.DiscountFor(old(orders[o]), kind, value)
      ensures State() == P.Discount(old(State()), o, kind, value)
    {
      match kind {
        case Percentage => amount := orders[o].subtotal * (value / 100.0);
        case Fixed => amount := value;
        case OtherDiscount => amount := 0.0;
      }
      orders := orders[o := orders[o].(discount := amount, total := orders[o].subtotal - amount)];
    }

    // One entry of the split data; false when the new row breaks its CHECK constraint.
    method SplitItem(o: int, n: int, e: P.SplitEntry) returns (ok: bool)
      modifies this
      ensures match P.SplitOne(old(State()), o, n, e)
              case Some(d) => ok && State() == d
              case None => !ok && State() == old(State())
    {
      var found := P.FindLine(lines, e.item, o);
      if found.Some? {
        var row := found.value;
        var item := lines[row];
        var quantity := e.quantity.GetOr(item.quantity);
        if quantity < 0 {
          return false;
        }
        var moved := P.MovedLine(item, nextLine, n, quantity);
        ghost var before := lines;
        lines, nextLine := lines + [moved], nextLine + 1;
        if quantity < item.quantity {
          var left := item.quantity - quantity;
          lines := lines[row := item.(quantity := left, totalPrice := Price(item.unitPrice, left))];
        } else {
          lines := lines[..row] + lines[row + 1..];
        }
        assert lines == before[..row] + P.Kept(item, quantity) + before[row + 1..] + [moved];
      }
      ok := true;
    }

    method SplitOrder(o: int, entries: seq<P.SplitEntry>) returns (newOrder: Option<int>)
      requires o in orders && o != nextOrder
      modifies this
      ensures match P.Split(old(State()), o, entries)
              case Some(d) => newOrder == Some(old(nextOrder)) && State() == d
              case None => newOrder == None && State() == old(State())
    {
      var saved := Savepoint();
      var n := InsertOrder(P.NewSplitOrder(orders[o]));
      ghost var start := State();
      P.SplitLinesKeepsOrders(start, o, n, entries);
      for i := 0 to |entries|
        invariant P.SplitLines(State(), o, n, entries[i..]) == P.SplitLines(start, o, n, entries)
      {
        assert entries[i..][1..] == entries[i + 1..];
        var ok := SplitItem(o, n, entries[i]);
        if !ok {
          Rollback(saved);
          return None;
        }
      }
      assert entries[|entries|..] == [] && P.SplitLines(start, o, n, entries) == Some(State());
      RecalculateOrderAmount(o);
      RecalculateOrderAmount(n);
      newOrder := Some(n);
    }

    // Move every item of order `id` to `main`.
    method MoveItems(id: int, main: int)
      modifies this
      ensures State() == old(State()).(lines := P.Reparent(old(lines), id, main))
    {
      for i := 0 to |lines|
        invariant State() == old(State()).(lines := lines) && |lines| == |old(lines)|
        invariant forall j :: 0 <= j < i ==> lines[j] == P.Reparent(old(lines), id, main)[j]
        invariant forall j :: i <= j < |lines| ==> lines[j] == old(lines)[j]
      {
        if lines[i].order == id {
          lines := lines[i := lines[i].(order := main)];
        }
      }
      assert lines == P.Reparent(old(lines), id, main);
    }

    method DeleteOrder(id: int)
      modifies this
      ensures State() == old(State()).(lines := LinesOff(old(lines), {id}), orders := old(orders) - {id})
    {
      lines := LinesOff(lines, {id});
      orders := orders - {id};
    }

    method MergeOrders(shop: int, main: int, ids: seq<int>)
      requires main in orders
      modifies this
      ensures State() == P.Merge(old(State()), shop, main, ids)
    {
      var mainOrder := orders[main];
      for i := 0 to |ids|
        invariant P.MergeLines(State(), shop, main, ids[i..]) == P.MergeLines(old(State()), shop, main, ids)
      {
        assert ids[i..][1..] == ids[i + 1..];
        if ids[i] in orders && orders[ids[i]].shop == shop {
          MoveItems(ids[i], main);
          DeleteOrder(ids[i]);
        }
      }
      if main !in orders {
        mainOrder := mainOrder.(history := []);
      }
      var subtotal := SumOfItems(main);
      orders := orders[main := mainOrder.(subtotal := subtotal, total := subtotal - mainOrder.discount)];
    }

    // ---------- selling ----------

    method SellItem(o: int, sale: O.Sale, floor: bool)
      modifies this
      ensures State() == O.Sell(old(State()), o, sale, floor)
    {
      lines, nextLine := lines + [O.SoldLine(sale, nextLine, o)], nextLine + 1;
      if sale.sku.Some? && sale.sku.value in stock {
        var k := sale.sku.value;
        var left := stock[k] - sale.quantity;
        stock := stock[k := if floor && left < 0 then 0 else left];
      }
    }

    // The loop over the items; the subtotal is added up on the way.
    method CreateQuickItems(o: int, shop: int, items: seq<O.ItemData>) returns (subtotal: real)
      modifies this
      ensures State() == O.SellAll(old(State()), o, O.QuickSales(old(State()), shop, items), true)
      ensures subtotal == O.SalesTotal(O.QuickSales(old(State()), shop, items))
    {
      ghost var start := State();
      subtotal := 0.0;
      for i := 0 to |items|
        invariant products == start.products && skus == start.skus
        invariant O.SellAll(State(), o, O.QuickSales(start, shop, items[i..]), true)
               == O.SellAll(start, o, O.QuickSales(start, shop, items), true)
        invariant subtotal + O.SalesTotal(O.QuickSales(start, shop, items[i..]))
               == O.SalesTotal(O.QuickSales(start, shop, items))
      {
        QuickSalesStep(start, shop, items, i);
        var sale := FindQuickSale(shop, items[i]);
        assert sale == O.QuickSale(start, shop, items[i]);
        if sale.Some? {
          subtotal := subtotal + sale.value.totalPrice;
          SellItem(o, sale.value, true);
        }
      }
      assert items[|items|..] == [];
    }

    method CreateQuickOrder(shop: int, kind: OrderType, items: seq<O.ItemData>)
      requires !O.Rejected(items)
      modifies this
      ensures State() == O.QuickOrder(old(State()), shop, kind, items)
    {
      var o := InsertOrder(O.QuickOrderRow(shop, kind, 0.0));
      QuickSalesSameCatalogue(old(State()), State(), shop, items);
      O.SellAllKeeps(State(), o, O.QuickSales(State(), shop, items), true);
      var subtotal := CreateQuickItems(o, shop, items);
      orders := orders[o := O.QuickOrderRow(shop, kind, subtotal)];
    }

    // The lookups of one quick-order item.
    method FindQuickSale(shop: int, item: O.ItemData) returns (sale: Option<O.Sale>)
      ensures sale == O.QuickSale(State(), shop, item)
    {
      if item.product !in products || products[item.product].shop != shop {
        return None;
      }
      var price := products[item.product].basePrice;
      var sku: Option<int> := None;
      if Given(item.sku) {
        if item.sku.value !in skus || skus[item.sku.value].product != item.product {
          return None;
        }
        price, sku := skus[item.sku.value].price, item.sku;
      }
      sale := Some(O.Sale(item.product, sku, price, item.quantity, Price(price, item.quantity)));
    }

    method CreateItemsFromCart(o: int, user: int)
      requires user in carts
      modifies this
      ensures State() == O.SellAll(old(State()), o, O.CartSales(old(carts[user].items)), false).(carts := carts)
      ensures carts == old(carts)[user := old(carts[user]).(items := [])]
    {
      var items := carts[user].items;
      O.SellAllKeeps(State(), o, O.CartSales(items), false);
      for i := 0 to |items|
        invariant carts == old(carts)
        invariant O.SellAll(State(), o, O.CartSales(items[i..]), false)
               == O.SellAll(old(State()), o, O.CartSales(items), false)
      {
        assert items[i..][1..] == items[i + 1..];
        assert O.CartSales(items[i..])[1..] == O.CartSales(items[i + 1..]);
        SellItem(o, O.CartSale(items[i]), false);
      }
      carts := carts[user := carts[user].(items := [])];
    }

    method LookUpPrice(product: int, sku: Option<int>) returns (price: Option<real>)
      ensures price == O.UnitPrice(State(), product, sku)
    {
      if product !in products {
        return None;
      }
      if !Given(sku) {
        return Some(products[product].basePrice);
      }
      if sku.value in skus {
        return Some(skus[sku.value].price);
      }
      price := None;
    }

    // False when an item raises; the caller rolls back.
    method CreateItemsFromData(o: int, items: seq<O.ItemData>) returns (ok: bool)
      modifies this
      ensures ok == O.DataSales(old(State()), items).Some?
      ensures ok ==> State() == O.SellAll(old(State()), o, O.DataSales(old(State()), items).value, false)
    {
      ghost var start := State();
      for i := 0 to |items|
        invariant products == start.products && skus == start.skus
        invariant O.DataSales(start, items).None? <==> O.DataSales(start, items[i..]).None?
        invariant O.DataSales(start, items).Some? ==>
                    O.SellAll(State(), o, O.DataSales(start, items[i..]).value, false)
                    == O.SellAll(start, o, O.DataSales(start, items).value, false)
      {
        assert items[i..][1..] == items[i + 1..];
        var item := items[i];
        var price := LookUpPrice(item.product, item.sku);
        assert price == O.UnitPrice(start, item.product, item.sku);
        if price.None? || item.quantity < 0 {
          return false;
        }
        var sku := if Given(item.sku) then item.sku else None;
        ghost var rest := O.DataSales(start, items[i..]);
        if rest.Some? {
          assert rest.value[1..] == O.DataSales(start, items[i + 1..]).value;
        }
        SellItem(o, O.Sale(item.product, sku, price.value, item.quantity, Price(price.value, item.quantity)), false);
      }
      ok := true;
    }

    method CalculateOrderTotals(o: int, fee: real)
      requires o in orders
      modifies this
      ensures State() == O.CalculateTotals(old(State()), o, fee)
    {
      var subtotal := SumOfItems(o);
      var deliveryFee := 0.0;
      if orders[o].kind == Delivery {
        deliveryFee := fee;
      }
      orders := orders[o := orders[o].(subtotal := subtotal, deliveryFee := deliveryFee,
                                       total := subtotal + deliveryFee - orders[o].discount)];
    }

    method FillFromCart(o: int, user: int, cart: Option<int>, fee: real)
      requires o in orders && (Given(cart) ==> user in carts)
      modifies this
      ensures State() == O.CartPart(old(State()), o, user, cart, fee)
    {
      if Given(cart) {
        O.SellAllKeeps(State(), o, O.CartSales(carts[user].items), false);
        CreateItemsFromCart(o, user);
        CalculateOrderTotals(o, fee);
      }
    }

    method FillFromData(o: int, items: seq<O.ItemData>, fee: real) returns (ok: bool)
      requires o in orders
      modifies this
      ensures ok == O.CheckoutItems(old(State()), o, items, fee).Some?
      ensures ok ==> State() == O.CheckoutItems(old(State()), o, items, fee).value
    {
      if items == [] {
        return true;
      }
      O.SellAllKeeps(State(), o, O.DataSales(State(), items).GetOr([]), false);
      ok := CreateItemsFromData(o, items);
      if ok {
        CalculateOrderTotals(o, fee);
      }
    }

    method CreateOrder(shop: int, user: int, cart: Option<int>, kind: OrderType, fee: real, items: seq<O.ItemData>)
      returns (order: Option<int>)
      modifies this
      ensures match O.Checkout(old(State()), shop, user, cart, kind, fee, items)
              case Some(d) => order == Some(old(nextOrder)) && State() == d
              case None => order == None && State() == old(State())
    {
      var saved := Savepoint();
      var o := InsertOrder(O.NewOrder(shop, kind));
      if Given(cart) && (user !in carts || carts[user].id != cart.value) {
        return Some(o);
      }
      FillFromCart(o, user, cart, fee);
      var ok := FillFromData(o, items, fee);
      if !ok {
        Rollback(saved);
        return None;
      }
      orders := orders[o := O.Logged(orders[o], Pending, Pending)];
      order := Some(o);
    }

    // ---------- carts ----------

    method GetOrCreateCart(user: int)
      modifies this
      ensures State() == O.WithCart(old(State()), user)
    {
      if user !in carts {
        carts, nextCart := carts[user := Cart(nextCart, [])], nextCart + 1;
      }
    }

    // False when the request is answered with an error.
    method AddToCart(user: int, product: int, sku: Option<int>, quantity: int, surcharge: Option<real>)
      returns (ok: bool)
      modifies this
      ensures State() == O.AddItem(old(State()), user, product, sku, quantity, surcharge)
      ensures ok <==> quantity >= 1 && O.UnitPrice(old(State()), product, sku).Some? && (sku.Some? ==> Given(sku))
    {
      if quantity < 1 {
        return false;
      }
      GetOrCreateCart(user);
      var price := LookUpPrice(product, sku);
      if price.None? || (sku.Some? && !Given(sku)) {
        return false;
      }
      var items := carts[user].items;
      var found := O.FindCartItem(items, product, sku);
      if found.None? {
        items := items + [CartItem(product, sku, quantity, price.value, surcharge.GetOr(0.0))];
      } else {
        var line := items[found.value];
        line := line.(quantity := line.quantity + quantity);
        if surcharge.Some? {
          line := line.(surcharge := surcharge.value);
        }
        items := items[found.value := line];
      }
      carts := carts[user := carts[user].(items := items)];
      ok := true;
    }

    method ClearCart(user: int)
      modifies this
      ensures State() == O.ClearCart(old(State()), user)
    {
      GetOrCreateCart(user);
      carts := carts[user := carts[user].(items := [])];
    }

    // ---------- order status ----------

    method UpdateStatus(o: int, status: Status)
      modifies this
      ensures State() == O.SetStatus(old(State()), o, status)
    {
      if o in orders {
        var before := orders[o].status;
        var row := StatusChange(before, status);
        orders := orders[o := orders[o].(status := status, history := orders[o].history + [row])];
      }
    }

    method CancelOrder(o: int) returns (ok: bool)
      modifies this
      ensures State() == O.Cancel(old(State()), o)
      ensures ok <==> o in old(orders) && O.Cancellable(old(orders[o].status))
    {
      if o !in orders || !O.Cancellable(orders[o].status) {
        return false;
      }
      var before := orders[o].status;
      orders := orders[o := orders[o].(status := Cancelled)];
      for i := 0 to |lines|
        invariant State() == old(State()).(orders := orders, stock := stock)
        invariant orders == old(orders)[o := old(orders[o]).(status := Cancelled)]
        invariant O.Restocked(stock, lines[i..], o) == O.Restocked(old(stock), lines, o)
      {
        assert lines[i..][1..] == lines[i + 1..];
        var item := lines[i];
        if item.order == o && item.sku.Some? && item.sku.value in stock {
          stock := stock[item.sku.value := stock[item.sku.value] + item.quantity];
        }
      }
      orders := orders[o := orders[o].(history := orders[o].history + [StatusChange(before, Cancelled)])];
      ok := true;
    }

    method PaymentCallback(o: int)
      modifies this
      ensures State() == O.PaymentArrived(old(State()), o)
    {
      if o in orders {
        orders := orders[o := orders[o].(status := Status.Paid, paid := true)];
      }
    }

    // ---------- stock ----------

    method AdjustStock(shop: int, k: int, kind: I.Adjustment, quantity: int) returns (ok: bool)
      modifies this
      ensures State() == I.Adjust(old(State()), shop, k, kind, quantity)
      ensures ok <==> I.SkuOf(old(State()), shop, k) && quantity >= 1
    {
      var db := Savepoint();
      if !I.SkuOf(db, shop, k) || quantity < 1 {
        return false;
      }
      var change := quantity;
      if kind == I.Increase {
        stock := stock[k := stock[k] + quantity];
      } else {
        change := -quantity;
        stock := stock[k := Max(0, stock[k] - quantity)];
      }
      stockLog := stockLog[k := stockLog[k] + [StockLog(change, stock[k])]];
      ok := true;
    }

    method BulkStockUpdate(shop: int, updates: seq<I.StockUpdate>) returns (results: seq<UpdateResult>)
      modifies this
      ensures State() == I.BulkUpdate(old(State()), shop, updates)
      ensures results == UpdateResults(old(State()), shop, updates)
    {
      results := [];
      for i := 0 to |updates|
        invariant forall k :: I.SkuOf(State(), shop, k) <==> I.SkuOf(old(State()), shop, k)
        invariant I.BulkUpdate(State(), shop, updates[i..]) == I.BulkUpdate(old(State()), shop, updates)
        invariant results + UpdateResults(old(State()), shop, updates[i..])
               == UpdateResults(old(State()), shop, updates)
      {
        assert updates[i..][1..] == updates[i + 1..];
        var u := updates[i];
        var db := Savepoint();
        if I.SkuOf(db, shop, u.sku) {
          var before := stock[u.sku];
          stock := stock[u.sku := u.stock];
          if before != u.stock {
            stockLog := stockLog[u.sku := stockLog[u.sku] + [StockLog(u.stock - before, u.stock)]];
          } else {
            assert stockLog[u.sku] + [] == stockLog[u.sku];
            assert stockLog == stockLog[u.sku := stockLog[u.sku]];
          }
          results := results + [Updated(u.sku, u.stock)];
        } else {
          results := results + [SkuMissing(u.sku)];
        }
        assert State() == I.UpdateOne(db, shop, u);
      }
    }

    // ---------- requests ----------

    predicate InShop(shop: int, o: int)
      reads this
    {
      o in orders && orders[o].shop == shop
    }

    // One request to the till.
    method HandleTill(step: L.Step)
      requires step.QuickOrderStep? || step.DiscountStep? || step.SplitStep? || step.MergeStep?
      modifies this
      ensures State() == L.Apply(old(State()), step)
    {
      match step
      case QuickOrderStep(shop, kind, items) =>
        if !O.Rejected(items) {
          CreateQuickOrder(shop, kind, items);
        }
      case DiscountStep(o, kind, value) =>
        if o in orders {
          var _ := ApplyDiscount(o, kind, value);
        }
      case SplitStep(shop, o, entries) =>
        if InShop(shop, o) && o != nextOrder {
          var _ := SplitOrder(o, entries);
        }
      case MergeStep(shop, main, ids) =>
        if InShop(shop, main) {
          MergeOrders(shop, main, ids);
        }
    }

    // One request to a cart, for a checkout or about an order's status.
    method HandleOrder(step: L.Step)
      requires step.AddItemStep? || step.ClearCartStep? || step.CheckoutStep?
               || step.StatusStep? || step.CancelStep? || step.PaymentStep?
      modifies this
      ensures State() == L.Apply(old(State()), step)
    {
      match step
      case AddItemStep(user, product, sku, quantity, surcharge) =>
        var _ := AddToCart(user, product, sku, quantity, surcharge);
      case ClearCartStep(user) => ClearCart(user);
      case CheckoutStep(shop, user, cart, kind, fee, items) =>
        var _ := CreateOrder(shop, user, cart, kind, fee, items);
      case StatusStep(shop, o, status) =>
        if InShop(shop, o) {
          UpdateStatus(o, status);
        }
      case CancelStep(shop, o) =>
        if InShop(shop, o) {
          var _ := CancelOrder(o);
        }
      case PaymentStep(o) => PaymentCallback(o);
    }

    // Any request, from finding the order to rolling back.
    method Handle(step: L.Step)
      modifies this
      ensures State() == L.Apply(old(State()), step)
      ensures old(State()).Valid() ==> State().Valid()
    {
      if old(State()).Valid() {
        L.ApplyValid(State(), step);
      }
      match step
      case StockTakeStep(AdjustStep(shop, k, kind, quantity)) =>
        var _ := AdjustStock(shop, k, kind, quantity);
      case StockTakeStep(BulkStep(shop, updates)) =>
        var _ := BulkStockUpdate(shop, updates);
      case QuickOrderStep(_, _, _) => HandleTill(step);
      case DiscountStep(_, _, _) => HandleTill(step);
      case SplitStep(_, _, _) => HandleTill(step);
      case MergeStep(_, _, _) => HandleTill(step);
      case _ => HandleOrder(step);
    }
  }

  lemma {:induction false} QuickSalesSameCatalogue(a: Db, b: Db, shop: int, items: seq<O.ItemData>)
    requires a.products == b.products && a.skus == b.skus
    ensures O.QuickSales(a, shop, items) == O.QuickSales(b, shop, items)
  {
    if items != [] {
      QuickSalesSameCatalogue(a, b, shop, items[1..]);
    }
  }

  // What item `i` adds to the sales of a quick order.
  lemma QuickSalesStep(db: Db, shop: int, items: seq<O.ItemData>, i: nat)
    requires i < |items|
    ensures var sale := O.QuickSale(db, shop, items[i]);
            var these, rest := O.QuickSales(db, shop, items[i..]), O.QuickSales(db, shop, items[i + 1..]);
            if sale.Some?
            then these != [] && these[0] == sale.value && these[1..] == rest
                 && O.SalesTotal(these) == sale.value.totalPrice + O.SalesTotal(rest)
            else these == rest
  {
  }
}
