// What checkout, quick orders and cancelling do to lines, money and stock, and that
// cancelling undoes a sale.

module OrderEffects {
  import opened Wrappers
  import opened Sums
  import opened ShopData
  import opened Pos
  import opened PosSplit
  import opened Orders

  // ---------- selling a list ----------

  function Rows(sales: seq<Sale>, id: int, o: int): seq<Line> {
    if sales == [] then [] else [SoldLine(sales[0], id, o)] + Rows(sales[1..], id + 1, o)
  }

  function SoldAt(sale: Sale, k: int): int {
    if sale.sku == Some(k) then sale.quantity else 0
  }

  // Units of SKU `k` sold.
  function Quantity(sales: seq<Sale>, k: int): int {
    SumInt(sales, (s: Sale) => SoldAt(s, k))
  }

  ghost predicate Sells(sales: seq<Sale>, k: int) {
    exists i :: 0 <= i < |sales| && sales[i].sku == Some(k)
  }

  // The stock of SKU `k` after the sales: one subtraction of the total, with the floor
  // applied once.
  ghost function StockAfter(stock: int, sales: seq<Sale>, k: int, floor: bool): int {
    if floor && Sells(sales, k) then Max(0, stock - Quantity(sales, k)) else stock - Quantity(sales, k)
  }

  lemma {:induction false} NotSoldNoUnits(sales: seq<Sale>, k: int)
    requires !Sells(sales, k)
    ensures Quantity(sales, k) == 0
  {
    if sales != [] {
      assert sales[0].sku != Some(k);
      assert !Sells(sales[1..], k) by {
        assert forall i :: 0 <= i < |sales| - 1 ==> sales[1..][i] == sales[i + 1];
      }
      NotSoldNoUnits(sales[1..], k);
      SumIntSame(sales[1..], (s: Sale) => SoldAt(s, k), (s: Sale) => SoldAt(s, k));
    }
  }

  lemma {:induction false} QuantityNonNegative(sales: seq<Sale>, k: int)
    requires forall i :: 0 <= i < |sales| ==> sales[i].quantity >= 0
    ensures Quantity(sales, k) >= 0
  {
    SumIntNonNegative(sales, (s: Sale) => SoldAt(s, k));
  }

  lemma QuantityOfFirst(sales: seq<Sale>, k: int)
    requires sales != []
    ensures Quantity(sales, k) == SoldAt(sales[0], k) + Quantity(sales[1..], k)
    ensures Sells(sales, k) <==> sales[0].sku == Some(k) || Sells(sales[1..], k)
  {
  }

  lemma {:induction false} SellAllStock(db: Db, o: int, sales: seq<Sale>, floor: bool, k: int)
    requires floor ==> forall i :: 0 <= i < |sales| ==> sales[i].quantity >= 0
    requires k in db.stock
    ensures SellAll(db, o, sales, floor).stock.Keys == db.stock.Keys
    ensures SellAll(db, o, sales, floor).stock[k] == StockAfter(db.stock[k], sales, k, floor)
    decreases |sales|
  {
    if sales != [] {
      SellAllStock(Sell(db, o, sales[0], floor), o, sales[1..], floor, k);
      QuantityOfFirst(sales, k);
      if floor {
        QuantityNonNegative(sales[1..], k);
        if !Sells(sales[1..], k) {
          NotSoldNoUnits(sales[1..], k);
        }
      }
    }
  }

  lemma {:induction false} SellAllKeys(db: Db, o: int, sales: seq<Sale>, floor: bool)
    ensures SellAll(db, o, sales, floor).stock.Keys == db.stock.Keys
    decreases |sales|
  {
    if sales != [] {
      SellAllKeys(Sell(db, o, sales[0], floor), o, sales[1..], floor);
    }
  }

  lemma {:induction false} SellAllRows(db: Db, o: int, sales: seq<Sale>, floor: bool)
    ensures var d := SellAll(db, o, sales, floor);
      && d.lines == db.lines + Rows(sales, db.nextLine, o)
      && d.nextLine == db.nextLine + |sales|
    decreases |sales|
  {
    if sales == [] {
      assert db.lines + Rows(sales, db.nextLine, o) == db.lines;
    } else {
      var one := Sell(db, o, sales[0], floor);
      SellAllRows(one, o, sales[1..], floor);
      assert db.lines + ([SoldLine(sales[0], db.nextLine, o)] + Rows(sales[1..], db.nextLine + 1, o))
          == one.lines + Rows(sales[1..], one.nextLine, o);
    }
  }

  ghost predicate SaleOk(db: Db, sale: Sale) {
    sale.quantity >= 0 && (sale.sku.Some? ==> sale.sku.value in db.skus)
  }

  lemma {:induction false} SellAllValid(db: Db, o: int, sales: seq<Sale>, floor: bool)
    requires db.Valid() && o in db.orders
    requires forall i :: 0 <= i < |sales| ==> SaleOk(db, sales[i])
    ensures SellAll(db, o, sales, floor).Valid()
    decreases |sales|
  {
    if sales != [] {
      assert SaleOk(db, sales[0]);
      AppendValid(db, db.lines, SoldLine(sales[0], db.nextLine, o));
      var grown := db.(lines := db.lines + [SoldLine(sales[0], db.nextLine, o)], nextLine := db.nextLine + 1);
      var one := Sell(db, o, sales[0], floor);
      forall i | 0 <= i < |one.lines| ensures one.LineOk(one.lines[i]) {
        assert grown.LineOk(grown.lines[i]);
      }
      forall i | 0 <= i < |sales[1..]| ensures SaleOk(one, sales[1..][i]) {
        assert SaleOk(db, sales[i + 1]);
      }
      SellAllValid(one, o, sales[1..], floor);
    }
  }

  // The lines of a sale carry its units and its money.
  lemma {:induction false} RowsMeasures(sales: seq<Sale>, id: int, o: int, s: set<int>, k: int)
    ensures Units(Rows(sales, id, o), s, OfSku(k)) == if o in s then Quantity(sales, k) else 0
    ensures Money(Rows(sales, id, o), s) == if o in s then SalesTotal(sales) else 0.0
  {
    if sales != [] {
      RowsMeasures(sales[1..], id + 1, o, s, k);
      QuantityOfFirst(sales, k);
      var rows := Rows(sales, id, o);
      assert rows[1..] == Rows(sales[1..], id + 1, o);
      assert UnitsOn(s, OfSku(k))(rows[0]) == if o in s then SoldAt(sales[0], k) else 0;
      SumRealSame(sales[1..], (x: Sale) => x.totalPrice, (x: Sale) => x.totalPrice);
    }
  }

  // Appending the lines of a sale to a table that has none for order `o`.
  lemma SaleMeasures(lines: seq<Line>, sales: seq<Sale>, id: int, o: int, s: set<int>, k: int)
    ensures var after := lines + Rows(sales, id, o);
      && Units(after, s, OfSku(k)) == Units(lines, s, OfSku(k)) + (if o in s then Quantity(sales, k) else 0)
      && Money(after, s) == Money(lines, s) + (if o in s then SalesTotal(sales) else 0.0)
  {
    RowsMeasures(sales, id, o, s, k);
    SumIntConcat(lines, Rows(sales, id, o), UnitsOn(s, OfSku(k)));
    SumRealConcat(lines, Rows(sales, id, o), MoneyOn(s));
  }

  lemma FreshOrderHasNoLines(db: Db)
    requires db.Valid()
    ensures Money(db.lines, {db.nextOrder}) == 0.0
    ensures forall c :: Units(db.lines, {db.nextOrder}, c) == 0
  {
    forall i | 0 <= i < |db.lines| ensures db.lines[i].order !in {db.nextOrder} {
      assert db.LineOk(db.lines[i]);
    }
    NoLinesNoMoney(db.lines, {db.nextOrder});
  }

  // ---------- checkout ----------

  // Everything a checkout sells, cart first.
  function CheckoutSales(db: Db, user: int, cart: Option<int>, items: seq<ItemData>): seq<Sale> {
    (if HasCart(db, user, cart) then CartSales(db.carts[user].items) else []) +
    (if Given(cart) && !HasCart(db, user, cart) then [] else DataSales(db, items).GetOr([]))
  }

  // A cart that does not exist: the order stays empty and gets no status log.
  predicate CartMissing(db: Db, user: int, cart: Option<int>) {
    Given(cart) && !HasCart(db, user, cart)
  }

  // The order a checkout stores.
  function CheckedOut(db: Db, shop: int, user: int, cart: Option<int>, kind: OrderType, fee: real,
                      items: seq<ItemData>): Order
  {
    var empty := NewOrder(shop, kind);
    if CartMissing(db, user, cart) then empty
    else if !Given(cart) && items == [] then Logged(empty, Pending, Pending)
    else Logged(Totalled(empty, SalesTotal(CheckoutSales(db, user, cart, items)), fee), Pending, Pending)
  }

  lemma {:induction false} CartSalesOk(db: Db, items: seq<CartItem>)
    requires forall i :: 0 <= i < |items| ==> CartItemOk(db.skus, items[i])
    ensures forall i :: 0 <= i < |CartSales(items)| ==> SaleOk(db, CartSales(items)[i])
    ensures SalesTotal(CartSales(items)) == CartTotal(items)
  {
    if items != [] {
      assert CartItemOk(db.skus, items[0]);
      forall i | 0 <= i < |items[1..]| ensures CartItemOk(db.skus, items[1..][i]) {
        assert CartItemOk(db.skus, items[i + 1]);
      }
      CartSalesOk(db, items[1..]);
      SalesTotalOfFirst(CartSales(items));
    }
  }

  lemma {:induction false} DataSalesOk(db: Db, items: seq<ItemData>)
    requires DataSales(db, items).Some?
    ensures forall i :: 0 <= i < |DataSales(db, items).value| ==> SaleOk(db, DataSales(db, items).value[i])
  {
    if items != [] {
      DataSalesOk(db, items[1..]);
    }
  }

  lemma SalesTotalOfFirst(sales: seq<Sale>)
    requires sales != []
    ensures SalesTotal(sales) == sales[0].totalPrice + SalesTotal(sales[1..])
  {
  }

  lemma {:induction false} DataSalesSameCatalogue(a: Db, b: Db, items: seq<ItemData>)
    requires a.products == b.products && a.skus == b.skus
    ensures DataSales(a, items) == DataSales(b, items)
  {
    if items != [] {
      DataSalesSameCatalogue(a, b, items[1..]);
    }
  }

  lemma {:induction false} SellAllConcat(db: Db, o: int, a: seq<Sale>, b: seq<Sale>, floor: bool)
    ensures SellAll(db, o, a + b, floor) == SellAll(SellAll(db, o, a, floor), o, b, floor)
    decreases |a|
  {
    if a == [] {
      assert a + b == b;
    } else {
      assert (a + b)[1..] == a[1..] + b;
      SellAllConcat(Sell(db, o, a[0], floor), o, a[1..], b, floor);
    }
  }

  // Orders and carts do not matter to a sale.
  lemma {:induction false} SellAllFrame(a: Db, b: Db, o: int, sales: seq<Sale>, floor: bool)
    requires a.lines == b.lines && a.nextLine == b.nextLine && a.stock == b.stock
    ensures var x, y := SellAll(a, o, sales, floor), SellAll(b, o, sales, floor);
            x.lines == y.lines && x.nextLine == y.nextLine && x.stock == y.stock
    decreases |sales|
  {
    if sales != [] {
      SellAllFrame(Sell(a, o, sales[0], floor), Sell(b, o, sales[0], floor), o, sales[1..], floor);
    }
  }

  // The money on the fresh order after some of the sales.
  lemma FreshOrderMoney(db: Db, sales: seq<Sale>)
    requires db.Valid()
    ensures Money(db.lines + Rows(sales, db.nextLine, db.nextOrder), {db.nextOrder}) == SalesTotal(sales)
  {
    FreshOrderHasNoLines(db);
    SaleMeasures(db.lines, sales, db.nextLine, db.nextOrder, {db.nextOrder}, 0);
  }

  // `d` is `start` after the sales, up to its orders and carts.
  ghost predicate Sold(start: Db, d: Db, o: int, sales: seq<Sale>) {
    d == SellAll(start, o, sales, false).(orders := d.orders, carts := d.carts)
  }

  lemma CheckoutCartResult(db: Db, order: Order, user: int, fee: real)
    requires db.Valid() && user in db.carts
    ensures var o, sales := db.nextOrder, CartSales(db.carts[user].items);
            var start := WithNewOrder(db, order);
            var d := CheckoutCart(start, o, user, fee);
      && Sold(start, d, o, sales)
      && d.orders == db.orders[o := Totalled(order, SalesTotal(sales), fee)]
      && d.carts == db.carts[user := db.carts[user].(items := [])]
  {
    var o, sales := db.nextOrder, CartSales(db.carts[user].items);
    var start := WithNewOrder(db, order);
    SellAllKeeps(start, o, sales, false);
    SellAllRows(start, o, sales, false);
    FreshOrderMoney(db, sales);
  }

  lemma CheckoutItemsResult(db: Db, order: Order, d: Db, a: seq<Sale>, items: seq<ItemData>, fee: real)
    requires db.Valid() && db.nextOrder in d.orders && Sold(WithNewOrder(db, order), d, db.nextOrder, a)
    requires items != [] && CheckoutItems(d, db.nextOrder, items, fee).Some?
    ensures DataSales(db, items).Some?
    ensures var o := db.nextOrder;
            var d' := CheckoutItems(d, o, items, fee).value;
            var sales := a + DataSales(db, items).value;
      && Sold(WithNewOrder(db, order), d', o, sales)
      && d'.orders == d.orders[o := Totalled(d.orders[o], SalesTotal(sales), fee)]
      && d'.carts == d.carts
  {
    var o, start := db.nextOrder, WithNewOrder(db, order);
    var sold := SellAll(start, o, a, false);
    SellAllKeeps(start, o, a, false);
    DataSalesSameCatalogue(d, db, items);
    var b := DataSales(db, items).value;
    SellAllKeeps(d, o, b, false);
    SellAllKeeps(sold, o, b, false);
    SellAllFrame(d, sold, o, b, false);
    SellAllConcat(start, o, a, b, false);
    SellAllRows(start, o, a + b, false);
    FreshOrderMoney(db, a + b);
  }

  ghost predicate Lines(db: Db, order: Order, d: Db, sales: seq<Sale>) {
    Sold(WithNewOrder(db, order), d, db.nextOrder, sales)
  }

  function CartPartSales(db: Db, user: int, cart: Option<int>): seq<Sale> {
    if HasCart(db, user, cart) then CartSales(db.carts[user].items) else []
  }

  function CartsAfter(db: Db, user: int, cart: Option<int>): map<int, Cart> {
    if HasCart(db, user, cart) then db.carts[user := db.carts[user].(items := [])] else db.carts
  }

  lemma CartPartResult(db: Db, order: Order, user: int, cart: Option<int>, fee: real)
    requires db.Valid() && !CartMissing(db, user, cart)
    ensures var d := CartPart(WithNewOrder(db, order), db.nextOrder, user, cart, fee);
            var sales := CartPartSales(db, user, cart);
      && Lines(db, order, d, sales)
      && d.orders == db.orders[db.nextOrder := if Given(cart) then Totalled(order, SalesTotal(sales), fee) else order]
      && d.carts == CartsAfter(db, user, cart)
  {
    if Given(cart) {
      CheckoutCartResult(db, order, user, fee);
    }
  }

  lemma Overwritten(orders: map<int, Order>, o: int, x: Order, y: Order)
    ensures orders[o := x][o := y] == orders[o := y]
  {
  }

  lemma NoItemsResult(db: Db, order: Order, user: int, cart: Option<int>, fee: real)
    requires db.Valid() && !CartMissing(db, user, cart)
    ensures var d := CartPart(WithNewOrder(db, order), db.nextOrder, user, cart, fee);
            var sales := CheckoutSales(db, user, cart, []);
      && Lines(db, order, d, sales)
      && d.orders == db.orders[db.nextOrder := if Given(cart) then Totalled(order, SalesTotal(sales), fee) else order]
      && d.carts == CartsAfter(db, user, cart)
  {
    CartPartResult(db, order, user, cart, fee);
    assert CheckoutSales(db, user, cart, []) == CartPartSales(db, user, cart);
  }

  lemma SomeItemsResult(db: Db, order: Order, user: int, cart: Option<int>, fee: real, items: seq<ItemData>)
    requires db.Valid() && !CartMissing(db, user, cart) && items != []
    requires var d := CartPart(WithNewOrder(db, order), db.nextOrder, user, cart, fee);
             CheckoutItems(d, db.nextOrder, items, fee).Some?
    ensures var o, sales := db.nextOrder, CheckoutSales(db, user, cart, items);
            var d := CheckoutItems(CartPart(WithNewOrder(db, order), o, user, cart, fee), o, items, fee).value;
      && Lines(db, order, d, sales)
      && d.orders == db.orders[o := Totalled(order, SalesTotal(sales), fee)]
      && d.carts == CartsAfter(db, user, cart)
  {
    var o, a := db.nextOrder, CartPartSales(db, user, cart);
    var d := CartPart(WithNewOrder(db, order), o, user, cart, fee);
    CartPartResult(db, order, user, cart, fee);
    CheckoutItemsResult(db, order, d, a, items, fee);
    var sales := a + DataSales(db, items).value;
    assert CheckoutSales(db, user, cart, items) == sales;
    Overwritten(db.orders, o, d.orders[o], Totalled(d.orders[o], SalesTotal(sales), fee));
    assert Totalled(d.orders[o], SalesTotal(sales), fee) == Totalled(order, SalesTotal(sales), fee);
  }

  // The order row with its first log entry.
  lemma FirstLogResult(db: Db, order: Order, row: Order, d: Db, sales: seq<Sale>)
    requires Lines(db, order, d, sales) && d.orders == db.orders[db.nextOrder := row]
    ensures var r := WithFirstLog(d, db.nextOrder);
      && Lines(db, order, r, sales) && r.carts == d.carts
      && r.orders == db.orders[db.nextOrder := Logged(row, Pending, Pending)]
  {
  }

  // A checkout in one step: its sales are sold on a new order, whose amounts are the
  // sums of the sales, and the cart is empty.
  lemma CheckoutResult(db: Db, shop: int, user: int, cart: Option<int>, kind: OrderType, fee: real,
                       items: seq<ItemData>)
    requires db.Valid() && Checkout(db, shop, user, cart, kind, fee, items).Some?
    ensures var d, o := Checkout(db, shop, user, cart, kind, fee, items).value, db.nextOrder;
      && Lines(db, NewOrder(shop, kind), d, CheckoutSales(db, user, cart, items))
      && d.orders == db.orders[o := CheckedOut(db, shop, user, cart, kind, fee, items)]
      && d.carts == CartsAfter(db, user, cart)
  {
    var o, order, sales := db.nextOrder, NewOrder(shop, kind), CheckoutSales(db, user, cart, items);
    if CartMissing(db, user, cart) {
      assert sales == [];
    } else {
      var part := CartPart(WithNewOrder(db, order), o, user, cart, fee);
      if items == [] {
        NoItemsResult(db, order, user, cart, fee);
      } else {
        SomeItemsResult(db, order, user, cart, fee, items);
      }
      var d := CheckoutItems(part, o, items, fee).value;
      FirstLogResult(db, order, d.orders[o], d, sales);
    }
  }

  lemma CheckoutSalesOk(db: Db, user: int, cart: Option<int>, items: seq<ItemData>)
    requires db.Valid()
    ensures var sales := CheckoutSales(db, user, cart, items);
            forall i :: 0 <= i < |sales| ==> SaleOk(db, sales[i])
  {
    if HasCart(db, user, cart) {
      assert CartOk(db.skus, db.carts[user].items);
      CartSalesOk(db, db.carts[user].items);
    }
    if DataSales(db, items).Some? {
      DataSalesOk(db, items);
    }
  }

  // ---------- quick order ----------

  lemma {:induction false} QuickSalesOk(db: Db, shop: int, items: seq<ItemData>)
    requires !Rejected(items)
    ensures forall i :: 0 <= i < |QuickSales(db, shop, items)| ==> SaleOk(db, QuickSales(db, shop, items)[i])
  {
    if items != [] {
      assert items[0].quantity >= 1;
      forall i | 0 <= i < |items[1..]| ensures items[1..][i].quantity >= 1 {
        assert items[1..][i] == items[i + 1];
      }
      QuickSalesOk(db, shop, items[1..]);
    }
  }

  // A quick order in one step: the skipped items leave no trace, and the accumulated
  // subtotal is the sum of the lines it created.
  lemma QuickOrderResult(db: Db, shop: int, kind: OrderType, items: seq<ItemData>)
    requires db.Valid() && !Rejected(items)
    ensures var d, o, sales := QuickOrder(db, shop, kind, items), db.nextOrder, QuickSales(db, shop, items);
      && d == SellAll(WithNewOrder(db, QuickOrderRow(shop, kind, 0.0)), o, sales, true).(orders := d.orders)
      && d.orders == db.orders[o := QuickOrderRow(shop, kind, SalesTotal(sales))]
      && d.orders[o].subtotal == Money(d.lines, {o})
  {
    var o, sales := db.nextOrder, QuickSales(db, shop, items);
    var start := WithNewOrder(db, QuickOrderRow(shop, kind, 0.0));
    SellAllKeeps(start, o, sales, true);
    SellAllRows(start, o, sales, true);
    FreshOrderMoney(db, sales);
  }

  // ---------- cancelling ----------

  lemma {:induction false} RestockedUnits(stock: map<int, int>, lines: seq<Line>, o: int, k: int)
    requires k in stock
    ensures Restocked(stock, lines, o).Keys == stock.Keys
    ensures Restocked(stock, lines, o)[k] == stock[k] + Units(lines, {o}, OfSku(k))
  {
    if lines != [] {
      var l := lines[0];
      var stock' := if l.order == o && l.sku.Some? && l.sku.value in stock
                    then stock[l.sku.value := stock[l.sku.value] + l.quantity] else stock;
      RestockedUnits(stock', lines[1..], o, k);
      assert UnitsOn({o}, OfSku(k))(l) == stock'[k] - stock[k];
    }
  }

  lemma {:induction false} RestockedKeys(stock: map<int, int>, lines: seq<Line>, o: int)
    ensures Restocked(stock, lines, o).Keys == stock.Keys
  {
    if lines != [] {
      var l := lines[0];
      RestockedKeys(if l.order == o && l.sku.Some? && l.sku.value in stock
                    then stock[l.sku.value := stock[l.sku.value] + l.quantity] else stock, lines[1..], o);
    }
  }

  // Units of SKU `k` on the order just sold.
  lemma SoldUnits(db: Db, order: Order, sales: seq<Sale>, floor: bool, k: int)
    requires db.Valid()
    ensures Units(SellAll(WithNewOrder(db, order), db.nextOrder, sales, floor).lines, {db.nextOrder}, OfSku(k))
         == Quantity(sales, k)
  {
    SellAllRows(WithNewOrder(db, order), db.nextOrder, sales, floor);
    FreshOrderHasNoLines(db);
    SaleMeasures(db.lines, sales, db.nextLine, db.nextOrder, {db.nextOrder}, k);
  }

  // Restocking the lines of the order just sold.
  lemma RestockAfterSale(db: Db, order: Order, sales: seq<Sale>, floor: bool, k: int)
    requires db.Valid() && k in db.stock
    requires floor ==> forall i :: 0 <= i < |sales| ==> sales[i].quantity >= 0
    ensures var sold := SellAll(WithNewOrder(db, order), db.nextOrder, sales, floor);
            var after := Restocked(sold.stock, sold.lines, db.nextOrder);
            after.Keys == db.stock.Keys && after[k] == StockAfter(db.stock[k], sales, k, floor) + Quantity(sales, k)
  {
    var start, o := WithNewOrder(db, order), db.nextOrder;
    var sold := SellAll(start, o, sales, floor);
    SellAllStock(start, o, sales, floor, k);
    SoldUnits(db, order, sales, floor, k);
    RestockedUnits(sold.stock, sold.lines, o, k);
  }

  lemma RestockUndoesSale(db: Db, order: Order, sales: seq<Sale>)
    requires db.Valid()
    ensures var sold := SellAll(WithNewOrder(db, order), db.nextOrder, sales, false);
            Restocked(sold.stock, sold.lines, db.nextOrder) == db.stock
  {
    var start, o := WithNewOrder(db, order), db.nextOrder;
    var sold := SellAll(start, o, sales, false);
    RestockedKeys(sold.stock, sold.lines, o);
    SellAllKeys(start, o, sales, false);
    forall k | k in db.stock ensures Restocked(sold.stock, sold.lines, o)[k] == db.stock[k] {
      RestockAfterSale(db, order, sales, false, k);
    }
  }

  // Cancelling a checkout gives every SKU its stock back, also when the checkout had
  // taken it below zero.
  lemma CancelUndoesCheckout(db: Db, shop: int, user: int, cart: Option<int>, kind: OrderType, fee: real,
                             items: seq<ItemData>)
    requires db.Valid() && Checkout(db, shop, user, cart, kind, fee, items).Some?
    ensures var d := Cancel(Checkout(db, shop, user, cart, kind, fee, items).value, db.nextOrder);
            d.stock == db.stock && db.nextOrder in d.orders && d.orders[db.nextOrder].status == Cancelled
  {
    CheckoutResult(db, shop, user, cart, kind, fee, items);
    RestockUndoesSale(db, NewOrder(shop, kind), CheckoutSales(db, user, cart, items));
  }

  // Cancelling a quick order leaves max(stock, units sold) of a SKU that it sold, and the
  // stock of the other SKUs as it was.
  lemma CancelAfterQuickOrder(db: Db, shop: int, kind: OrderType, items: seq<ItemData>, k: int)
    requires db.Valid() && !Rejected(items) && k in db.stock
    ensures var d := Cancel(QuickOrder(db, shop, kind, items), db.nextOrder);
            var sales := QuickSales(db, shop, items);
      && k in d.stock
      && d.stock[k] == if Sells(sales, k) then Max(db.stock[k], Quantity(sales, k)) else db.stock[k]
  {
    var sales := QuickSales(db, shop, items);
    QuickOrderResult(db, shop, kind, items);
    QuickSalesOk(db, shop, items);
    forall i | 0 <= i < |sales| ensures sales[i].quantity >= 0 {
      assert SaleOk(db, sales[i]);
    }
    RestockAfterSale(db, QuickOrderRow(shop, kind, 0.0), sales, true, k);
    if !Sells(sales, k) {
      NotSoldNoUnits(sales, k);
    }
  }

  // ---------- carts ----------

  function QuantityOf(items: seq<CartItem>, product: int, sku: Option<int>): int {
    SumInt(items, (c: CartItem) => if c.product == product && c.sku == sku then c.quantity else 0)
  }

  // Adding to a cart keeps one line per product and SKU, adds the quantity to that line
  // and to no other, and keeps the unit price that the line was created with.
  lemma PutInCartCounts(items: seq<CartItem>, product: int, sku: Option<int>, quantity: int,
                        unitPrice: real, surcharge: Option<real>, p: int, s: Option<int>)
    requires UniqueLines(items)
    ensures var after := PutInCart(items, product, sku, quantity, unitPrice, surcharge);
      && UniqueLines(after)
      && QuantityOf(after, p, s) == QuantityOf(items, p, s) + (if p == product && s == sku then quantity else 0)
      && CartQuantity(after) == CartQuantity(items) + quantity
      && (forall i :: 0 <= i < |items| ==> after[i].unitPrice == items[i].unitPrice)
  {
    var v := (c: CartItem) => if c.product == p && c.sku == s then c.quantity else 0;
    var q := (c: CartItem) => c.quantity;
    var after := PutInCart(items, product, sku, quantity, unitPrice, surcharge);
    match FindCartItem(items, product, sku)
    case None =>
      var line := CartItem(product, sku, quantity, unitPrice, surcharge.GetOr(0.0));
      SumIntConcat(items, [line], v);
      SumIntConcat(items, [line], q);
      assert SumInt([line], v) == v(line) && SumInt([line], q) == q(line);
    case Some(i) =>
      assert after == items[..i] + [after[i]] + items[i + 1..];
      SumIntReplace(items, i, [after[i]], v, v);
      SumIntReplace(items, i, [after[i]], q, q);
      assert SumInt([after[i]], v) == v(after[i]) && SumInt([after[i]], q) == q(after[i]);
  }

  // ---------- prices ----------

  // Sold at the SKU's price if there is one, otherwise at the product's base price, and
  // without a surcharge.
  predicate ListPriced(db: Db, sale: Sale) {
    && sale.product in db.products
    && (sale.sku.Some? ==> sale.sku.value in db.skus && sale.unitPrice == db.skus[sale.sku.value].price)
    && (sale.sku.None? ==> sale.unitPrice == db.products[sale.product].basePrice)
    && sale.totalPrice == Price(sale.unitPrice, sale.quantity)
  }

  lemma {:induction false} DataSalesListPriced(db: Db, items: seq<ItemData>)
    requires DataSales(db, items).Some?
    ensures |DataSales(db, items).value| == |items|
    ensures forall i :: 0 <= i < |items| ==>
      && ListPriced(db, DataSales(db, items).value[i])
      && DataSales(db, items).value[i].product == items[i].product
      && DataSales(db, items).value[i].quantity == items[i].quantity
  {
    if items != [] {
      DataSalesListPriced(db, items[1..]);
    }
  }

  // The till sells only goods of its own shop, and a SKU only under its own product.
  lemma {:induction false} QuickSalesListPriced(db: Db, shop: int, items: seq<ItemData>)
    ensures forall i :: 0 <= i < |QuickSales(db, shop, items)| ==>
              var sale := QuickSales(db, shop, items)[i];
              && ListPriced(db, sale) && db.products[sale.product].shop == shop
              && (sale.sku.Some? ==> db.skus[sale.sku.value].product == sale.product)
  {
    if items != [] {
      QuickSalesListPriced(db, shop, items[1..]);
    }
  }

  // A checkout is rolled back exactly when it reaches the request items and one of them
  // names a product or SKU that does not exist or a negative quantity.
  lemma CheckoutRefusedIff(db: Db, shop: int, user: int, cart: Option<int>, kind: OrderType, fee: real,
                           items: seq<ItemData>)
    ensures Checkout(db, shop, user, cart, kind, fee, items).None? <==>
            !CartMissing(db, user, cart) &&
            exists i :: 0 <= i < |items| &&
              (UnitPrice(db, items[i].product, items[i].sku).None? || items[i].quantity < 0)
  {
    var start := WithNewOrder(db, NewOrder(shop, kind));
    if !CartMissing(db, user, cart) {
      var d := CartPart(start, db.nextOrder, user, cart, fee);
      if Given(cart) {
        SellAllKeeps(start, db.nextOrder, CartSales(db.carts[user].items), false);
      }
      DataSalesSameCatalogue(d, db, items);
      DataSalesNoneIff(db, items);
    }
  }

  lemma {:induction false} DataSalesNoneIff(db: Db, items: seq<ItemData>)
    ensures DataSales(db, items).None? <==>
            exists i :: 0 <= i < |items| &&
              (UnitPrice(db, items[i].product, items[i].sku).None? || items[i].quantity < 0)
  {
    if items != [] {
      DataSalesNoneIff(db, items[1..]);
      assert forall i :: 0 < i < |items| ==> items[i] == items[1..][i - 1];
      assert forall i :: 0 <= i < |items| - 1 ==> items[1..][i] == items[i + 1];
    }
  }

  lemma {:induction false} RowsLinear(db: Db, sales: seq<Sale>, id: int, o: int)
    requires forall i :: 0 <= i < |sales| ==> ListPriced(db, sales[i])
    ensures Linear(Rows(sales, id, o), o)
  {
    if sales != [] {
      assert ListPriced(db, sales[0]);
      forall i | 0 <= i < |sales[1..]| ensures ListPriced(db, sales[1..][i]) {
        assert sales[1..][i] == sales[i + 1];
      }
      RowsLinear(db, sales[1..], id + 1, o);
      var rows, rest := Rows(sales, id, o), Rows(sales[1..], id + 1, o);
      assert forall i :: 0 < i < |rows| ==> rows[i] == rest[i - 1];
    }
  }

  // ---------- what a split of a checked-out order will drop ----------

  // The surcharges of the cart lines whose order lines, numbered from `id`, the split data names.
  function TouchedSurcharges(items: seq<CartItem>, id: int, entries: seq<SplitEntry>): real {
    if items == [] then 0.0
    else (if Demands(entries, id) == [] then 0.0 else Price(items[0].surcharge, items[0].quantity)) +
         TouchedSurcharges(items[1..], id + 1, entries)
  }

  lemma CartSurcharge(c: CartItem)
    ensures CartPrice(c) - Price(c.unitPrice, c.quantity) == Price(c.surcharge, c.quantity)
  {
  }

  lemma {:induction false} RowsSurcharge(db: Db, items: seq<CartItem>, b: seq<Sale>, id: int, o: int,
                                         entries: seq<SplitEntry>)
    requires forall i :: 0 <= i < |b| ==> ListPriced(db, b[i])
    ensures SurchargeLost(Rows(CartSales(items) + b, id, o), o, entries) == TouchedSurcharges(items, id, entries)
    decreases |items|
  {
    if items == [] {
      assert CartSales(items) + b == b;
      RowsLinear(db, b, id, o);
      LinearLosesNothing(Rows(b, id, o), o, entries);
    } else {
      var sales := CartSales(items) + b;
      assert sales[0] == CartSale(items[0]) && sales[1..] == CartSales(items[1..]) + b;
      var rows := Rows(sales, id, o);
      assert rows[1..] == Rows(sales[1..], id + 1, o);
      RowsSurcharge(db, items[1..], b, id + 1, o, entries);
      CartSurcharge(items[0]);
      assert SurchargeOn(o, entries)(rows[0]) == SurchargeAt(rows[0], o, entries);
    }
  }

  // A split of an order that was checked out from a cart drops, for every cart line that it
  // touches, the surcharge on every unit, and nothing of the items ordered directly.
  lemma CheckoutSurchargeLost(db: Db, shop: int, user: int, cart: Option<int>, kind: OrderType, fee: real,
                              items: seq<ItemData>, entries: seq<SplitEntry>)
    requires db.Valid() && Checkout(db, shop, user, cart, kind, fee, items).Some?
    ensures SurchargeLost(Checkout(db, shop, user, cart, kind, fee, items).value.lines, db.nextOrder, entries)
         == if HasCart(db, user, cart) then TouchedSurcharges(db.carts[user].items, db.nextLine, entries) else 0.0
  {
    var d, o, sales := Checkout(db, shop, user, cart, kind, fee, items).value, db.nextOrder,
                       CheckoutSales(db, user, cart, items);
    var fromCart := if HasCart(db, user, cart) then db.carts[user].items else [];
    var direct := if CartMissing(db, user, cart) then [] else DataSales(db, items).GetOr([]);
    CheckoutResult(db, shop, user, cart, kind, fee, items);
    SellAllRows(WithNewOrder(db, NewOrder(shop, kind)), o, sales, false);
    assert d.lines == db.lines + Rows(sales, db.nextLine, o) && sales == CartSales(fromCart) + direct;
    SumRealConcat(db.lines, Rows(sales, db.nextLine, o), SurchargeOn(o, entries));
    forall i | 0 <= i < |db.lines| ensures db.lines[i].order != o {
      assert db.LineOk(db.lines[i]);
    }
    LinearLosesNothing(db.lines, o, entries);
    if DataSales(db, items).Some? {
      DataSalesListPriced(db, items);
    }
    RowsSurcharge(db, fromCart, direct, db.nextLine, o, entries);
  }
}
