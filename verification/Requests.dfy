// What a request comes to, read off the request and the tables it meets alone: prices,
// units, lines, carts, statuses and stock, without the functions that carry it out.

module Requests {
  import opened Wrappers
  import opened Sums
  import opened ShopData
  import opened Pos
  import opened PosSplit
  import opened PosMerge
  import opened Orders
  import opened OrderEffects
  import opened Inventory
  import opened Lifecycle

  // ---------- what the items of a request and of a cart stand for ----------

  function AskedSku(item: ItemData): Option<int> {
    if item.sku == Some(0) then None else item.sku
  }

  // The SKU's price, without a SKU the product's base price.
  function CatalogPrice(db: Db, product: int, sku: Option<int>): real {
    match sku
    case Some(k) => if k in db.skus then db.skus[k].price else 0.0
    case None => if product in db.products then db.products[product].basePrice else 0.0
  }

  function AskedPrice(db: Db, item: ItemData): real {
    CatalogPrice(db, item.product, AskedSku(item))
  }

  function AskedLine(db: Db, item: ItemData, id: int, o: int): Line {
    Line(id, o, item.product, AskedSku(item), AskedPrice(db, item), item.quantity,
         AskedPrice(db, item) * (item.quantity as real))
  }

  function AskedLines(db: Db, items: seq<ItemData>, id: int, o: int): seq<Line> {
    if items == [] then [] else [AskedLine(db, items[0], id, o)] + AskedLines(db, items[1..], id + 1, o)
  }

  // Units of SKU `k` that the items ask for.
  function AskedUnits(items: seq<ItemData>, k: int): int {
    if items == [] then 0
    else (if AskedSku(items[0]) == Some(k) then items[0].quantity else 0) + AskedUnits(items[1..], k)
  }

  function AskedMoney(db: Db, items: seq<ItemData>): real {
    if items == [] then 0.0
    else AskedPrice(db, items[0]) * (items[0].quantity as real) + AskedMoney(db, items[1..])
  }

  // The product exists, so does the SKU if one is given, and the quantity is not negative.
  predicate Orderable(db: Db, item: ItemData) {
    && item.product in db.products && item.quantity >= 0
    && (AskedSku(item).Some? ==> AskedSku(item).value in db.skus)
  }

  function CartLine(c: CartItem, id: int, o: int): Line {
    Line(id, o, c.product, c.sku, c.unitPrice, c.quantity, (c.unitPrice + c.surcharge) * (c.quantity as real))
  }

  function CartLines(items: seq<CartItem>, id: int, o: int): seq<Line> {
    if items == [] then [] else [CartLine(items[0], id, o)] + CartLines(items[1..], id + 1, o)
  }

  function CartUnits(items: seq<CartItem>, k: int): int {
    if items == [] then 0
    else (if items[0].sku == Some(k) then items[0].quantity else 0) + CartUnits(items[1..], k)
  }

  function CartMoney(items: seq<CartItem>): real {
    if items == [] then 0.0
    else (items[0].unitPrice + items[0].surcharge) * (items[0].quantity as real) + CartMoney(items[1..])
  }

  lemma {:induction false} CartSold(items: seq<CartItem>, id: int, o: int)
    ensures Rows(CartSales(items), id, o) == CartLines(items, id, o)
    ensures SalesTotal(CartSales(items)) == CartMoney(items)
    ensures |CartSales(items)| == |items|
    ensures forall k :: Quantity(CartSales(items), k) == CartUnits(items, k)
  {
    if items != [] {
      var sales := CartSales(items);
      assert sales[1..] == CartSales(items[1..]);
      CartSold(items[1..], id + 1, o);
      assert SoldLine(sales[0], id, o) == CartLine(items[0], id, o);
      assert Rows(sales, id, o) == [SoldLine(sales[0], id, o)] + Rows(sales[1..], id + 1, o);
      SalesTotalOfFirst(sales);
      forall k ensures Quantity(sales, k) == CartUnits(items, k) {
        QuantityOfFirst(sales, k);
      }
    }
  }

  lemma {:induction false} DirectSold(db: Db, items: seq<ItemData>, id: int, o: int)
    ensures DataSales(db, items).Some? <==> forall i :: 0 <= i < |items| ==> Orderable(db, items[i])
    ensures DataSales(db, items).Some? ==>
              var sales := DataSales(db, items).value;
              && Rows(sales, id, o) == AskedLines(db, items, id, o)
              && SalesTotal(sales) == AskedMoney(db, items)
              && |sales| == |items|
              && forall k :: Quantity(sales, k) == AskedUnits(items, k)
  {
    if items != [] {
      DirectSold(db, items[1..], id + 1, o);
      assert DataSale(db, items[0]).Some? <==> Orderable(db, items[0]);
      assert forall i :: 0 < i < |items| ==> items[i] == items[1..][i - 1];
      assert forall i :: 0 <= i < |items| - 1 ==> items[1..][i] == items[i + 1];
      if DataSales(db, items).Some? {
        var sales := DataSales(db, items).value;
        assert sales[1..] == DataSales(db, items[1..]).value;
        assert SoldLine(sales[0], id, o) == AskedLine(db, items[0], id, o);
        assert Rows(sales, id, o) == [SoldLine(sales[0], id, o)] + Rows(sales[1..], id + 1, o);
        SalesTotalOfFirst(sales);
        forall k ensures Quantity(sales, k) == AskedUnits(items, k) {
          QuantityOfFirst(sales, k);
        }
      }
    }
  }

  lemma {:induction false} RowsConcat(a: seq<Sale>, b: seq<Sale>, id: int, o: int)
    ensures Rows(a + b, id, o) == Rows(a, id, o) + Rows(b, id + |a|, o)
    decreases |a|
  {
    if a == [] {
      assert a + b == b;
    } else {
      assert (a + b)[1..] == a[1..] + b;
      RowsConcat(a[1..], b, id + 1, o);
    }
  }

  lemma SalesConcat(a: seq<Sale>, b: seq<Sale>)
    ensures SalesTotal(a + b) == SalesTotal(a) + SalesTotal(b)
    ensures forall k :: Quantity(a + b, k) == Quantity(a, k) + Quantity(b, k)
  {
    SumRealConcat(a, b, (s: Sale) => s.totalPrice);
    forall k ensures Quantity(a + b, k) == Quantity(a, k) + Quantity(b, k) {
      SumIntConcat(a, b, (s: Sale) => SoldAt(s, k));
    }
  }

  // ---------- checkout ----------

  // The tables after selling cart lines and then items ordered directly on a new order.
  ghost predicate SoldOn(db: Db, d: Db, order: Order, fromCart: seq<CartItem>, direct: seq<ItemData>) {
    && d == Db(db.products, db.skus, d.stock, db.stockLog, db.orders[db.nextOrder := order],
               db.lines + CartLines(fromCart, db.nextLine, db.nextOrder)
                        + AskedLines(db, direct, db.nextLine + |fromCart|, db.nextOrder),
               d.carts, db.nextOrder + 1, db.nextLine + |fromCart| + |direct|, db.nextCart)
    && d.stock.Keys == db.stock.Keys
    && forall k :: k in db.stock ==> d.stock[k] == db.stock[k] - CartUnits(fromCart, k) - AskedUnits(direct, k)
  }

  predicate NoSuchCart(db: Db, user: int, cart: Option<int>) {
    cart.Some? && cart.value != 0 && (user !in db.carts || db.carts[user].id != cart.value)
  }

  // What a checkout takes from the user's cart.
  function FromCart(db: Db, user: int, cart: Option<int>): seq<CartItem> {
    if cart.Some? && cart.value != 0 && user in db.carts && db.carts[user].id == cart.value
    then db.carts[user].items else []
  }

  lemma SalesOfCheckout(db: Db, user: int, cart: Option<int>, direct: seq<ItemData>)
    requires direct == [] || !NoSuchCart(db, user, cart)
    requires DataSales(db, direct).Some?
    ensures var sales := CheckoutSales(db, user, cart, direct);
            var fromCart := FromCart(db, user, cart);
      && Rows(sales, db.nextLine, db.nextOrder)
         == CartLines(fromCart, db.nextLine, db.nextOrder)
          + AskedLines(db, direct, db.nextLine + |fromCart|, db.nextOrder)
      && SalesTotal(sales) == CartMoney(fromCart) + AskedMoney(db, direct)
      && |sales| == |fromCart| + |direct|
      && forall k :: Quantity(sales, k) == CartUnits(fromCart, k) + AskedUnits(direct, k)
  {
    var fromCart := FromCart(db, user, cart);
    var a, b := CartSales(fromCart), DataSales(db, direct).value;
    CartSold(fromCart, db.nextLine, db.nextOrder);
    DirectSold(db, direct, db.nextLine + |fromCart|, db.nextOrder);
    assert CheckoutSales(db, user, cart, direct) == a + b;
    RowsConcat(a, b, db.nextLine, db.nextOrder);
    SalesConcat(a, b);
  }

  // Selling on a new order, up to orders and carts.
  lemma SaleSoldOn(db: Db, d: Db, start: Order, order: Order, sales: seq<Sale>, fromCart: seq<CartItem>,
                   direct: seq<ItemData>)
    requires Lines(db, start, d, sales) && d.orders == db.orders[db.nextOrder := order]
    requires Rows(sales, db.nextLine, db.nextOrder)
          == CartLines(fromCart, db.nextLine, db.nextOrder)
           + AskedLines(db, direct, db.nextLine + |fromCart|, db.nextOrder)
    requires |sales| == |fromCart| + |direct|
    requires forall k :: Quantity(sales, k) == CartUnits(fromCart, k) + AskedUnits(direct, k)
    ensures SoldOn(db, d, order, fromCart, direct)
  {
    var o, from := db.nextOrder, WithNewOrder(db, start);
    SellAllKeeps(from, o, sales, false);
    SellAllRows(from, o, sales, false);
    SellAllKeys(from, o, sales, false);
    forall k | k in db.stock ensures d.stock[k] == db.stock[k] - CartUnits(fromCart, k) - AskedUnits(direct, k) {
      SellAllStock(from, o, sales, false, k);
    }
    assert d.lines == db.lines + CartLines(fromCart, db.nextLine, o)
                   + AskedLines(db, direct, db.nextLine + |fromCart|, o);
  }

  // The order row, field by field.
  function CheckoutOrder(db: Db, shop: int, user: int, cart: Option<int>, kind: OrderType, fee: real,
                         direct: seq<ItemData>): Order {
    var missing := NoSuchCart(db, user, cart);
    var money := CartMoney(FromCart(db, user, cart)) + AskedMoney(db, direct);
    var charged := !missing && ((cart.Some? && cart.value != 0) || direct != []);
    var deliveryFee := if kind == Delivery && charged then fee else 0.0;
    Order(shop, kind, Pending, false, money, deliveryFee, 0.0, money + deliveryFee,
          if missing then [] else [StatusChange(Pending, Pending)])
  }

  lemma CheckoutOrderStored(db: Db, shop: int, user: int, cart: Option<int>, kind: OrderType, fee: real,
                            items: seq<ItemData>)
    requires NoSuchCart(db, user, cart) || DataSales(db, items).Some?
    ensures CheckedOut(db, shop, user, cart, kind, fee, items)
         == CheckoutOrder(db, shop, user, cart, kind, fee, if NoSuchCart(db, user, cart) then [] else items)
  {
    if !NoSuchCart(db, user, cart) {
      SalesOfCheckout(db, user, cart, items);
    }
  }

  lemma SameSales(db: Db, user: int, cart: Option<int>, items: seq<ItemData>)
    ensures CheckoutSales(db, user, cart, items)
         == CheckoutSales(db, user, cart, if NoSuchCart(db, user, cart) then [] else items)
  {
  }

  // `d` are the tables with the sales and the order of that checkout.
  lemma CheckedOutSoldOn(db: Db, d: Db, shop: int, user: int, cart: Option<int>, kind: OrderType, fee: real,
                         items: seq<ItemData>, direct: seq<ItemData>)
    requires Lines(db, NewOrder(shop, kind), d, CheckoutSales(db, user, cart, items))
    requires d.orders == db.orders[db.nextOrder := CheckedOut(db, shop, user, cart, kind, fee, items)]
    requires direct == if NoSuchCart(db, user, cart) then [] else items
    requires DataSales(db, direct).Some?
    ensures SoldOn(db, d, CheckoutOrder(db, shop, user, cart, kind, fee, direct), FromCart(db, user, cart), direct)
  {
    SameSales(db, user, cart, items);
    SalesOfCheckout(db, user, cart, direct);
    CheckoutOrderStored(db, shop, user, cart, kind, fee, items);
    SaleSoldOn(db, d, NewOrder(shop, kind), CheckoutOrder(db, shop, user, cart, kind, fee, direct),
               CheckoutSales(db, user, cart, items), FromCart(db, user, cart), direct);
  }

  lemma CheckoutMakes(db: Db, shop: int, user: int, cart: Option<int>, kind: OrderType, fee: real,
                      items: seq<ItemData>, direct: seq<ItemData>)
    requires db.Valid() && Checkout(db, shop, user, cart, kind, fee, items).Some?
    requires direct == if NoSuchCart(db, user, cart) then [] else items
    requires DataSales(db, direct).Some?
    ensures var d := Checkout(db, shop, user, cart, kind, fee, items).value;
            SoldOn(db, d, CheckoutOrder(db, shop, user, cart, kind, fee, direct), FromCart(db, user, cart), direct)
            && d.carts == CartsAfter(db, user, cart)
  {
    CheckoutResult(db, shop, user, cart, kind, fee, items);
    CheckedOutSoldOn(db, Checkout(db, shop, user, cart, kind, fee, items).value, shop, user, cart, kind, fee, items,
                     direct);
  }

  lemma CheckoutGoesThrough(db: Db, shop: int, user: int, cart: Option<int>, kind: OrderType, fee: real,
                            items: seq<ItemData>)
    ensures Checkout(db, shop, user, cart, kind, fee, items).Some? <==>
            NoSuchCart(db, user, cart) || forall i :: 0 <= i < |items| ==> Orderable(db, items[i])
  {
    CheckoutRefusedIff(db, shop, user, cart, kind, fee, items);
    assert forall i :: 0 <= i < |items| ==>
        (Orderable(db, items[i]) <==>
         !(UnitPrice(db, items[i].product, items[i].sku).None? || items[i].quantity < 0));
  }

  // A checkout is refused when it comes to items and one of them cannot be ordered. Otherwise
  // the new order has one line per cart line and per item, under the SKU asked for and at its
  // price; it is pending, unpaid and without discount, owes their sum and the fee of a
  // delivery, and the stock of every SKU falls by the units asked for under it.
  lemma CheckoutEffect(db: Db, shop: int, user: int, cart: Option<int>, kind: OrderType, fee: real,
                       items: seq<ItemData>)
    requires db.Valid()
    ensures var d := Apply(db, CheckoutStep(shop, user, cart, kind, fee, items));
            var missing, fromCart := NoSuchCart(db, user, cart), FromCart(db, user, cart);
            var direct := if missing then [] else items;
            if exists i :: 0 <= i < |direct| && !Orderable(db, direct[i]) then d == db
            else
              && SoldOn(db, d, CheckoutOrder(db, shop, user, cart, kind, fee, direct), fromCart, direct)
              && d.carts == (if cart.Some? && cart.value != 0 && !missing
                             then db.carts[user := Cart(cart.value, [])] else db.carts)
  {
    CheckoutGoesThrough(db, shop, user, cart, kind, fee, items);
    if Checkout(db, shop, user, cart, kind, fee, items).Some? {
      DirectSold(db, items, 0, 0);
      CheckoutMakes(db, shop, user, cart, kind, fee, items, if NoSuchCart(db, user, cart) then [] else items);
    }
  }

  // A checkout of a cart alone charges the total that the cart shows plus the fee, takes the
  // cart's units from stock and empties it.
  lemma CartCheckoutCharges(db: Db, shop: int, user: int, cart: int, kind: OrderType, fee: real)
    requires db.Valid() && HasCart(db, user, Some(cart))
    ensures var d, o := Apply(db, CheckoutStep(shop, user, Some(cart), kind, fee, [])), db.nextOrder;
            var items := db.carts[user].items;
      && o in d.orders && d.orders[o].subtotal == CartTotal(items)
      && d.orders[o].total == CartTotal(items) + (if kind == Delivery then fee else 0.0)
      && user in d.carts && d.carts[user].items == []
      && (forall k :: k in db.stock ==> k in d.stock && d.stock[k] == db.stock[k] - CartUnits(items, k))
  {
    CheckoutEffect(db, shop, user, Some(cart), kind, fee, []);
    CartTotalIsMoney(db.carts[user].items);
  }

  lemma {:induction false} CartTotalIsMoney(items: seq<CartItem>)
    ensures CartTotal(items) == CartMoney(items)
  {
    if items != [] {
      CartTotalIsMoney(items[1..]);
    }
  }

  // ---------- quick order ----------

  // The till finds an item whose product is the shop's and whose SKU, if one is given, is
  // one of that product.
  predicate Findable(db: Db, shop: int, item: ItemData) {
    && item.product in db.products && db.products[item.product].shop == shop
    && (AskedSku(item).Some? ==>
          AskedSku(item).value in db.skus && db.skus[AskedSku(item).value].product == item.product)
  }

  function Findables(db: Db, shop: int, items: seq<ItemData>): seq<ItemData> {
    if items == [] then []
    else (if Findable(db, shop, items[0]) then [items[0]] else []) + Findables(db, shop, items[1..])
  }

  lemma QuickLine(db: Db, shop: int, item: ItemData, id: int, o: int)
    ensures QuickSale(db, shop, item).Some? <==> Findable(db, shop, item)
    ensures Findable(db, shop, item) ==> SoldLine(QuickSale(db, shop, item).value, id, o) == AskedLine(db, item, id, o)
  {
  }

  lemma {:induction false} QuickSold(db: Db, shop: int, items: seq<ItemData>, id: int, o: int)
    ensures var sales, found := QuickSales(db, shop, items), Findables(db, shop, items);
      && Rows(sales, id, o) == AskedLines(db, found, id, o)
      && SalesTotal(sales) == AskedMoney(db, found)
      && |sales| == |found|
      && forall k :: Quantity(sales, k) == AskedUnits(found, k)
  {
    if items != [] {
      var sales, found := QuickSales(db, shop, items), Findables(db, shop, items);
      QuickLine(db, shop, items[0], id, o);
      if Findable(db, shop, items[0]) {
        QuickSold(db, shop, items[1..], id + 1, o);
        assert sales[1..] == QuickSales(db, shop, items[1..]) && found[1..] == Findables(db, shop, items[1..]);
        assert Rows(sales, id, o) == [SoldLine(sales[0], id, o)] + Rows(sales[1..], id + 1, o);
        SalesTotalOfFirst(sales);
        forall k ensures Quantity(sales, k) == AskedUnits(found, k) {
          QuantityOfFirst(sales, k);
        }
      } else {
        QuickSold(db, shop, items[1..], id, o);
        assert sales == QuickSales(db, shop, items[1..]) && found == Findables(db, shop, items[1..]);
      }
    }
  }

  // With at least one unit per item, a SKU is sold exactly when units of it are.
  lemma {:induction false} SoldIffUnits(db: Db, shop: int, items: seq<ItemData>, k: int)
    requires !Rejected(items)
    ensures var sales := QuickSales(db, shop, items);
            Quantity(sales, k) >= 0 && (Sells(sales, k) <==> Quantity(sales, k) > 0)
  {
    if items != [] {
      assert items[0].quantity >= 1;
      assert forall i :: 0 <= i < |items| - 1 ==> items[1..][i] == items[i + 1];
      SoldIffUnits(db, shop, items[1..], k);
      var sales := QuickSales(db, shop, items);
      if QuickSale(db, shop, items[0]).Some? {
        assert sales[1..] == QuickSales(db, shop, items[1..]);
        QuantityOfFirst(sales, k);
      } else {
        assert sales == QuickSales(db, shop, items[1..]);
      }
    }
  }

  // The tables after a quick order of the items `found`.
  ghost predicate QuickSoldOn(db: Db, d: Db, order: Order, found: seq<ItemData>) {
    && d == Db(db.products, db.skus, d.stock, db.stockLog, db.orders[db.nextOrder := order],
               db.lines + AskedLines(db, found, db.nextLine, db.nextOrder),
               db.carts, db.nextOrder + 1, db.nextLine + |found|, db.nextCart)
    && d.stock.Keys == db.stock.Keys
    && forall k :: k in db.stock ==>
         d.stock[k] == if AskedUnits(found, k) > 0 then Max(0, db.stock[k] - AskedUnits(found, k)) else db.stock[k]
  }

  lemma QuickOrderMakes(db: Db, shop: int, kind: OrderType, items: seq<ItemData>)
    requires db.Valid() && !Rejected(items)
    ensures var found := Findables(db, shop, items);
            var money := AskedMoney(db, found);
            QuickSoldOn(db, QuickOrder(db, shop, kind, items),
                        Order(shop, kind, Status.Paid, true, money, 0.0, 0.0, money, []), found)
  {
    var o, sales, found := db.nextOrder, QuickSales(db, shop, items), Findables(db, shop, items);
    var from, d := WithNewOrder(db, QuickOrderRow(shop, kind, 0.0)), QuickOrder(db, shop, kind, items);
    QuickOrderResult(db, shop, kind, items);
    QuickSalesOk(db, shop, items);
    QuickSold(db, shop, items, db.nextLine, o);
    SellAllKeeps(from, o, sales, true);
    SellAllRows(from, o, sales, true);
    SellAllKeys(from, o, sales, true);
    forall i | 0 <= i < |sales| ensures sales[i].quantity >= 0 {
      assert SaleOk(db, sales[i]);
    }
    forall k | k in db.stock
      ensures d.stock[k] == if AskedUnits(found, k) > 0 then Max(0, db.stock[k] - AskedUnits(found, k)) else db.stock[k]
    {
      SellAllStock(from, o, sales, true, k);
      SoldIffUnits(db, shop, items, k);
    }
  }

  // A quick order with an item of no units is refused. Otherwise it has one line for each item
  // that the till finds, under the SKU asked for, at its price and in the quantity asked for;
  // it is paid and owes exactly their sum, and their units leave the stock down to zero.
  lemma QuickOrderEffect(db: Db, shop: int, kind: OrderType, items: seq<ItemData>)
    requires db.Valid()
    ensures var d, found := Apply(db, QuickOrderStep(shop, kind, items)), Findables(db, shop, items);
            var money := AskedMoney(db, found);
            if exists i :: 0 <= i < |items| && items[i].quantity <= 0 then d == db
            else QuickSoldOn(db, d, Order(shop, kind, Status.Paid, true, money, 0.0, 0.0, money, []), found)
  {
    if !Rejected(items) {
      QuickOrderMakes(db, shop, kind, items);
    }
  }

  // ---------- carts ----------

  function ItemsOf(db: Db, user: int): seq<CartItem> {
    if user in db.carts then db.carts[user].items else []
  }

  // The user has a cart, the same as before if there was one, with the items `items`, and
  // nothing else has changed.
  ghost predicate OnlyCart(db: Db, d: Db, user: int, items: seq<CartItem>) {
    && d == db.(carts := db.carts[user := Cart(if user in db.carts then db.carts[user].id else db.nextCart, items)],
                nextCart := if user in db.carts then db.nextCart else db.nextCart + 1)
  }

  // The one line for these goods, if there is one.
  predicate IsLineFor(items: seq<CartItem>, i: int, product: int, sku: Option<int>) {
    0 <= i < |items| && items[i].product == product && items[i].sku == sku
  }

  // The line for these goods has grown by `q`, or such a line was appended; in both cases the
  // other goods stay as they were.
  ghost predicate Added(before: seq<CartItem>, after: seq<CartItem>, product: int, sku: Option<int>, q: int,
                        price: real, surcharge: Option<real>) {
    && (forall i :: IsLineFor(before, i, product, sku) ==>
          after == before[i := CartItem(product, sku, before[i].quantity + q, before[i].unitPrice,
                                        surcharge.GetOr(before[i].surcharge))])
    && ((forall i :: !IsLineFor(before, i, product, sku)) ==>
          after == before + [CartItem(product, sku, q, price, surcharge.GetOr(0.0))])
    && (forall p, s ::
          QuantityOf(after, p, s) == QuantityOf(before, p, s) + (if p == product && s == sku then q else 0))
  }

  lemma PutInCartAdds(before: seq<CartItem>, product: int, sku: Option<int>, q: int, price: real,
                      surcharge: Option<real>)
    requires UniqueLines(before)
    ensures Added(before, PutInCart(before, product, sku, q, price, surcharge), product, sku, q, price, surcharge)
  {
    var after := PutInCart(before, product, sku, q, price, surcharge);
    var found := FindCartItem(before, product, sku);
    assert found.Some? ==> IsLineFor(before, found.value, product, sku);
    forall p, s ensures QuantityOf(after, p, s)
                     == QuantityOf(before, p, s) + (if p == product && s == sku then q else 0)
    {
      PutInCartCounts(before, product, sku, q, price, surcharge, p, s);
    }
  }

  lemma NewCart(db: Db, user: int)
    ensures OnlyCart(db, WithCart(db, user), user, ItemsOf(db, user))
    ensures WithCart(db, user).products == db.products && WithCart(db, user).skus == db.skus
  {
  }

  lemma ItemsReplaced(db: Db, d: Db, user: int, items: seq<CartItem>)
    requires OnlyCart(db, d, user, ItemsOf(db, user))
    ensures user in d.carts && d.carts[user].items == ItemsOf(db, user)
    ensures OnlyCart(db, d.(carts := d.carts[user := d.carts[user].(items := items)]), user, items)
  {
  }

  lemma AddItemMakes(db: Db, user: int, product: int, sku: Option<int>, q: int, surcharge: Option<real>)
    ensures var d := AddItem(db, user, product, sku, q, surcharge);
            if q < 1 then d == db
            else if product !in db.products || (sku.Some? && (sku.value == 0 || sku.value !in db.skus))
            then OnlyCart(db, d, user, ItemsOf(db, user))
            else OnlyCart(db, d, user,
                          PutInCart(ItemsOf(db, user), product, sku, q, CatalogPrice(db, product, sku), surcharge))
  {
    var start := WithCart(db, user);
    NewCart(db, user);
    ItemsReplaced(db, start, user,
                  PutInCart(ItemsOf(db, user), product, sku, q, CatalogPrice(db, product, sku), surcharge));
    if sku != Some(0) && UnitPrice(start, product, sku).Some? {
      assert UnitPrice(start, product, sku).value == CatalogPrice(db, product, sku);
    }
  }

  // A request for less than one unit does nothing. One for goods that cannot be ordered leaves
  // the user with the same items. Any other one adds its quantity to the line for these goods,
  // whose price stays and whose surcharge changes when the request names options, or appends
  // such a line at the catalogue's price.
  lemma AddItemEffect(db: Db, user: int, product: int, sku: Option<int>, q: int, surcharge: Option<real>)
    requires db.Valid()
    ensures var d := Apply(db, AddItemStep(user, product, sku, q, surcharge));
            if q < 1 then d == db
            else if product !in db.products || (sku.Some? && (sku.value == 0 || sku.value !in db.skus))
            then OnlyCart(db, d, user, ItemsOf(db, user))
            else
              && OnlyCart(db, d, user, ItemsOf(d, user))
              && Added(ItemsOf(db, user), ItemsOf(d, user), product, sku, q, CatalogPrice(db, product, sku), surcharge)
  {
    AddItemMakes(db, user, product, sku, q, surcharge);
    assert UniqueLines(ItemsOf(db, user));
    PutInCartAdds(ItemsOf(db, user), product, sku, q, CatalogPrice(db, product, sku), surcharge);
  }

  // Clearing leaves an empty cart, also for a user who had none.
  lemma ClearCartEffect(db: Db, user: int)
    ensures OnlyCart(db, Apply(db, ClearCartStep(user)), user, [])
  {
  }

  // ---------- the till ----------

  predicate OfShop(db: Db, shop: int, o: int) {
    o in db.orders && db.orders[o].shop == shop
  }

  // A split is refused for another shop's order and when its data asks for a negative number
  // of units. Otherwise the new order is of the same shop, kind and status, but unpaid, without
  // fee, discount and log, and owes its own lines; the old one keeps everything but its
  // amounts, which are those of the lines left less its discount.
  lemma SplitEffect(db: Db, shop: int, o: int, entries: seq<SplitEntry>)
    requires db.Valid()
    ensures var d, n := Apply(db, SplitStep(shop, o, entries)), db.nextOrder;
            if !OfShop(db, shop, o) || exists i :: 0 <= i < |db.lines| && db.lines[i].order == o
                                                && Refused(db.lines[i].quantity, Demands(entries, db.lines[i].id))
            then d == db
            else
              var order, left, moved := db.orders[o], Money(d.lines, {o}), Money(d.lines, {n});
              && n !in db.orders
              && d == db.(lines := d.lines, nextLine := d.nextLine, nextOrder := n + 1, orders := d.orders)
              && d.orders == db.orders[o := order.(subtotal := left, total := left - order.discount)]
                   [n := Order(shop, order.kind, order.status, false, moved, 0.0, 0.0, moved, [])]
  {
    if OfShop(db, shop, o) {
      SplitRefusedIff(db, o, entries);
      if Split(db, o, entries).Some? {
        SplitResult(db, o, entries);
      }
    }
  }

  lemma NamedOrders(db: Db, shop: int, main: int, ids: seq<int>)
    ensures var lost, moved := LostOrders(db.orders, shop, main, ids), MovedOrders(db.orders, shop, main, ids);
      && (forall x :: x in lost + moved <==> OfShop(db, shop, x) && x in ids)
      && (OfShop(db, shop, main) ==> (main in lost <==> main in ids))
  {
    BeforeIn(ids, main);
  }

  // A merge leaves the main order everything but its amounts, which are those of its lines
  // less its discount, and its log, which is gone when the order was deleted on the way; the
  // orders named are gone, and the others are as they were.
  lemma MergeEffect(db: Db, shop: int, main: int, ids: seq<int>)
    ensures var d := Apply(db, MergeStep(shop, main, ids));
            if !OfShop(db, shop, main) then d == db
            else
              var order, money := db.orders[main], Money(d.lines, {main});
              && d == db.(lines := d.lines, orders := d.orders)
              && (forall x :: x in d.orders <==> x == main || (x in db.orders && !(OfShop(db, shop, x) && x in ids)))
              && (forall x :: x in d.orders && x != main ==> d.orders[x] == db.orders[x])
              && d.orders[main] == order.(subtotal := money, total := money - order.discount,
                                          history := if main in ids then [] else order.history)
  {
    if OfShop(db, shop, main) {
      MergeResult(db, shop, main, ids);
      NamedOrders(db, shop, main, ids);
    }
  }

  // A till discount is the percentage of the subtotal, or the amount given, and comes off the
  // subtotal.
  lemma DiscountEffect(db: Db, o: int, kind: DiscountType, value: real)
    ensures var d := Apply(db, DiscountStep(o, kind, value));
            if o !in db.orders then d == db
            else
              var order, amount := db.orders[o], d.orders[o].discount;
              && d == db.(orders := db.orders[o := order.(discount := amount, total := order.subtotal - amount)])
              && (kind == Percentage ==> 100.0 * amount == order.subtotal * value)
              && (kind == Fixed ==> amount == value)
              && (kind == OtherDiscount ==> amount == 0.0)
  {
    if o in db.orders {
      Hundredth(db.orders[o].subtotal, value);
    }
  }

  lemma Hundredth(x: real, value: real)
    ensures 100.0 * (x * (value / 100.0)) == x * value
  {
  }

  // ---------- status ----------

  // Staff set any status, with one log row.
  lemma StatusEffect(db: Db, shop: int, o: int, status: Status)
    ensures var d := Apply(db, StatusStep(shop, o, status));
            if !OfShop(db, shop, o) then d == db
            else
              var order := db.orders[o];
              d == db.(orders := db.orders[o := order.(status := status, history := order.history
                                                         + [StatusChange(order.status, status)])])
  {
  }

  // An order can be cancelled while it is pending, paid or confirmed; each SKU then gets the
  // units of its lines back.
  lemma CancelEffect(db: Db, shop: int, o: int)
    requires db.Valid()
    ensures var d := Apply(db, CancelStep(shop, o));
            if !OfShop(db, shop, o) || db.orders[o].status !in {Pending, Status.Paid, Confirmed} then d == db
            else
              var order := db.orders[o];
              && d == db.(stock := d.stock,
                          orders := db.orders[o := order.(status := Cancelled, history := order.history
                                                            + [StatusChange(order.status, Cancelled)])])
              && d.stock.Keys == db.stock.Keys
              && forall k :: k in db.stock ==> d.stock[k] == db.stock[k] + Units(db.lines, {o}, OfSku(k))
  {
    if OfShop(db, shop, o) && db.orders[o].status in {Pending, Status.Paid, Confirmed} {
      RestockedKeys(db.stock, db.lines, o);
      forall k | k in db.stock
        ensures Restocked(db.stock, db.lines, o)[k] == db.stock[k] + Units(db.lines, {o}, OfSku(k))
      {
        RestockedUnits(db.stock, db.lines, o, k);
      }
    }
  }

  // A callback sets an order to paid and leaves its log alone.
  lemma PaymentEffect(db: Db, o: int)
    ensures var d := Apply(db, PaymentStep(o));
            if o !in db.orders then d == db
            else d == db.(orders := db.orders[o := db.orders[o].(status := Status.Paid, paid := true)])
  {
  }

  // ---------- stock ----------

  predicate SkuInShop(db: Db, shop: int, k: int) {
    k in db.skus && db.skus[k].product in db.products && db.products[db.skus[k].product].shop == shop
  }

  // An adjustment of at least one unit of the shop's SKU moves its stock by that much, down to
  // zero at most, and logs the change asked for.
  lemma AdjustEffect(db: Db, shop: int, k: int, kind: Adjustment, q: int)
    requires db.Valid()
    ensures var d := Apply(db, StockTakeStep(AdjustStep(shop, k, kind, q)));
            if !SkuInShop(db, shop, k) || q < 1 then d == db
            else
              var stock := if kind == Increase then db.stock[k] + q
                           else if db.stock[k] >= q then db.stock[k] - q else 0;
              var row := StockLog(if kind == Increase then q else -q, stock);
              d == db.(stock := db.stock[k := stock], stockLog := db.stockLog[k := db.stockLog[k] + [row]])
  {
  }

  // The last value that the entries give for SKU `k`.
  function LastValue(updates: seq<StockUpdate>, k: int): Option<int> {
    if updates == [] then None
    else
      var later := LastValue(updates[1..], k);
      if later.Some? then later else if updates[0].sku == k then Some(updates[0].stock) else None
  }

  lemma {:induction false} BulkLastValue(db: Db, shop: int, updates: seq<StockUpdate>, k: int)
    requires k in db.stock && k in db.stockLog
    ensures var d := BulkUpdate(db, shop, updates);
      && Continues(db, d, k)
      && d.stock[k] == (if SkuOf(db, shop, k) then LastValue(updates, k).GetOr(db.stock[k]) else db.stock[k])
    decreases |updates|
  {
    BulkContinues(db, shop, updates, k);
    if updates != [] {
      UpdateOneContinues(db, shop, updates[0], k);
      BulkLastValue(UpdateOne(db, shop, updates[0]), shop, updates[1..], k);
    }
  }

  ghost predicate RealChanges(log: seq<StockLog>) {
    forall i :: 0 <= i < |log| ==> log[i].change != 0
  }

  lemma {:induction false} BulkRealChanges(db: Db, shop: int, updates: seq<StockUpdate>, k: int)
    requires k in db.stock && k in db.stockLog
    ensures Continues(db, BulkUpdate(db, shop, updates), k)
    ensures RealChanges(NewRows(db, BulkUpdate(db, shop, updates), k))
    decreases |updates|
  {
    BulkContinues(db, shop, updates, k);
    if updates != [] {
      var one := UpdateOne(db, shop, updates[0]);
      UpdateOneContinues(db, shop, updates[0], k);
      BulkRealChanges(one, shop, updates[1..], k);
      ContinuesTwice(db, one, BulkUpdate(db, shop, updates), k);
    }
  }

  // A bulk update gives every SKU of the shop the last value it names for it, and logs real
  // changes only.
  lemma BulkEffect(db: Db, shop: int, updates: seq<StockUpdate>, k: int)
    requires db.Valid() && k in db.skus
    ensures var d := Apply(db, StockTakeStep(BulkStep(shop, updates)));
      && d == db.(stock := d.stock, stockLog := d.stockLog)
      && Continues(db, d, k) && RealChanges(NewRows(db, d, k))
      && d.stock[k] == (if SkuInShop(db, shop, k) then LastValue(updates, k).GetOr(db.stock[k]) else db.stock[k])
  {
    BulkValid(db, shop, updates);
    BulkLastValue(db, shop, updates, k);
    BulkRealChanges(db, shop, updates, k);
  }

  // ---------- requests stay in their shop ----------

  // The order and what its lines add up to.
  ghost predicate OrderUntouched(db: Db, d: Db, x: int) {
    && x in db.orders && x in d.orders && d.orders[x] == db.orders[x]
    && Money(d.lines, {x}) == Money(db.lines, {x})
    && forall c :: Units(d.lines, {x}, c) == Units(db.lines, {x}, c)
  }

  // The step works on the orders of a shop, or of none.
  predicate ActsOn(step: Step, shop: int) {
    match step
    case SplitStep(s, _, _) => s == shop
    case MergeStep(s, _, _) => s == shop
    case StatusStep(s, _, _) => s == shop
    case CancelStep(s, _) => s == shop
    case DiscountStep(_, _, _) => true
    case PaymentStep(_) => true
    case _ => false
  }

  lemma {:induction false} RowsOrder(sales: seq<Sale>, id: int, o: int)
    ensures forall i :: 0 <= i < |Rows(sales, id, o)| ==> Rows(sales, id, o)[i].order == o
  {
    if sales != [] {
      RowsOrder(sales[1..], id + 1, o);
      assert forall i :: 0 < i < |Rows(sales, id, o)| ==> Rows(sales, id, o)[i] == Rows(sales[1..], id + 1, o)[i - 1];
    }
  }

  lemma SaleUntouched(db: Db, d: Db, sales: seq<Sale>, x: int)
    requires db.Valid() && x in db.orders && x in d.orders && d.orders[x] == db.orders[x]
    requires d.lines == db.lines + Rows(sales, db.nextLine, db.nextOrder)
    ensures OrderUntouched(db, d, x)
  {
    var rows := Rows(sales, db.nextLine, db.nextOrder);
    RowsOrder(sales, db.nextLine, db.nextOrder);
    NoLinesNoMoney(rows, {x});
    SumRealConcat(db.lines, rows, MoneyOn({x}));
    forall c ensures Units(d.lines, {x}, c) == Units(db.lines, {x}, c) {
      SumIntConcat(db.lines, rows, UnitsOn({x}, c));
      assert Units(rows, {x}, c) == 0;
    }
  }

  lemma CheckoutUntouched(db: Db, step: Step, x: int)
    requires db.Valid() && step.CheckoutStep? && x in db.orders
    ensures OrderUntouched(db, Apply(db, step), x)
  {
    match step
    case CheckoutStep(shop, user, cart, kind, fee, items) =>
      if Checkout(db, shop, user, cart, kind, fee, items).Some? {
        var sales := CheckoutSales(db, user, cart, items);
        CheckoutResult(db, shop, user, cart, kind, fee, items);
        SellAllRows(WithNewOrder(db, NewOrder(shop, kind)), db.nextOrder, sales, false);
        SaleUntouched(db, Apply(db, step), sales, x);
      }
  }

  lemma QuickOrderUntouched(db: Db, step: Step, x: int)
    requires db.Valid() && step.QuickOrderStep? && x in db.orders
    ensures OrderUntouched(db, Apply(db, step), x)
  {
    match step
    case QuickOrderStep(shop, kind, items) =>
      if !Rejected(items) {
        var sales := QuickSales(db, shop, items);
        QuickOrderResult(db, shop, kind, items);
        SellAllRows(WithNewOrder(db, QuickOrderRow(shop, kind, 0.0)), db.nextOrder, sales, true);
        SaleUntouched(db, Apply(db, step), sales, x);
      }
  }

  lemma SplitUntouched(db: Db, step: Step, x: int)
    requires db.Valid() && step.SplitStep? && x in db.orders && step.shop != db.orders[x].shop
    ensures OrderUntouched(db, Apply(db, step), x)
  {
    match step
    case SplitStep(shop, o, entries) =>
      SplitEffect(db, shop, o, entries);
      if OfShop(db, shop, o) && Split(db, o, entries).Some? {
        SplitMeasures(db, o, entries, {x}, _ => true);
        SumRealSame(db.lines, MoneyOn({x}), MoneyAfterOn({x}, o, db.nextOrder, entries));
        forall c ensures Units(Apply(db, step).lines, {x}, c) == Units(db.lines, {x}, c) {
          SplitMeasures(db, o, entries, {x}, c);
          SumIntSame(db.lines, UnitsOn({x}, c), UnitsAfterOn({x}, o, db.nextOrder, c, entries));
        }
      }
  }

  lemma MergeUntouched(db: Db, step: Step, x: int)
    requires db.Valid() && step.MergeStep? && x in db.orders && step.shop != db.orders[x].shop
    ensures OrderUntouched(db, Apply(db, step), x)
  {
    match step
    case MergeStep(shop, main, ids) =>
      MergeEffect(db, shop, main, ids);
      if OfShop(db, shop, main) {
        var lost, moved := LostOrders(db.orders, shop, main, ids), MovedOrders(db.orders, shop, main, ids);
        MergeResult(db, shop, main, ids);
        assert Sources({x}, lost, moved, main) == {x};
        RehomeMeasures(db.lines, {x}, _ => true, lost, moved, main);
        forall c ensures Units(Apply(db, step).lines, {x}, c) == Units(db.lines, {x}, c) {
          RehomeMeasures(db.lines, {x}, c, lost, moved, main);
        }
      }
  }

  // No request of one shop changes an order of another, nor what its lines add up to; only a
  // payment callback and the till's discount name no shop.
  lemma OrdersStayInShop(db: Db, step: Step, x: int)
    requires db.Valid() && x in db.orders && !ActsOn(step, db.orders[x].shop)
    ensures OrderUntouched(db, Apply(db, step), x)
  {
    match step
    case AddItemStep(user, product, sku, q, surcharge) => AddItemValid(db, user, product, sku, q, surcharge);
    case ClearCartStep(user) => ClearCartValid(db, user);
    case CheckoutStep(_, _, _, _, _, _) => CheckoutUntouched(db, step, x);
    case QuickOrderStep(_, _, _) => QuickOrderUntouched(db, step, x);
    case SplitStep(_, _, _) => SplitUntouched(db, step, x);
    case MergeStep(_, _, _) => MergeUntouched(db, step, x);
    case StatusStep(shop, o, status) => StatusEffect(db, shop, o, status);
    case CancelStep(shop, o) => CancelEffect(db, shop, o);
    case StockTakeStep(AdjustStep(shop, k, kind, q)) => AdjustEffect(db, shop, k, kind, q);
    case StockTakeStep(BulkStep(shop, updates)) => BulkValid(db, shop, updates);
  }

  lemma {:induction false} FindablesStayInShop(db: Db, shop: int, items: seq<ItemData>, k: int)
    requires !SkuInShop(db, shop, k)
    ensures AskedUnits(Findables(db, shop, items), k) == 0
  {
    if items != [] {
      FindablesStayInShop(db, shop, items[1..], k);
      var found := Findables(db, shop, items);
      if Findable(db, shop, items[0]) {
        assert found[1..] == Findables(db, shop, items[1..]) && AskedSku(items[0]) != Some(k);
      } else {
        assert found == Findables(db, shop, items[1..]);
      }
    }
  }

  // Neither do the till's sales and the stock room touch another shop's stock.
  lemma StockStaysInShop(db: Db, step: Step, k: int)
    requires db.Valid() && k in db.skus
    requires (step.QuickOrderStep? && !SkuInShop(db, step.shop, k))
          || (step.StockTakeStep? && !SkuInShop(db, step.stock.shop, k))
    ensures var d := Apply(db, step); k in d.stock && d.stock[k] == db.stock[k]
  {
    match step
    case QuickOrderStep(shop, kind, items) =>
      QuickOrderEffect(db, shop, kind, items);
      FindablesStayInShop(db, shop, items, k);
    case StockTakeStep(AdjustStep(shop, k', kind, q)) => AdjustEffect(db, shop, k', kind, q);
    case StockTakeStep(BulkStep(shop, updates)) => BulkEffect(db, shop, updates, k);
  }

  // A checkout looks products and SKUs up in all shops: here shop 2 sells shop 1's only SKU.
  lemma CheckoutCrossesShops()
    ensures var db := OneOrder(10.0, 0.0, 0.0, 0.0);
            var d := Apply(db, CheckoutStep(2, 1, None, Takeaway, 0.0, [ItemData(1, Some(1), 3)]));
      && db.Valid() && !SkuInShop(db, 2, 1) && db.stock[1] == 0
      && 2 in d.orders && d.orders[2].shop == 2 && d.orders[2].total == 30.0 && 1 in d.stock && d.stock[1] == -3
  {
    var db, items := OneOrder(10.0, 0.0, 0.0, 0.0), [ItemData(1, Some(1), 3)];
    OneOrderValid(10.0, 0.0, 0.0, 0.0);
    assert items[1..] == [];
    assert AskedUnits(items, 1) == 3 && AskedMoney(db, items) == 30.0 && AskedUnits([], 1) == 0;
    CheckoutEffect(db, 2, 1, None, Takeaway, 0.0, items);
  }
}
