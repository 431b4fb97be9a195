// The shop as one state machine: every endpoint is a step, and the laws below hold of
// every run, whatever the requests.

module Lifecycle {
  import opened Wrappers
  import opened ShopData
  import opened Pos
  import opened PosSplit
  import opened PosMerge
  import opened Orders
  import opened OrderEffects
  import opened Inventory

  datatype Step =
    | AddItemStep(user: int, product: int, sku: Option<int>, quantity: int, surcharge: Option<real>)
    | ClearCartStep(user: int)
    | CheckoutStep(shop: int, user: int, cart: Option<int>, kind: OrderType, fee: real, items: seq<ItemData>)
    | QuickOrderStep(shop: int, kind: OrderType, items: seq<ItemData>)
    | DiscountStep(order: int, discount: DiscountType, value: real)
    | SplitStep(shop: int, order: int, entries: seq<SplitEntry>)
    | MergeStep(shop: int, order: int, ids: seq<int>)
    | StatusStep(shop: int, order: int, status: Status)
    | CancelStep(shop: int, order: int)
    | PaymentStep(order: int)
    | StockTakeStep(stock: StockStep)

  // Requests for orders that are not in the shop are answered with an error; requests
  // that raise are rolled back.
  function Apply(db: Db, step: Step): Db {
    match step
    case AddItemStep(user, product, sku, q, surcharge) => AddItem(db, user, product, sku, q, surcharge)
    case ClearCartStep(user) => ClearCart(db, user)
    case CheckoutStep(shop, user, cart, kind, fee, items) =>
      Checkout(db, shop, user, cart, kind, fee, items).GetOr(db)
    case QuickOrderStep(shop, kind, items) => QuickOrder(db, shop, kind, items)
    case DiscountStep(o, kind, value) => if o in db.orders then Discount(db, o, kind, value) else db
    case SplitStep(shop, o, entries) =>
      if Found(db.orders, shop, o) && o != db.nextOrder then Split(db, o, entries).GetOr(db) else db
    case MergeStep(shop, main, ids) => if Found(db.orders, shop, main) then Merge(db, shop, main, ids) else db
    case StatusStep(shop, o, status) => if Found(db.orders, shop, o) then SetStatus(db, o, status) else db
    case CancelStep(shop, o) => if Found(db.orders, shop, o) then Cancel(db, o) else db
    case PaymentStep(o) => PaymentArrived(db, o)
    case StockTakeStep(s) => StockApply(db, s)
  }

  function Run(db: Db, steps: seq<Step>): Db
    decreases |steps|
  {
    if steps == [] then db else Run(Apply(db, steps[0]), steps[1..])
  }

  // ---------- the tables stay well formed ----------

  lemma WithCartValid(db: Db, user: int)
    requires db.Valid()
    ensures var d := WithCart(db, user);
            d.Valid() && d == db.(carts := d.carts, nextCart := d.nextCart)
  {
  }

  // Replace the lines of one cart.
  lemma ItemsValid(d: Db, user: int, items: seq<CartItem>)
    requires d.Valid() && user in d.carts && CartOk(d.skus, items)
    ensures d.(carts := d.carts[user := d.carts[user].(items := items)]).Valid()
  {
  }

  lemma AddItemValid(db: Db, user: int, product: int, sku: Option<int>, q: int, surcharge: Option<real>)
    requires db.Valid()
    ensures var d := AddItem(db, user, product, sku, q, surcharge);
            d.Valid() && d == db.(carts := d.carts, nextCart := d.nextCart)
  {
    var d := WithCart(db, user);
    WithCartValid(db, user);
    var price := UnitPrice(d, product, sku);
    if q >= 1 && price.Some? && (sku.Some? ==> Given(sku)) {
      var items := PutInCart(d.carts[user].items, product, sku, q, price.value, surcharge);
      var before := d.carts[user].items;
      PutInCartCounts(before, product, sku, q, price.value, surcharge, product, sku);
      forall i | 0 <= i < |items| ensures CartItemOk(d.skus, items[i]) {
        assert i < |before| ==> CartItemOk(d.skus, before[i]);
      }
      ItemsValid(d, user, items);
    }
  }

  lemma ClearCartValid(db: Db, user: int)
    requires db.Valid()
    ensures var d := ClearCart(db, user);
            d.Valid() && d == db.(carts := d.carts, nextCart := d.nextCart)
  {
    WithCartValid(db, user);
    ItemsValid(WithCart(db, user), user, []);
  }

  lemma CheckoutValid(db: Db, shop: int, user: int, cart: Option<int>, kind: OrderType, fee: real, items: seq<ItemData>)
    requires db.Valid() && Checkout(db, shop, user, cart, kind, fee, items).Some?
    ensures var d := Checkout(db, shop, user, cart, kind, fee, items).value;
            d.Valid() && d.products == db.products && d.skus == db.skus
  {
    var d := Checkout(db, shop, user, cart, kind, fee, items).value;
    var start := WithNewOrder(db, NewOrder(shop, kind));
    var sales := CheckoutSales(db, user, cart, items);
    CheckoutResult(db, shop, user, cart, kind, fee, items);
    CheckoutSalesOk(db, user, cart, items);
    WithNewOrderValid(db, NewOrder(shop, kind));
    forall i | 0 <= i < |sales| ensures SaleOk(start, sales[i]) {
      assert SaleOk(db, sales[i]);
    }
    SellAllValid(start, db.nextOrder, sales, false);
    SellAllKeeps(start, db.nextOrder, sales, false);
    SameKeysValid(SellAll(start, db.nextOrder, sales, false), d);
  }

  lemma QuickOrderValid(db: Db, shop: int, kind: OrderType, items: seq<ItemData>)
    requires db.Valid()
    ensures var d := QuickOrder(db, shop, kind, items);
            d.Valid() && d.products == db.products && d.skus == db.skus
  {
    if !Rejected(items) {
      var d, sales := QuickOrder(db, shop, kind, items), QuickSales(db, shop, items);
      var start := WithNewOrder(db, QuickOrderRow(shop, kind, 0.0));
      QuickOrderResult(db, shop, kind, items);
      QuickSalesOk(db, shop, items);
      WithNewOrderValid(db, QuickOrderRow(shop, kind, 0.0));
      forall i | 0 <= i < |sales| ensures SaleOk(start, sales[i]) {
        assert SaleOk(db, sales[i]);
      }
      SellAllValid(start, db.nextOrder, sales, true);
      SellAllKeeps(start, db.nextOrder, sales, true);
      SameKeysValid(SellAll(start, db.nextOrder, sales, true), d);
    }
  }

  // Quick orders have no surcharges: the two bills of a split add up to the order's and the
  // price of the units that the split makes, so money is conserved exactly when that is zero.
  lemma QuickOrderSplit(db: Db, shop: int, kind: OrderType, items: seq<ItemData>, entries: seq<SplitEntry>)
    requires db.Valid() && !Rejected(items)
    requires Split(QuickOrder(db, shop, kind, items), db.nextOrder, entries).Some?
    ensures var q, o := QuickOrder(db, shop, kind, items), db.nextOrder;
            var d, made := Split(q, o, entries).value, OvershootPrice(q.lines, o, entries);
      && d.orders[o].subtotal + d.orders[q.nextOrder].subtotal == q.orders[o].subtotal + made
      && d.orders[o].total + d.orders[q.nextOrder].total == q.orders[o].total + made
      && (InRange(q.lines, o, entries) ==> made == 0.0)
  {
    var q, o, sales := QuickOrder(db, shop, kind, items), db.nextOrder, QuickSales(db, shop, items);
    QuickOrderResult(db, shop, kind, items);
    QuickOrderValid(db, shop, kind, items);
    QuickSalesListPriced(db, shop, items);
    RowsLinear(db, sales, db.nextLine, o);
    SellAllRows(WithNewOrder(db, QuickOrderRow(shop, kind, 0.0)), o, sales, true);
    var rows := Rows(sales, db.nextLine, o);
    forall i | 0 <= i < |db.lines| ensures db.lines[i].order != o {
      assert db.LineOk(db.lines[i]);
    }
    assert forall i :: |db.lines| <= i < |q.lines| ==> q.lines[i] == rows[i - |db.lines|];
    SplitMoney(q, o, entries);
  }

  lemma {:induction false} BulkValid(db: Db, shop: int, updates: seq<StockUpdate>)
    requires db.Valid()
    ensures BulkUpdate(db, shop, updates).Valid()
    ensures var d := BulkUpdate(db, shop, updates);
            d == db.(stock := d.stock, stockLog := d.stockLog)
    decreases |updates|
  {
    if updates != [] {
      var one := UpdateOne(db, shop, updates[0]);
      SameKeysValid(db, one);
      BulkValid(one, shop, updates[1..]);
    }
  }

  // Steps that change neither lines nor carts.
  predicate EditsInPlace(step: Step) {
    step.DiscountStep? || step.StatusStep? || step.CancelStep? || step.PaymentStep? ||
    (step.StockTakeStep? && step.stock.AdjustStep?)
  }

  lemma EditsKeepKeys(db: Db, step: Step)
    requires db.Valid() && EditsInPlace(step)
    ensures var d := Apply(db, step);
      && d == db.(orders := d.orders, stock := d.stock, stockLog := d.stockLog)
      && d.orders.Keys == db.orders.Keys && d.stock.Keys == db.stock.Keys && d.stockLog.Keys == db.stockLog.Keys
  {
    if step.CancelStep? {
      RestockedKeys(db.stock, db.lines, step.order);
    }
  }

  // Every step keeps the tables well formed and leaves the catalogue alone.
  lemma ApplyValid(db: Db, step: Step)
    requires db.Valid()
    ensures Apply(db, step).Valid()
    ensures Apply(db, step).products == db.products && Apply(db, step).skus == db.skus
  {
    if EditsInPlace(step) {
      EditsKeepKeys(db, step);
      SameKeysValid(db, Apply(db, step));
    } else {
      match step
      case AddItemStep(user, product, sku, q, surcharge) => AddItemValid(db, user, product, sku, q, surcharge);
      case ClearCartStep(user) => ClearCartValid(db, user);
      case CheckoutStep(shop, user, cart, kind, fee, items) =>
        if Checkout(db, shop, user, cart, kind, fee, items).Some? {
          CheckoutValid(db, shop, user, cart, kind, fee, items);
        }
      case QuickOrderStep(shop, kind, items) => QuickOrderValid(db, shop, kind, items);
      case SplitStep(shop, o, entries) =>
        if Found(db.orders, shop, o) && Split(db, o, entries).Some? {
          SplitResult(db, o, entries);
        }
      case MergeStep(shop, main, ids) =>
        if Found(db.orders, shop, main) {
          MergeValid(db, shop, main, ids);
          MergeResult(db, shop, main, ids);
        }
      case StockTakeStep(s) => BulkValid(db, s.shop, s.updates);
    }
  }
}
