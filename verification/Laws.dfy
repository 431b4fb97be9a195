// Laws of every run: stored totals and the stock ledger.

module Laws {
  import opened Wrappers
  import opened Sums
  import opened ShopData
  import opened Pos
  import opened PosSplit
  import opened PosMerge
  import opened Orders
  import opened OrderEffects
  import opened Inventory
  import opened Lifecycle

  // ---------- cached totals ----------

  // The stored subtotal is the sum of the order's lines; the stored total is that less the
  // discount, plus the delivery fee as long as the fee is counted.
  ghost predicate TotalsOk(order: Order, money: real, withFee: bool) {
    && order.subtotal == money
    && order.total == order.subtotal - order.discount + (if withFee then order.deliveryFee else 0.0)
  }

  // `counted` are the orders whose total includes their fee.
  ghost predicate Coherent(db: Db, counted: set<int>) {
    forall o :: o in db.orders ==> TotalsOk(db.orders[o], Money(db.lines, {o}), o in counted)
  }

  // Only a checkout counts the fee; a discount, a split or a merge of the order drops it.
  function Counted(db: Db, counted: set<int>, step: Step): set<int> {
    match step
    case CheckoutStep(shop, user, cart, kind, fee, items) =>
      if Checkout(db, shop, user, cart, kind, fee, items).Some? then counted + {db.nextOrder} else counted
    case DiscountStep(o, kind, value) => counted - {o}
    case SplitStep(shop, o, entries) =>
      if Found(db.orders, shop, o) && o != db.nextOrder && Split(db, o, entries).Some? then counted - {o} else counted
    case MergeStep(shop, main, ids) => if Found(db.orders, shop, main) then counted - {main} else counted
    case _ => counted
  }

  function CountedAfter(db: Db, counted: set<int>, steps: seq<Step>): set<int>
    decreases |steps|
  {
    if steps == [] then counted
    else CountedAfter(Apply(db, steps[0]), Counted(db, counted, steps[0]), steps[1..])
  }

  // Lines of a new order are no other order's money.
  lemma SaleKeepsCoherent(db: Db, start: Db, d: Db, sales: seq<Sale>, floor: bool, counted: set<int>,
                          counted': set<int>)
    requires db.Valid() && Coherent(db, counted)
    requires start.lines == db.lines && start.nextLine == db.nextLine
    requires d.lines == SellAll(start, db.nextOrder, sales, floor).lines
    requires d.orders.Keys == db.orders.Keys + {db.nextOrder}
    requires forall o :: o in db.orders ==> d.orders[o] == db.orders[o] && (o in counted' <==> o in counted)
    requires TotalsOk(d.orders[db.nextOrder], SalesTotal(sales), db.nextOrder in counted')
    ensures Coherent(d, counted')
  {
    var n := db.nextOrder;
    SellAllRows(start, n, sales, floor);
    forall o | o in d.orders ensures TotalsOk(d.orders[o], Money(d.lines, {o}), o in counted') {
      SaleMeasures(db.lines, sales, db.nextLine, n, {o}, 0);
      if o == n {
        FreshOrderHasNoLines(db);
      }
    }
  }

  lemma SplitCoherent(db: Db, o: int, entries: seq<SplitEntry>, counted: set<int>)
    requires db.Valid() && Coherent(db, counted) && o in db.orders && Split(db, o, entries).Some?
    ensures Coherent(Split(db, o, entries).value, counted - {o})
  {
    var d, n := Split(db, o, entries).value, db.nextOrder;
    SplitResult(db, o, entries);
    forall x | x in d.orders ensures TotalsOk(d.orders[x], Money(d.lines, {x}), x in counted - {o}) {
      if x != o && x != n {
        SplitMeasures(db, o, entries, {x}, _ => true);
        SumRealSame(db.lines, MoneyOn({x}), MoneyAfterOn({x}, o, n, entries));
      }
    }
  }

  lemma MergeCoherent(db: Db, shop: int, main: int, ids: seq<int>, counted: set<int>)
    requires db.Valid() && Coherent(db, counted) && main in db.orders
    ensures Coherent(Merge(db, shop, main, ids), counted - {main})
  {
    var d := Merge(db, shop, main, ids);
    var lost, moved := LostOrders(db.orders, shop, main, ids), MovedOrders(db.orders, shop, main, ids);
    MergeResult(db, shop, main, ids);
    forall x | x in d.orders ensures TotalsOk(d.orders[x], Money(d.lines, {x}), x in counted - {main}) {
      if x != main {
        RehomeMeasures(db.lines, {x}, _ => true, lost, moved, main);
        assert Sources({x}, lost, moved, main) == {x};
      }
    }
  }

  // The same lines and the same orders.
  lemma SameMoneyCoherent(db: Db, d: Db, counted: set<int>)
    requires Coherent(db, counted) && d.lines == db.lines && d.orders == db.orders
    ensures Coherent(d, counted)
  {
  }

  lemma EditCoherent(db: Db, step: Step, counted: set<int>)
    requires db.Valid() && Coherent(db, counted) && EditsInPlace(step)
    ensures Coherent(Apply(db, step), Counted(db, counted, step))
  {
  }

  lemma CheckoutCoherent(db: Db, shop: int, user: int, cart: Option<int>, kind: OrderType, fee: real,
                         items: seq<ItemData>, counted: set<int>)
    requires db.Valid() && Coherent(db, counted) && Checkout(db, shop, user, cart, kind, fee, items).Some?
    ensures Coherent(Checkout(db, shop, user, cart, kind, fee, items).value, counted + {db.nextOrder})
  {
    CheckoutResult(db, shop, user, cart, kind, fee, items);
    SaleKeepsCoherent(db, WithNewOrder(db, NewOrder(shop, kind)),
                      Checkout(db, shop, user, cart, kind, fee, items).value,
                      CheckoutSales(db, user, cart, items), false, counted, counted + {db.nextOrder});
  }

  lemma QuickOrderCoherent(db: Db, shop: int, kind: OrderType, items: seq<ItemData>, counted: set<int>)
    requires db.Valid() && Coherent(db, counted)
    ensures Coherent(QuickOrder(db, shop, kind, items), counted)
  {
    if !Rejected(items) {
      QuickOrderResult(db, shop, kind, items);
      SaleKeepsCoherent(db, WithNewOrder(db, QuickOrderRow(shop, kind, 0.0)), QuickOrder(db, shop, kind, items),
                        QuickSales(db, shop, items), true, counted, counted);
    }
  }

  // Whatever is requested, no order's stored amounts drift away from its lines.
  lemma ApplyCoherent(db: Db, step: Step, counted: set<int>)
    requires db.Valid() && Coherent(db, counted)
    ensures Coherent(Apply(db, step), Counted(db, counted, step))
  {
    if EditsInPlace(step) {
      EditCoherent(db, step, counted);
    } else {
      match step
      case AddItemStep(user, product, sku, q, surcharge) =>
        AddItemValid(db, user, product, sku, q, surcharge);
        SameMoneyCoherent(db, AddItem(db, user, product, sku, q, surcharge), counted);
      case ClearCartStep(user) =>
        ClearCartValid(db, user);
        SameMoneyCoherent(db, ClearCart(db, user), counted);
      case CheckoutStep(shop, user, cart, kind, fee, items) =>
        if Checkout(db, shop, user, cart, kind, fee, items).Some? {
          CheckoutCoherent(db, shop, user, cart, kind, fee, items, counted);
        }
      case QuickOrderStep(shop, kind, items) => QuickOrderCoherent(db, shop, kind, items, counted);
      case SplitStep(shop, o, entries) =>
        if Found(db.orders, shop, o) && Split(db, o, entries).Some? {
          SplitCoherent(db, o, entries, counted);
        }
      case MergeStep(shop, main, ids) =>
        if Found(db.orders, shop, main) {
          MergeCoherent(db, shop, main, ids, counted);
        }
      case StockTakeStep(s) =>
        BulkValid(db, s.shop, s.updates);
        SameMoneyCoherent(db, BulkUpdate(db, s.shop, s.updates), counted);
    }
  }

  // In every reachable state the tables are well formed and every stored subtotal and
  // total follows from the lines, the discount and whether the fee still counts.
  lemma {:induction false} RunCoherent(db: Db, steps: seq<Step>, counted: set<int>)
    requires db.Valid() && Coherent(db, counted)
    ensures Run(db, steps).Valid() && Coherent(Run(db, steps), CountedAfter(db, counted, steps))
    decreases |steps|
  {
    if steps != [] {
      ApplyValid(db, steps[0]);
      ApplyCoherent(db, steps[0], counted);
      RunCoherent(Apply(db, steps[0]), steps[1..], Counted(db, counted, steps[0]));
    }
  }

  // In every such state a split takes a counted fee and the surcharges of the touched lines
  // off what is due, and adds the price of the units that it makes; what is due stays the
  // same if and only if these cancel out.
  lemma SplitDropsDeliveryFee(db: Db, o: int, entries: seq<SplitEntry>, counted: set<int>)
    requires db.Valid() && Coherent(db, counted) && o in db.orders && Split(db, o, entries).Some?
    ensures var d, fee := Split(db, o, entries).value, if o in counted then db.orders[o].deliveryFee else 0.0;
            var due := d.orders[o].total + d.orders[db.nextOrder].total;
            var lost, gained := SurchargeLost(db.lines, o, entries), OvershootPrice(db.lines, o, entries);
      && due == db.orders[o].total - fee - lost + gained
      && (due == db.orders[o].total <==> fee + lost == gained)
  {
    SplitMoney(db, o, entries);
  }

  // In every such state splitting an order and merging the parts again gives the order table
  // back if and only if the split lost as many surcharges as it made money and no fee counted.
  lemma SplitThenMergeRestoresOrders(db: Db, o: int, entries: seq<SplitEntry>, counted: set<int>)
    requires db.Valid() && Coherent(db, counted) && o in db.orders && Split(db, o, entries).Some?
    ensures Merge(Split(db, o, entries).value, db.orders[o].shop, o, [db.nextOrder]).orders == db.orders
        <==> SurchargeLost(db.lines, o, entries) == OvershootPrice(db.lines, o, entries)
             && (o in counted ==> db.orders[o].deliveryFee == 0.0)
  {
    MergeBackOrders(db, o, entries);
    SameRowIff(db.orders, o, Recalculated(db.orders[o], MoneyLeft(db.lines, o, entries)));
  }

  // The split and the merge leave no trace on units and orders if and only if no demand asks
  // for more than is left, no surcharge is lost and no fee was counted.
  lemma SplitThenMergeIsIdentityIff(db: Db, o: int, entries: seq<SplitEntry>, counted: set<int>)
    requires db.Valid() && Coherent(db, counted) && o in db.orders && Split(db, o, entries).Some?
    ensures var m := Merge(Split(db, o, entries).value, db.orders[o].shop, o, [db.nextOrder]);
            ((forall c :: Units(m.lines, {o}, c) == Units(db.lines, {o}, c)) && m.orders == db.orders) <==>
            (InRange(db.lines, o, entries) && SurchargeLost(db.lines, o, entries) == 0.0
             && (o in counted ==> db.orders[o].deliveryFee == 0.0))
  {
    var m := Merge(Split(db, o, entries).value, db.orders[o].shop, o, [db.nextOrder]);
    forall c ensures Units(m.lines, {o}, c) == Units(db.lines, {o}, c) + Excess(db.lines, o, c, entries) {
      SplitThenMerge(db, o, entries, c);
    }
    ExcessIff(db.lines, o, entries);
    SplitThenMergeRestoresOrders(db, o, entries, counted);
    if InRange(db.lines, o, entries) {
      InRangeMakesNoMoney(db.lines, o, entries);
    }
  }

  // ---------- the stock ledger ----------

  function LoggedTotal(log: seq<StockLog>): int {
    SumInt(log, (e: StockLog) => e.change)
  }

  // Stock plus the units on orders that are not cancelled, less the logged adjustments.
  function Ledger(db: Db, k: int): int
    requires k in db.stock && k in db.stockLog
  {
    db.stock[k] + Units(db.lines, LiveOrders(db.orders), OfSku(k)) - LoggedTotal(db.stockLog[k])
  }

  // Units that a step takes out of stock although they were not there.
  ghost function Shortfall(db: Db, step: Step, k: int): (r: int)
    requires k in db.stock
    ensures r >= 0
  {
    match step
    case QuickOrderStep(shop, kind, items) =>
      var sales := QuickSales(db, shop, items);
      if !Rejected(items) && Sells(sales, k) then Max(0, Quantity(sales, k) - db.stock[k]) else 0
    case StockTakeStep(AdjustStep(shop, k', Decrease, q)) =>
      if k' == k && SkuOf(db, shop, k) && q >= 1 then Max(0, q - db.stock[k]) else 0
    case _ => 0
  }

  function UnitsOf(db: Db, s: set<int>, k: int): int {
    Units(db.lines, s, OfSku(k))
  }

  // Units that come to life or vanish when an order becomes `status` without any stock
  // being moved.
  function StatusDrift(db: Db, o: int, status: Status, k: int): int
    requires o in db.orders
  {
    if db.orders[o].status == Cancelled && status != Cancelled then UnitsOf(db, {o}, k)
    else if db.orders[o].status != Cancelled && status == Cancelled then -UnitsOf(db, {o}, k)
    else 0
  }

  // Units that a merge makes live, less those it buries or deletes.
  function MergeDrift(db: Db, shop: int, main: int, ids: seq<int>, k: int): int
    requires main in db.orders
  {
    var live := LiveOrders(db.orders);
    var lost, moved := LostOrders(db.orders, shop, main, ids), MovedOrders(db.orders, shop, main, ids);
    if main in live then UnitsOf(db, moved - live, k) - UnitsOf(db, lost * live, k)
    else -UnitsOf(db, (moved + lost) * live, k)
  }

  function Drift(db: Db, step: Step, k: int): int {
    match step
    case SplitStep(shop, o, entries) =>
      if Found(db.orders, shop, o) && o != db.nextOrder && Split(db, o, entries).Some?
         && db.orders[o].status != Cancelled
      then Excess(db.lines, o, OfSku(k), entries) else 0
    case MergeStep(shop, main, ids) => if Found(db.orders, shop, main) then MergeDrift(db, shop, main, ids, k) else 0
    case StatusStep(shop, o, status) => if Found(db.orders, shop, o) then StatusDrift(db, o, status, k) else 0
    case PaymentStep(o) => if o in db.orders then StatusDrift(db, o, Status.Paid, k) else 0
    case _ => 0
  }

  // ---------- each step against the ledger ----------

  lemma {:induction false} UnitsOfDisjoint(lines: seq<Line>, s: set<int>, t: set<int>, c: Goods -> bool)
    requires s !! t
    ensures Units(lines, s + t, c) == Units(lines, s, c) + Units(lines, t, c)
  {
    if lines != [] {
      UnitsOfDisjoint(lines[1..], s, t, c);
    }
  }

  // A sale on a fresh live order.
  lemma SaleLedger(db: Db, start: Db, d: Db, sales: seq<Sale>, floor: bool, k: int)
    requires db.Valid() && k in db.skus
    requires start.lines == db.lines && start.nextLine == db.nextLine && start.stock == db.stock
    requires var sold := SellAll(start, db.nextOrder, sales, floor); d.lines == sold.lines && d.stock == sold.stock
    requires d.stockLog == db.stockLog
    requires floor ==> forall i :: 0 <= i < |sales| ==> sales[i].quantity >= 0
    requires d.orders.Keys == db.orders.Keys + {db.nextOrder}
    requires forall o :: o in db.orders ==> d.orders[o] == db.orders[o]
    requires d.orders[db.nextOrder].status != Cancelled
    ensures k in d.stock && k in d.stockLog
    ensures Ledger(d, k) == Ledger(db, k) +
              (if floor && Sells(sales, k) then Max(0, Quantity(sales, k) - db.stock[k]) else 0)
  {
    var n, live := db.nextOrder, LiveOrders(db.orders);
    SellAllRows(start, n, sales, floor);
    SellAllStock(start, n, sales, floor, k);
    assert LiveOrders(d.orders) == live + {n} by {
      forall o ensures o in LiveOrders(d.orders) <==> o in live + {n} {
      }
    }
    SaleMeasures(db.lines, sales, db.nextLine, n, live + {n}, k);
    UnitsOfDisjoint(db.lines, live, {n}, OfSku(k));
    FreshOrderHasNoLines(db);
  }

  // An order changes its status.
  lemma StatusUnits(db: Db, o: int, order: Order, k: int)
    requires o in db.orders
    ensures Units(db.lines, LiveOrders(db.orders[o := order]), OfSku(k))
         == UnitsOf(db, LiveOrders(db.orders), k) + StatusDrift(db, o, order.status, k)
  {
    var live, live' := LiveOrders(db.orders), LiveOrders(db.orders[o := order]);
    if o in live && o !in live' {
      assert live == live' + {o};
      UnitsOfDisjoint(db.lines, live', {o}, OfSku(k));
    } else if o !in live && o in live' {
      assert live' == live + {o};
      UnitsOfDisjoint(db.lines, live, {o}, OfSku(k));
    } else {
      assert live' == live;
    }
  }

  lemma CancelLedger(db: Db, o: int, k: int)
    requires db.Valid() && k in db.skus
    ensures k in Cancel(db, o).stock && k in Cancel(db, o).stockLog
    ensures Ledger(Cancel(db, o), k) == Ledger(db, k)
  {
    if o in db.orders && Cancellable(db.orders[o].status) {
      RestockedUnits(db.stock, db.lines, o, k);
      StatusUnits(db, o, Logged(db.orders[o], db.orders[o].status, Cancelled), k);
    }
  }

  lemma LiveAfterSplit(db: Db, o: int, entries: seq<SplitEntry>)
    requires db.Valid() && o in db.orders && Split(db, o, entries).Some?
    ensures var live := LiveOrders(db.orders);
            LiveOrders(Split(db, o, entries).value.orders) == if o in live then live + {db.nextOrder} else live
  {
    SplitResult(db, o, entries);
  }

  lemma SplitLedger(db: Db, o: int, entries: seq<SplitEntry>, k: int)
    requires db.Valid() && k in db.skus && o in db.orders && Split(db, o, entries).Some?
    ensures var d := Split(db, o, entries).value;
      && d.stock == db.stock && d.stockLog == db.stockLog && k in d.stock && k in d.stockLog
      && Ledger(d, k) == Ledger(db, k) +
           (if db.orders[o].status != Cancelled then Excess(db.lines, o, OfSku(k), entries) else 0)
  {
    var d, n, live := Split(db, o, entries).value, db.nextOrder, LiveOrders(db.orders);
    LiveAfterSplit(db, o, entries);
    SplitUnits(db, o, entries, LiveOrders(d.orders), OfSku(k));
    SplitKeepsStock(db, o, entries);
    if o in live {
      assert n !in live;
      UnitsOfDisjoint(db.lines, live, {n}, OfSku(k));
      FreshOrderHasNoLines(db);
    }
  }

  lemma SplitKeepsStock(db: Db, o: int, entries: seq<SplitEntry>)
    requires db.Valid() && o in db.orders && Split(db, o, entries).Some?
    ensures Split(db, o, entries).value.stock == db.stock && Split(db, o, entries).value.stockLog == db.stockLog
    ensures db.nextOrder !in db.orders
  {
    SplitResult(db, o, entries);
  }

  lemma MergeLedger(db: Db, shop: int, main: int, ids: seq<int>, k: int)
    requires db.Valid() && k in db.skus && main in db.orders
    ensures var d := Merge(db, shop, main, ids);
      && k in d.stock && k in d.stockLog
      && Ledger(d, k) == Ledger(db, k) + MergeDrift(db, shop, main, ids, k)
  {
    var d := Merge(db, shop, main, ids);
    var lost, moved := LostOrders(db.orders, shop, main, ids), MovedOrders(db.orders, shop, main, ids);
    MergeResult(db, shop, main, ids);
    var live, live' := LiveOrders(db.orders), LiveOrders(d.orders);
    RehomeMeasures(db.lines, live', OfSku(k), lost, moved, main);
    MergeSources(live, live', lost, moved, main, db.orders, d.orders);
    UnitsOfChange(db.lines, live, moved, lost, main in live, k);
  }

  lemma MergeSources(live: set<int>, live': set<int>, lost: set<int>, moved: set<int>, main: int,
                     orders: map<int, Order>, orders': map<int, Order>)
    requires live == LiveOrders(orders) && live' == LiveOrders(orders') && main !in moved && main in orders
    requires orders'.Keys == orders.Keys - lost - moved + {main}
    requires forall o :: o in orders' ==> orders'[o].status == orders[o].status
    ensures Sources(live', lost, moved, main) == (if main in live then live + moved else live - moved) - lost
  {
    assert forall o :: o in live' <==> o in orders' && o in live;
  }

  lemma UnitsOfChange(lines: seq<Line>, live: set<int>, moved: set<int>, lost: set<int>, alive: bool, k: int)
    requires moved !! lost
    ensures Units(lines, (if alive then live + moved else live - moved) - lost, OfSku(k))
         == Units(lines, live, OfSku(k)) +
            (if alive then Units(lines, moved - live, OfSku(k)) - Units(lines, lost * live, OfSku(k))
             else -Units(lines, (moved + lost) * live, OfSku(k)))
  {
    var c := OfSku(k);
    if alive {
      var after := (live + moved) - lost;
      UnitsOfDisjoint(lines, after, lost * live, c);
      UnitsOfDisjoint(lines, live, moved - live, c);
      assert after + lost * live == live + (moved - live);
    } else {
      var after := (live - moved) - lost;
      UnitsOfDisjoint(lines, after, (moved + lost) * live, c);
      assert after + (moved + lost) * live == live;
    }
  }

  lemma LoggedTotalConcat(a: seq<StockLog>, b: seq<StockLog>)
    ensures LoggedTotal(a + b) == LoggedTotal(a) + LoggedTotal(b)
  {
    SumIntConcat(a, b, (e: StockLog) => e.change);
  }

  lemma LoggedTotalOne(e: StockLog)
    ensures LoggedTotal([e]) == e.change
  {
    var w := (e: StockLog) => e.change;
    assert SumInt([e], w) == w(e);
  }

  lemma {:induction false} BulkLedger(db: Db, shop: int, updates: seq<StockUpdate>, k: int)
    requires db.Valid() && k in db.skus
    ensures var d := BulkUpdate(db, shop, updates);
      && k in d.stock && k in d.stockLog && Ledger(d, k) == Ledger(db, k)
    decreases |updates|
  {
    if updates != [] {
      var u, one := updates[0], UpdateOne(db, shop, updates[0]);
      if SkuOf(db, shop, u.sku) {
        LoggedTotalConcat(db.stockLog[u.sku], UpdateLog(db.stock[u.sku], u.stock));
        LoggedTotalOne(StockLog(u.stock - db.stock[u.sku], u.stock));
      }
      BulkValid(db, shop, [u]);
      assert BulkUpdate(db, shop, [u]) == one;
      BulkLedger(one, shop, updates[1..], k);
    }
  }

  lemma AdjustLedger(db: Db, shop: int, k': int, kind: Adjustment, q: int, k: int)
    requires db.Valid() && k in db.skus
    ensures var d := Adjust(db, shop, k', kind, q);
      && k in d.stock && k in d.stockLog
      && Ledger(d, k) == Ledger(db, k) + Shortfall(db, StockTakeStep(AdjustStep(shop, k', kind, q)), k)
  {
    if SkuOf(db, shop, k') && q >= 1 {
      var rows := [StockLog(LoggedChange(kind, q), Adjusted(db.stock[k'], kind, q))];
      LoggedTotalConcat(db.stockLog[k'], rows);
      LoggedTotalOne(rows[0]);
    }
  }

  lemma StatusLedger(db: Db, o: int, order: Order, k: int)
    requires db.Valid() && k in db.skus && o in db.orders
    ensures k in db.stock && k in db.stockLog
    ensures Ledger(db.(orders := db.orders[o := order]), k) == Ledger(db, k) + StatusDrift(db, o, order.status, k)
  {
    StatusUnits(db, o, order, k);
  }

  lemma StatusStepLedger(db: Db, shop: int, o: int, status: Status, k: int)
    requires db.Valid() && k in db.skus
    ensures LedgerChange(db, Apply(db, StatusStep(shop, o, status)), k, Drift(db, StatusStep(shop, o, status), k))
  {
    if Found(db.orders, shop, o) {
      StatusLedger(db, o, Logged(db.orders[o], db.orders[o].status, status), k);
    }
  }

  lemma PaymentStepLedger(db: Db, o: int, k: int)
    requires db.Valid() && k in db.skus
    ensures LedgerChange(db, Apply(db, PaymentStep(o)), k, Drift(db, PaymentStep(o), k))
  {
    if o in db.orders {
      StatusLedger(db, o, db.orders[o].(status := Status.Paid, paid := true), k);
    }
  }

  lemma DiscountStepLedger(db: Db, o: int, kind: DiscountType, value: real, k: int)
    requires db.Valid() && k in db.skus
    ensures LedgerChange(db, Apply(db, DiscountStep(o, kind, value)), k, 0)
  {
    if o in db.orders {
      StatusLedger(db, o, Discount(db, o, kind, value).orders[o], k);
    }
  }

  // The ledger of SKU `k`, which stays in the catalogue, has changed by `change`.
  ghost predicate LedgerChange(db: Db, d: Db, k: int, change: int)
    requires db.Valid() && k in db.skus
  {
    k in d.skus && k in d.stock && k in d.stockLog && Ledger(d, k) == Ledger(db, k) + change
  }

  lemma EditLedger(db: Db, step: Step, k: int)
    requires db.Valid() && k in db.skus && EditsInPlace(step)
    ensures LedgerChange(db, Apply(db, step), k, Shortfall(db, step, k) + Drift(db, step, k))
  {
    match step
    case StatusStep(shop, o, status) => StatusStepLedger(db, shop, o, status, k);
    case PaymentStep(o) => PaymentStepLedger(db, o, k);
    case DiscountStep(o, kind, value) => DiscountStepLedger(db, o, kind, value, k);
    case CancelStep(shop, o) => CancelLedger(db, o, k);
    case StockTakeStep(s) => AdjustLedger(db, s.shop, s.sku, s.kind, s.quantity, k);
  }

  lemma CartLedger(db: Db, d: Db, k: int)
    requires db.Valid() && k in db.skus && d == db.(carts := d.carts, nextCart := d.nextCart)
    ensures LedgerChange(db, d, k, 0)
  {
  }

  lemma SplitStepLedger(db: Db, shop: int, o: int, entries: seq<SplitEntry>, k: int)
    requires db.Valid() && k in db.skus
    ensures LedgerChange(db, Apply(db, SplitStep(shop, o, entries)), k, Drift(db, SplitStep(shop, o, entries), k))
  {
    if Found(db.orders, shop, o) && Split(db, o, entries).Some? {
      SplitResult(db, o, entries);
      SplitLedger(db, o, entries, k);
    }
  }

  lemma MergeStepLedger(db: Db, shop: int, main: int, ids: seq<int>, k: int)
    requires db.Valid() && k in db.skus
    ensures LedgerChange(db, Apply(db, MergeStep(shop, main, ids)), k, Drift(db, MergeStep(shop, main, ids), k))
  {
    if Found(db.orders, shop, main) {
      MergeResult(db, shop, main, ids);
      MergeLedger(db, shop, main, ids, k);
    }
  }

  lemma BulkStepLedger(db: Db, shop: int, updates: seq<StockUpdate>, k: int)
    requires db.Valid() && k in db.skus
    ensures LedgerChange(db, BulkUpdate(db, shop, updates), k, 0)
  {
    BulkLedger(db, shop, updates, k);
    BulkValid(db, shop, updates);
  }

  lemma ApplyLedger(db: Db, step: Step, k: int)
    requires db.Valid() && k in db.skus
    ensures var d := Apply(db, step);
      && k in d.skus && k in d.stock && k in d.stockLog
      && Ledger(d, k) == Ledger(db, k) + Shortfall(db, step, k) + Drift(db, step, k)
  {
    if EditsInPlace(step) {
      EditLedger(db, step, k);
    } else {
      match step
      case AddItemStep(user, product, sku, q, surcharge) =>
        AddItemValid(db, user, product, sku, q, surcharge);
        CartLedger(db, AddItem(db, user, product, sku, q, surcharge), k);
      case ClearCartStep(user) =>
        ClearCartValid(db, user);
        CartLedger(db, ClearCart(db, user), k);
      case CheckoutStep(shop, user, cart, kind, fee, items) =>
        if Checkout(db, shop, user, cart, kind, fee, items).Some? {
          CheckoutLedger(db, shop, user, cart, kind, fee, items, k);
        }
      case QuickOrderStep(shop, kind, items) =>
        if !Rejected(items) {
          QuickOrderLedger(db, shop, kind, items, k);
        }
      case SplitStep(shop, o, entries) => SplitStepLedger(db, shop, o, entries, k);
      case MergeStep(shop, main, ids) => MergeStepLedger(db, shop, main, ids, k);
      case StockTakeStep(s) => BulkStepLedger(db, s.shop, s.updates, k);
    }
  }

  lemma CheckoutLedger(db: Db, shop: int, user: int, cart: Option<int>, kind: OrderType, fee: real,
                       items: seq<ItemData>, k: int)
    requires db.Valid() && k in db.skus && Checkout(db, shop, user, cart, kind, fee, items).Some?
    ensures var d := Checkout(db, shop, user, cart, kind, fee, items).value;
            k in d.skus && k in d.stock && k in d.stockLog && Ledger(d, k) == Ledger(db, k)
  {
    var start, sales := WithNewOrder(db, NewOrder(shop, kind)), CheckoutSales(db, user, cart, items);
    CheckoutResult(db, shop, user, cart, kind, fee, items);
    SellAllKeeps(start, db.nextOrder, sales, false);
    SaleLedger(db, start, Checkout(db, shop, user, cart, kind, fee, items).value, sales, false, k);
  }

  lemma QuickOrderLedger(db: Db, shop: int, kind: OrderType, items: seq<ItemData>, k: int)
    requires db.Valid() && k in db.skus && !Rejected(items)
    ensures var d := QuickOrder(db, shop, kind, items);
      && k in d.skus && k in d.stock && k in d.stockLog
      && Ledger(d, k) == Ledger(db, k) + Shortfall(db, QuickOrderStep(shop, kind, items), k)
  {
    var start, sales := WithNewOrder(db, QuickOrderRow(shop, kind, 0.0)), QuickSales(db, shop, items);
    QuickOrderResult(db, shop, kind, items);
    QuickSalesOk(db, shop, items);
    SellAllKeeps(start, db.nextOrder, sales, true);
    forall i | 0 <= i < |sales| ensures sales[i].quantity >= 0 {
      assert SaleOk(db, sales[i]);
    }
    SaleLedger(db, start, QuickOrder(db, shop, kind, items), sales, true, k);
  }

  // ---------- whole runs ----------

  ghost function TotalShortfall(db: Db, steps: seq<Step>, k: int): (r: int)
    requires db.Valid() && k in db.skus
    ensures r >= 0
    decreases |steps|
  {
    if steps == [] then 0
    else
      ApplyValid(db, steps[0]);
      ApplyLedger(db, steps[0], k);
      Shortfall(db, steps[0], k) + TotalShortfall(Apply(db, steps[0]), steps[1..], k)
  }

  ghost function TotalDrift(db: Db, steps: seq<Step>, k: int): int
    decreases |steps|
  {
    if steps == [] then 0 else Drift(db, steps[0], k) + TotalDrift(Apply(db, steps[0]), steps[1..], k)
  }

  // In every run, for every SKU: stock and live units change by the logged adjustments,
  // the shortfall and the drift, and by nothing else.
  lemma {:induction false} StockConservation(db: Db, steps: seq<Step>, k: int)
    requires db.Valid() && k in db.skus
    ensures var d := Run(db, steps);
      && d.Valid() && k in d.skus
      && Ledger(d, k) == Ledger(db, k) + TotalShortfall(db, steps, k) + TotalDrift(db, steps, k)
    decreases |steps|
  {
    if steps != [] {
      ApplyValid(db, steps[0]);
      ApplyLedger(db, steps[0], k);
      StockConservation(Apply(db, steps[0]), steps[1..], k);
    }
  }

  // ---------- when nothing drifts ----------

  // No line of the orders `s` holds units of a SKU.
  ghost predicate NoTracked(lines: seq<Line>, s: set<int>) {
    forall i :: 0 <= i < |lines| && lines[i].order in s && lines[i].sku.Some? ==> lines[i].quantity == 0
  }

  lemma NoTrackedIff(db: Db, s: set<int>)
    requires db.Valid()
    ensures NoTracked(db.lines, s) <==> forall k :: k in db.skus ==> UnitsOf(db, s, k) == 0
  {
    forall i, k | 0 <= i < |db.lines| ensures UnitsOn(s, OfSku(k))(db.lines[i]) >= 0 {
      assert db.LineOk(db.lines[i]);
    }
    forall k | NoTracked(db.lines, s) ensures UnitsOf(db, s, k) == 0 {
      SumIntSame(db.lines, UnitsOn(s, OfSku(k)), (l: Line) => 0);
      AllZero(db.lines);
    }
    if !NoTracked(db.lines, s) {
      var i :| 0 <= i < |db.lines| && db.lines[i].order in s && db.lines[i].sku.Some? && db.lines[i].quantity != 0;
      var k := db.lines[i].sku.value;
      assert db.LineOk(db.lines[i]);
      SumIntNonNegative(db.lines, UnitsOn(s, OfSku(k)));
      assert UnitsOn(s, OfSku(k))(db.lines[i]) > 0 && k in db.skus;
    }
  }

  // Every demand for goods with a SKU fits its line.
  ghost predicate TrackedInRange(lines: seq<Line>, o: int, entries: seq<SplitEntry>) {
    forall i :: 0 <= i < |lines| && lines[i].order == o && lines[i].sku.Some? ==>
      Fits(lines[i].quantity, Demands(entries, lines[i].id))
  }

  lemma TrackedInRangeIff(db: Db, o: int, entries: seq<SplitEntry>)
    requires db.Valid()
    ensures TrackedInRange(db.lines, o, entries) <==>
            forall k :: k in db.skus ==> Excess(db.lines, o, OfSku(k), entries) == 0
  {
    forall i, k | 0 <= i < |db.lines| ensures OvershootOn(o, OfSku(k), entries)(db.lines[i]) >= 0 {
      OvershootBounds(db.lines[i].quantity, Demands(entries, db.lines[i].id));
    }
    forall k | TrackedInRange(db.lines, o, entries) ensures Excess(db.lines, o, OfSku(k), entries) == 0 {
      forall i | 0 <= i < |db.lines| ensures OvershootOn(o, OfSku(k), entries)(db.lines[i]) == 0 {
        FitsIffNoOvershoot(db.lines[i].quantity, Demands(entries, db.lines[i].id));
      }
      SumIntSame(db.lines, OvershootOn(o, OfSku(k), entries), (l: Line) => 0);
      AllZero(db.lines);
    }
    if !TrackedInRange(db.lines, o, entries) {
      var i :| 0 <= i < |db.lines| && db.lines[i].order == o && db.lines[i].sku.Some?
               && !Fits(db.lines[i].quantity, Demands(entries, db.lines[i].id));
      var k := db.lines[i].sku.value;
      assert db.LineOk(db.lines[i]);
      FitsIffNoOvershoot(db.lines[i].quantity, Demands(entries, db.lines[i].id));
      SumIntNonNegative(db.lines, OvershootOn(o, OfSku(k), entries));
      assert OvershootOn(o, OfSku(k), entries)(db.lines[i]) > 0 && k in db.skus;
    }
  }

  // What a merge has to respect: a live main order takes no units from cancelled orders, a
  // cancelled one none from live orders. Only when the loop deletes the main order can
  // cancelled units make up for deleted ones, SKU by SKU.
  ghost predicate MergeDriftFree(db: Db, shop: int, main: int, ids: seq<int>)
    requires main in db.orders
  {
    var live := LiveOrders(db.orders);
    var lost, moved := LostOrders(db.orders, shop, main, ids), MovedOrders(db.orders, shop, main, ids);
    if main !in live then NoTracked(db.lines, (moved + lost) * live)
    else if !Swallowed(db.orders, shop, main, ids) then NoTracked(db.lines, moved - live)
    else forall k :: k in db.skus ==> UnitsOf(db, moved - live, k) == UnitsOf(db, lost * live, k)
  }

  // What a caller has to respect for a step not to drift.
  ghost predicate DriftFree(db: Db, step: Step) {
    match step
    case SplitStep(shop, o, entries) =>
      Found(db.orders, shop, o) && o != db.nextOrder && Split(db, o, entries).Some? ==>
        db.orders[o].status == Cancelled || TrackedInRange(db.lines, o, entries)
    case MergeStep(shop, main, ids) => Found(db.orders, shop, main) ==> MergeDriftFree(db, shop, main, ids)
    case StatusStep(shop, o, status) =>
      Found(db.orders, shop, o) && (db.orders[o].status == Cancelled <==> status != Cancelled) ==>
        NoTracked(db.lines, {o})
    case PaymentStep(o) => o in db.orders && db.orders[o].status == Cancelled ==> NoTracked(db.lines, {o})
    case _ => true
  }

  lemma MergeDriftFreeIff(db: Db, shop: int, main: int, ids: seq<int>)
    requires db.Valid() && main in db.orders
    ensures MergeDriftFree(db, shop, main, ids) <==>
            forall k :: k in db.skus ==> MergeDrift(db, shop, main, ids, k) == 0
  {
    var live := LiveOrders(db.orders);
    var lost, moved := LostOrders(db.orders, shop, main, ids), MovedOrders(db.orders, shop, main, ids);
    if main !in live {
      NoTrackedIff(db, (moved + lost) * live);
      assert forall k :: MergeDrift(db, shop, main, ids, k) == -UnitsOf(db, (moved + lost) * live, k);
    } else {
      NoTrackedIff(db, moved - live);
      assert lost * live == {} || Swallowed(db.orders, shop, main, ids);
      forall k ensures UnitsOf(db, {}, k) == 0 {
        NoOrdersNoUnits(db.lines, OfSku(k));
      }
      assert forall k ::
          MergeDrift(db, shop, main, ids, k) == UnitsOf(db, moved - live, k) - UnitsOf(db, lost * live, k);
    }
  }

  lemma {:induction false} NoOrdersNoUnits(lines: seq<Line>, c: Goods -> bool)
    ensures Units(lines, {}, c) == 0
  {
    if lines != [] {
      NoOrdersNoUnits(lines[1..], c);
    }
  }

  // A step drifts for no SKU if and only if it respects that.
  lemma DriftFreeIff(db: Db, step: Step)
    requires db.Valid()
    ensures DriftFree(db, step) <==> forall k :: k in db.skus ==> Drift(db, step, k) == 0
  {
    match step
    case SplitStep(shop, o, entries) => TrackedInRangeIff(db, o, entries);
    case MergeStep(shop, main, ids) =>
      if Found(db.orders, shop, main) {
        MergeDriftFreeIff(db, shop, main, ids);
        assert forall k :: Drift(db, step, k) == MergeDrift(db, shop, main, ids, k);
      }
    case StatusStep(shop, o, status) => NoTrackedIff(db, {o});
    case PaymentStep(o) => NoTrackedIff(db, {o});
    case _ =>
  }

  ghost predicate DriftFreeRun(db: Db, steps: seq<Step>)
    decreases |steps|
  {
    steps != [] ==> DriftFree(db, steps[0]) && DriftFreeRun(Apply(db, steps[0]), steps[1..])
  }

  lemma {:induction false} DriftFreeRunIff(db: Db, steps: seq<Step>)
    requires db.Valid()
    ensures DriftFreeRun(db, steps) <==>
            forall n, k :: 0 <= n <= |steps| && k in db.skus ==> TotalDrift(db, steps[..n], k) == 0
    decreases |steps|
  {
    if steps != [] {
      var one, rest := Apply(db, steps[0]), steps[1..];
      ApplyValid(db, steps[0]);
      DriftFreeRunIff(one, rest);
      DriftFreeIff(db, steps[0]);
      forall n, k | 0 <= n <= |rest| && k in db.skus
        ensures TotalDrift(db, steps[..n + 1], k) == Drift(db, steps[0], k) + TotalDrift(one, rest[..n], k)
      {
        assert steps[..n + 1][1..] == rest[..n];
      }
      assert forall k :: TotalDrift(one, rest[..0], k) == 0;
      if forall n, k :: 0 <= n <= |steps| && k in db.skus ==> TotalDrift(db, steps[..n], k) == 0 {
        forall k | k in db.skus ensures Drift(db, steps[0], k) == 0 {
          assert TotalDrift(db, steps[..0 + 1], k) == 0;
        }
        forall n, k | 0 <= n <= |rest| && k in db.skus ensures TotalDrift(one, rest[..n], k) == 0 {
          assert TotalDrift(db, steps[..n + 1], k) == 0;
        }
      }
      if DriftFreeRun(db, steps) {
        forall n, k | 0 <= n <= |steps| && k in db.skus ensures TotalDrift(db, steps[..n], k) == 0 {
          assert n > 0 ==> TotalDrift(db, steps[..n - 1 + 1], k) == TotalDrift(one, rest[..n - 1], k);
        }
      }
    }
  }

  // The ledger has changed by the shortfall alone.
  ghost predicate OnlyShortfall(db: Db, steps: seq<Step>, k: int)
    requires db.Valid() && k in db.skus
  {
    var d := Run(db, steps);
    k in d.stock && k in d.stockLog && Ledger(d, k) == Ledger(db, k) + TotalShortfall(db, steps, k)
  }

  // A run is free of drift if and only if at every point of it and for every SKU the ledger
  // has changed by the shortfall alone.
  lemma DriftFreeConservation(db: Db, steps: seq<Step>)
    requires db.Valid()
    ensures DriftFreeRun(db, steps) <==>
            forall n, k :: 0 <= n <= |steps| && k in db.skus ==> OnlyShortfall(db, steps[..n], k)
  {
    forall n, k | 0 <= n <= |steps| && k in db.skus
      ensures OnlyShortfall(db, steps[..n], k) <==> TotalDrift(db, steps[..n], k) == 0
    {
      StockConservation(db, steps[..n], k);
    }
    DriftFreeRunIff(db, steps);
  }

  lemma OneOrderUnits(db: Db)
    requires db == OneOrder(10.0, 0.0, 0.0, 0.0)
    ensures LiveOrders(db.orders) == {1} && UnitsOf(db, {1}, 1) == 1
  {
    SumIntOne(db.lines[0], UnitsOn({1}, OfSku(1)));
  }

  lemma LiveToCancelled(db: Db, shop: int, o: int, k: int)
    requires db.Valid() && k in db.skus && Found(db.orders, shop, o) && db.orders[o].status != Cancelled
    ensures var d := Apply(db, StatusStep(shop, o, Cancelled));
            d.stock == db.stock && LedgerChange(db, d, k, -UnitsOf(db, {o}, k))
  {
    StatusStepLedger(db, shop, o, Cancelled, k);
  }

  // Staff set a live order to "cancelled": its unit leaves the ledger and no stock comes back.
  lemma StatusDriftExample()
    ensures var db := OneOrder(10.0, 0.0, 0.0, 0.0);
            var d := Apply(db, StatusStep(1, 1, Cancelled));
      && db.Valid() && Ledger(db, 1) == 1
      && 1 in d.stock && 1 in d.stockLog && d.stock == db.stock && Ledger(d, 1) == 0
  {
    var db := OneOrder(10.0, 0.0, 0.0, 0.0);
    OneOrderValid(10.0, 0.0, 0.0, 0.0);
    OneOrderUnits(db);
    LiveToCancelled(db, 1, 1, 1);
  }
}
