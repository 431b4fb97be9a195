// The tables that ordering, the till and the stock room share.
// A table whose rows are only looked up by key is a map; the order lines, which are
// also scanned, are a sequence in primary-key order.

module ShopData {
  import opened Wrappers

  datatype Status =
    | Pending | Paid | Confirmed | Preparing | Ready | Completed | Cancelled | Refunded

  datatype OrderType = DineIn | Takeaway | Delivery

  // One row of the status log of an order.
  datatype StatusChange = StatusChange(before: Status, after: Status)

  // One row of the inventory log of a SKU.
  datatype StockLog = StockLog(change: int, current: int)

  datatype Product = Product(shop: int, basePrice: real)

  datatype Sku = Sku(product: int, price: real)

  // `history` is the order's status log, oldest row first; it is deleted with the order.
  datatype Order = Order(shop: int, kind: OrderType, status: Status, paid: bool,
                         subtotal: real, deliveryFee: real, discount: real, total: real,
                         history: seq<StatusChange>)

  datatype Line = Line(id: int, order: int, product: int, sku: Option<int>,
                       unitPrice: real, quantity: int, totalPrice: real)

  // `surcharge` is the sum of the additional prices of the chosen attribute options.
  datatype CartItem = CartItem(product: int, sku: Option<int>, quantity: int,
                               unitPrice: real, surcharge: real)

  datatype Cart = Cart(id: int, items: seq<CartItem>)

  // An optional foreign key in a request counts as given when it is truthy.
  predicate Given(id: Option<int>) {
    id.Some? && id.value != 0
  }

  function Price(unitPrice: real, quantity: int): real {
    unitPrice * (quantity as real)
  }

  lemma PriceAdds(u: real, a: int, b: int)
    ensures Price(u, a + b) == Price(u, a) + Price(u, b)
  {
  }

  predicate CartItemOk(skus: map<int, Sku>, c: CartItem) {
    c.quantity >= 1 && (c.sku.Some? ==> c.sku.value in skus)
  }

  // No two lines for the same product and SKU.
  ghost predicate UniqueLines(items: seq<CartItem>) {
    forall i, j :: 0 <= i < j < |items| ==> items[i].product != items[j].product || items[i].sku != items[j].sku
  }

  ghost predicate CartOk(skus: map<int, Sku>, items: seq<CartItem>) {
    (forall i :: 0 <= i < |items| ==> CartItemOk(skus, items[i])) && UniqueLines(items)
  }

  // `stock` and `stockLog` are the mutable part of a SKU.
  datatype Db = Db(products: map<int, Product>, skus: map<int, Sku>,
                   stock: map<int, int>, stockLog: map<int, seq<StockLog>>,
                   orders: map<int, Order>, lines: seq<Line>, carts: map<int, Cart>,
                   nextOrder: int, nextLine: int, nextCart: int)
  {
    // Primary keys are unique and fresh ones are above them; foreign keys resolve; a cart
    // has one line per product and SKU.
    ghost predicate Valid() {
      && stock.Keys == skus.Keys
      && stockLog.Keys == skus.Keys
      && (forall i, j :: 0 <= i < j < |lines| ==> lines[i].id != lines[j].id)
      && (forall i :: 0 <= i < |lines| ==> LineOk(lines[i]))
      && (forall o :: o in orders ==> o < nextOrder)
      && (forall u :: u in carts ==> CartOk(skus, carts[u].items))
    }

    ghost predicate LineOk(l: Line) {
      && l.id < nextLine && l.order in orders && l.quantity >= 0
      && (l.sku.Some? ==> l.sku.value in skus)
    }
  }

  // ---------- measures over the order lines ----------

  // What identifies the goods on a line.
  datatype Goods = Goods(product: int, sku: Option<int>, unitPrice: real)

  function GoodsOf(l: Line): Goods {
    Goods(l.product, l.sku, l.unitPrice)
  }

  function UnitsAt(l: Line, s: set<int>, c: Goods -> bool): int {
    if l.order in s && c(GoodsOf(l)) then l.quantity else 0
  }

  function UnitsOn(s: set<int>, c: Goods -> bool): Line -> int {
    (l: Line) => UnitsAt(l, s, c)
  }

  // Units of the goods `c` on the orders `s`.
  function Units(lines: seq<Line>, s: set<int>, c: Goods -> bool): int {
    SumInt(lines, UnitsOn(s, c))
  }

  function MoneyAt(l: Line, s: set<int>): real {
    if l.order in s then l.totalPrice else 0.0
  }

  function MoneyOn(s: set<int>): Line -> real {
    (l: Line) => MoneyAt(l, s)
  }

  // Sum of the line totals on the orders `s`.
  function Money(lines: seq<Line>, s: set<int>): real {
    SumReal(lines, MoneyOn(s))
  }

  // The lines that are on none of the orders `s`, in table order.
  function LinesOff(lines: seq<Line>, s: set<int>): seq<Line> {
    if lines == [] then []
    else (if lines[0].order in s then [] else [lines[0]]) + LinesOff(lines[1..], s)
  }

  lemma {:induction false} LinesOffConcat(a: seq<Line>, b: seq<Line>, s: set<int>)
    ensures LinesOff(a + b, s) == LinesOff(a, s) + LinesOff(b, s)
  {
    if a == [] {
      assert a + b == b;
    } else {
      assert (a + b)[1..] == a[1..] + b;
      LinesOffConcat(a[1..], b, s);
    }
  }

  function OfSku(k: int): Goods -> bool {
    (g: Goods) => g.sku == Some(k)
  }

  function LiveOrders(orders: map<int, Order>): set<int> {
    set o | o in orders && orders[o].status != Cancelled
  }

  lemma {:induction false} MoneyOfTwo(lines: seq<Line>, a: int, b: int)
    requires a != b
    ensures Money(lines, {a, b}) == Money(lines, {a}) + Money(lines, {b})
  {
    if lines != [] {
      MoneyOfTwo(lines[1..], a, b);
    }
  }

  lemma {:induction false} NoLinesNoMoney(lines: seq<Line>, s: set<int>)
    requires forall i :: 0 <= i < |lines| ==> lines[i].order !in s
    ensures Money(lines, s) == 0.0
    ensures forall c :: Units(lines, s, c) == 0
  {
    if lines != [] {
      NoLinesNoMoney(lines[1..], s);
      forall c ensures Units(lines, s, c) == 0 {
        assert Units(lines[1..], s, c) == 0;
      }
    }
  }

  // ---------- well-formed tables ----------

  lemma AppendValid(db: Db, rows: seq<Line>, l: Line)
    requires db.Valid()
    requires forall i, j :: 0 <= i < j < |rows| ==> rows[i].id != rows[j].id
    requires forall i :: 0 <= i < |rows| ==> db.LineOk(rows[i])
    requires l.id == db.nextLine && db.LineOk(l.(id := l.id - 1))
    ensures db.(lines := rows + [l], nextLine := db.nextLine + 1).Valid()
  {
  }

  // A change of the money, status and log of orders, of stock numbers and of stock logs
  // cannot break a key.
  lemma SameKeysValid(db: Db, d: Db)
    requires db.Valid()
    requires d.lines == db.lines && d.nextLine == db.nextLine && d.nextOrder == db.nextOrder && d.skus == db.skus
    requires d.orders.Keys == db.orders.Keys && d.stock.Keys == db.stock.Keys && d.stockLog.Keys == db.stockLog.Keys
    requires forall u :: u in d.carts ==> CartOk(d.skus, d.carts[u].items)
    ensures d.Valid()
  {
  }
}
