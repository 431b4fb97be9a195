// POSService: discounts, splitting and merging at the till; quick orders are in Orders.
// This module says what each call does to the tables; PosSplit and PosMerge prove
// what that means.

module Pos {
  import opened Wrappers
  import opened ShopData

  // ---------- recalculation ----------

  function Recalculated(order: Order, subtotal: real): Order {
    order.(subtotal := subtotal, total := subtotal - order.discount)
  }

  function Recalculate(db: Db, o: int): Db
    requires o in db.orders
  {
    db.(orders := db.orders[o := Recalculated(db.orders[o], Money(db.lines, {o}))])
  }

  // ---------- discount ----------

  datatype DiscountType = Percentage | Fixed | OtherDiscount

  function DiscountFor(order: Order, kind: DiscountType, value: real): real {
    match kind
    case Percentage => order.subtotal * (value / 100.0)
    case Fixed => value
    case OtherDiscount => 0.0
  }

  function Discount(db: Db, o: int, kind: DiscountType, value: real): Db
    requires o in db.orders
  {
    var amount := DiscountFor(db.orders[o], kind, value);
    db.(orders := db.orders[o := db.orders[o].(discount := amount,
                                               total := db.orders[o].subtotal - amount)])
  }

  // No discount is limited by the order: the amount due stays non-negative exactly when a
  // percentage of a positive subtotal is at most one hundred, one of a negative subtotal at
  // least that, or a fixed amount at most the subtotal.
  lemma DueAfterDiscountIff(db: Db, o: int, kind: DiscountType, value: real)
    requires o in db.orders
    ensures var s := db.orders[o].subtotal;
            Discount(db, o, kind, value).orders[o].total >= 0.0 <==>
            match kind
            case Percentage => s == 0.0 || (s > 0.0 && value <= 100.0) || (s < 0.0 && value >= 100.0)
            case Fixed => value <= s
            case OtherDiscount => s >= 0.0
  {
    var s := db.orders[o].subtotal;
    assert s - s * (value / 100.0) == s * (1.0 - value / 100.0);
  }

  // ---------- split ----------

  // A missing quantity means "the whole line".
  datatype SplitEntry = SplitEntry(item: int, quantity: Option<int>)

  // The row of item `id` if it is still on order `o`.
  function FindLine(lines: seq<Line>, id: int, o: int): (r: Option<nat>)
    ensures r.Some? ==> r.value < |lines| && lines[r.value].id == id && lines[r.value].order == o
    ensures r.None? ==> forall i :: 0 <= i < |lines| ==> lines[i].id != id || lines[i].order != o
  {
    if lines == [] then None
    else if lines[0].id == id && lines[0].order == o then Some(0)
    else
      var rest := FindLine(lines[1..], id, o);
      assert forall i :: 0 < i < |lines| ==> lines[i] == lines[1..][i - 1];
      if rest.Some? then Some(rest.value + 1) else None
  }

  // What is left of a line after `q` units left it: nothing when it is used up.
  function Kept(l: Line, q: int): seq<Line> {
    if q < l.quantity
    then [l.(quantity := l.quantity - q, totalPrice := Price(l.unitPrice, l.quantity - q))]
    else []
  }

  function MovedLine(l: Line, id: int, n: int, q: int): Line {
    Line(id, n, l.product, l.sku, l.unitPrice, q, Price(l.unitPrice, q))
  }

  // One pass of the loop over the split data; a negative quantity breaks the CHECK
  // constraint of the column and rolls the whole split back (None).
  function SplitOne(db: Db, o: int, n: int, e: SplitEntry): Option<Db> {
    match FindLine(db.lines, e.item, o)
    case None => Some(db)
    case Some(i) =>
      var l := db.lines[i];
      var q := e.quantity.GetOr(l.quantity);
      if q < 0 then None
      else Some(db.(lines := db.lines[..i] + Kept(l, q) + db.lines[i + 1..] + [MovedLine(l, db.nextLine, n, q)],
                    nextLine := db.nextLine + 1))
  }

  function SplitLines(db: Db, o: int, n: int, entries: seq<SplitEntry>): Option<Db>
    decreases |entries|
  {
    if entries == [] then Some(db)
    else match SplitOne(db, o, n, entries[0])
      case None => None
      case Some(db') => SplitLines(db', o, n, entries[1..])
  }

  function NewSplitOrder(order: Order): Order {
    Order(order.shop, order.kind, order.status, false, 0.0, 0.0, 0.0, 0.0, [])
  }

  function WithNewOrder(db: Db, order: Order): Db {
    db.(orders := db.orders[db.nextOrder := order], nextOrder := db.nextOrder + 1)
  }

  lemma WithNewOrderValid(db: Db, order: Order)
    requires db.Valid()
    ensures WithNewOrder(db, order).Valid()
    ensures db.nextOrder !in db.orders
  {
  }

  lemma {:induction false} SplitLinesKeepsOrders(db: Db, o: int, n: int, entries: seq<SplitEntry>)
    ensures var r := SplitLines(db, o, n, entries);
            r.Some? ==> r.value == db.(lines := r.value.lines, nextLine := r.value.nextLine)
    decreases |entries|
  {
    if entries != [] {
      var one := SplitOne(db, o, n, entries[0]);
      if one.Some? {
        SplitLinesKeepsOrders(one.value, o, n, entries[1..]);
      }
    }
  }

  // The new order's number is `db.nextOrder`.
  function Split(db: Db, o: int, entries: seq<SplitEntry>): Option<Db>
    requires o in db.orders && o != db.nextOrder
  {
    var n := db.nextOrder;
    var start := WithNewOrder(db, NewSplitOrder(db.orders[o]));
    SplitLinesKeepsOrders(start, o, n, entries);
    match SplitLines(start, o, n, entries)
    case None => None
    case Some(moved) => Some(Recalculate(Recalculate(moved, o), n))
  }

  // ---------- merge ----------

  // Every item of order `id` is moved to the order `main`.
  function Reparent(lines: seq<Line>, id: int, main: int): (r: seq<Line>)
    ensures |r| == |lines|
    ensures forall i :: 0 <= i < |lines| ==>
              r[i] == if lines[i].order == id then lines[i].(order := main) else lines[i]
  {
    if lines == [] then []
    else [if lines[0].order == id then lines[0].(order := main) else lines[0]] + Reparent(lines[1..], id, main)
  }

  predicate Found(orders: map<int, Order>, shop: int, id: int) {
    id in orders && orders[id].shop == shop
  }

  // Deleting an order deletes the lines it still has.
  function MergeOne(db: Db, shop: int, main: int, id: int): Db {
    if Found(db.orders, shop, id)
    then db.(lines := LinesOff(Reparent(db.lines, id, main), {id}), orders := db.orders - {id})
    else db
  }

  function MergeLines(db: Db, shop: int, main: int, ids: seq<int>): Db
    decreases |ids|
  {
    if ids == [] then db else MergeLines(MergeOne(db, shop, main, ids[0]), shop, main, ids[1..])
  }

  // The main order is held in memory during the loop: when the loop deleted its row,
  // saving it inserts the row again, now without a status log.
  function SavedMain(before: Db, after: Db, main: int): Order
    requires main in before.orders
  {
    var order := if main in after.orders then before.orders[main] else before.orders[main].(history := []);
    Recalculated(order, Money(after.lines, {main}))
  }

  function Merge(db: Db, shop: int, main: int, ids: seq<int>): Db
    requires main in db.orders
  {
    var after := MergeLines(db, shop, main, ids);
    after.(orders := after.orders[main := SavedMain(db, after, main)])
  }
}
