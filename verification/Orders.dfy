// Carts, checkout, the till's quick order, cancelling, and status changes.
// All of them put lines on an order or take stock; Sell is the pass they share.

module Orders {
  import opened Wrappers
  import opened ShopData
  import opened Pos

  // ---------- selling one item ----------

  // What a cart line or a request item comes down to once prices are looked up.
  datatype Sale = Sale(product: int, sku: Option<int>, unitPrice: real, quantity: int, totalPrice: real)

  function SoldLine(sale: Sale, id: int, o: int): Line {
    Line(id, o, sale.product, sale.sku, sale.unitPrice, sale.quantity, sale.totalPrice)
  }

  // Checkout subtracts freely; the till stops at zero.
  function TakeStock(stock: map<int, int>, sku: Option<int>, q: int, floor: bool): map<int, int> {
    if sku.Some? && sku.value in stock
    then stock[sku.value := if floor then Max(0, stock[sku.value] - q) else stock[sku.value] - q]
    else stock
  }

  function Sell(db: Db, o: int, sale: Sale, floor: bool): Db {
    db.(lines := db.lines + [SoldLine(sale, db.nextLine, o)], nextLine := db.nextLine + 1,
        stock := TakeStock(db.stock, sale.sku, sale.quantity, floor))
  }

  function SellAll(db: Db, o: int, sales: seq<Sale>, floor: bool): Db
    decreases |sales|
  {
    if sales == [] then db else SellAll(Sell(db, o, sales[0], floor), o, sales[1..], floor)
  }

  // ---------- carts ----------

  function CartPrice(c: CartItem): real {
    (c.unitPrice + c.surcharge) * (c.quantity as real)
  }

  // Cart.total_price and Cart.total_quantity.
  function CartTotal(items: seq<CartItem>): real {
    SumReal(items, CartPrice)
  }

  function CartQuantity(items: seq<CartItem>): int {
    SumInt(items, (c: CartItem) => c.quantity)
  }

  function FindCartItem(items: seq<CartItem>, product: int, sku: Option<int>): (r: Option<nat>)
    ensures r.Some? ==> r.value < |items| && items[r.value].product == product && items[r.value].sku == sku
    ensures r.None? ==> forall i :: 0 <= i < |items| ==> items[i].product != product || items[i].sku != sku
  {
    if items == [] then None
    else if items[0].product == product && items[0].sku == sku then Some(0)
    else
      var rest := FindCartItem(items[1..], product, sku);
      assert forall i :: 0 < i < |items| ==> items[i] == items[1..][i - 1];
      if rest.Some? then Some(rest.value + 1) else None
  }

  // The user's cart, created when there is none.
  function WithCart(db: Db, user: int): (d: Db)
    ensures user in d.carts
  {
    if user in db.carts then db
    else db.(carts := db.carts[user := Cart(db.nextCart, [])], nextCart := db.nextCart + 1)
  }

  // The price of a new cart line; it is looked up whether or not the line exists.
  function UnitPrice(db: Db, product: int, sku: Option<int>): Option<real> {
    if product !in db.products then None
    else if !Given(sku) then Some(db.products[product].basePrice)
    else if sku.value in db.skus then Some(db.skus[sku.value].price)
    else None
  }

  // `surcharge` is the sum of the additional prices of the options in the request, if
  // it names any: they replace the options of an existing line.
  function PutInCart(items: seq<CartItem>, product: int, sku: Option<int>, quantity: int,
                     unitPrice: real, surcharge: Option<real>): seq<CartItem> {
    match FindCartItem(items, product, sku)
    case None => items + [CartItem(product, sku, quantity, unitPrice, surcharge.GetOr(0.0))]
    case Some(i) => items[i := items[i].(quantity := items[i].quantity + quantity,
                                         surcharge := surcharge.GetOr(items[i].surcharge))]
  }

  // The cart is created even when the product is then not found. A SKU id that is
  // given but falsy breaks the foreign key of a new line.
  function AddItem(db: Db, user: int, product: int, sku: Option<int>, quantity: int, surcharge: Option<real>): Db {
    if quantity < 1 then db
    else
      var d := WithCart(db, user);
      var price := UnitPrice(d, product, sku);
      if price.None? || (sku.Some? && !Given(sku)) then d
      else d.(carts := d.carts[user := d.carts[user].(items :=
               PutInCart(d.carts[user].items, product, sku, quantity, price.value, surcharge))])
  }

  function ClearCart(db: Db, user: int): Db {
    var d := WithCart(db, user);
    d.(carts := d.carts[user := d.carts[user].(items := [])])
  }

  // ---------- checkout ----------

  datatype ItemData = ItemData(product: int, sku: Option<int>, quantity: int)

  function CartSale(c: CartItem): Sale {
    Sale(c.product, c.sku, c.unitPrice, c.quantity, CartPrice(c))
  }

  function CartSales(items: seq<CartItem>): seq<Sale> {
    if items == [] then [] else [CartSale(items[0])] + CartSales(items[1..])
  }

  // A missing product or SKU raises, and a negative quantity breaks the CHECK
  // constraint of the line: either rolls the whole checkout back (None).
  function DataSale(db: Db, item: ItemData): Option<Sale> {
    var price := UnitPrice(db, item.product, item.sku);
    if price.None? || item.quantity < 0 then None
    else Some(Sale(item.product, if Given(item.sku) then item.sku else None,
                   price.value, item.quantity, Price(price.value, item.quantity)))
  }

  function DataSales(db: Db, items: seq<ItemData>): Option<seq<Sale>> {
    if items == [] then Some([])
    else
      var first, rest := DataSale(db, items[0]), DataSales(db, items[1..]);
      if first.None? || rest.None? then None else Some([first.value] + rest.value)
  }

  function NewOrder(shop: int, kind: OrderType): Order {
    Order(shop, kind, Pending, false, 0.0, 0.0, 0.0, 0.0, [])
  }

  function FeeFor(kind: OrderType, fee: real): real {
    if kind == Delivery then fee else 0.0
  }

  function Totalled(order: Order, subtotal: real, fee: real): Order {
    var deliveryFee := FeeFor(order.kind, fee);
    order.(subtotal := subtotal, deliveryFee := deliveryFee, total := subtotal + deliveryFee - order.discount)
  }

  // The amounts as checkout stores them; `fee` is the delivery fee of the shop.
  function CalculateTotals(db: Db, o: int, fee: real): Db
    requires o in db.orders
  {
    db.(orders := db.orders[o := Totalled(db.orders[o], Money(db.lines, {o}), fee)])
  }

  function Logged(order: Order, before: Status, after: Status): Order {
    order.(status := after, history := order.history + [StatusChange(before, after)])
  }

  lemma {:induction false} SellAllKeeps(db: Db, o: int, sales: seq<Sale>, floor: bool)
    ensures var d := SellAll(db, o, sales, floor);
            d == db.(lines := d.lines, nextLine := d.nextLine, stock := d.stock)
    decreases |sales|
  {
    if sales != [] {
      SellAllKeeps(Sell(db, o, sales[0], floor), o, sales[1..], floor);
    }
  }

  predicate HasCart(db: Db, user: int, cart: Option<int>) {
    Given(cart) && user in db.carts && db.carts[user].id == cart.value
  }

  // The part of a checkout that turns the cart into lines and empties it.
  function CheckoutCart(db: Db, o: int, user: int, fee: real): (d: Db)
    requires user in db.carts && o in db.orders
    ensures d.orders.Keys == db.orders.Keys
  {
    SellAllKeeps(db, o, CartSales(db.carts[user].items), false);
    var d := SellAll(db, o, CartSales(db.carts[user].items), false);
    CalculateTotals(d.(carts := d.carts[user := d.carts[user].(items := [])]), o, fee)
  }

  function CheckoutItems(db: Db, o: int, items: seq<ItemData>, fee: real): (r: Option<Db>)
    requires o in db.orders
    ensures r.Some? ==> r.value.orders.Keys == db.orders.Keys
  {
    if items == [] then Some(db)
    else match DataSales(db, items)
      case None => None
      case Some(sales) =>
        SellAllKeeps(db, o, sales, false);
        Some(CalculateTotals(SellAll(db, o, sales, false), o, fee))
  }

  function CartPart(db: Db, o: int, user: int, cart: Option<int>, fee: real): (d: Db)
    requires o in db.orders && (Given(cart) ==> user in db.carts)
    ensures d.orders.Keys == db.orders.Keys
  {
    if Given(cart) then CheckoutCart(db, o, user, fee) else db
  }

  function WithFirstLog(db: Db, o: int): Db
    requires o in db.orders
  {
    db.(orders := db.orders[o := Logged(db.orders[o], Pending, Pending)])
  }

  // The new order's number is `db.nextOrder`. A cart that does not exist leaves an
  // empty order without a status log; anything that raises leaves nothing (None).
  function Checkout(db: Db, shop: int, user: int, cart: Option<int>, kind: OrderType, fee: real,
                    items: seq<ItemData>): Option<Db>
  {
    var o := db.nextOrder;
    var start := WithNewOrder(db, NewOrder(shop, kind));
    if Given(cart) && !HasCart(db, user, cart) then Some(start)
    else match CheckoutItems(CartPart(start, o, user, cart, fee), o, items, fee)
      case None => None
      case Some(d) => Some(WithFirstLog(d, o))
  }

  // ---------- quick order ----------

  // An item whose product is not in the shop, or whose SKU is not one of the product,
  // is skipped.
  function QuickSale(db: Db, shop: int, item: ItemData): Option<Sale> {
    if item.product !in db.products || db.products[item.product].shop != shop then None
    else if !Given(item.sku) then
      var price := db.products[item.product].basePrice;
      Some(Sale(item.product, None, price, item.quantity, Price(price, item.quantity)))
    else if item.sku.value !in db.skus || db.skus[item.sku.value].product != item.product then None
    else
      var price := db.skus[item.sku.value].price;
      Some(Sale(item.product, item.sku, price, item.quantity, Price(price, item.quantity)))
  }

  function QuickSales(db: Db, shop: int, items: seq<ItemData>): seq<Sale> {
    if items == [] then []
    else
      var first := QuickSale(db, shop, items[0]);
      (if first.Some? then [first.value] else []) + QuickSales(db, shop, items[1..])
  }

  function SalesTotal(sales: seq<Sale>): real {
    SumReal(sales, (s: Sale) => s.totalPrice)
  }

  function QuickOrderRow(shop: int, kind: OrderType, subtotal: real): Order {
    Order(shop, kind, Status.Paid, true, subtotal, 0.0, 0.0, subtotal, [])
  }

  // The request is rejected when an item asks for less than one unit.
  predicate Rejected(items: seq<ItemData>) {
    exists i :: 0 <= i < |items| && items[i].quantity < 1
  }

  // `subtotal` is accumulated in the loop and written once the lines exist.
  function QuickOrder(db: Db, shop: int, kind: OrderType, items: seq<ItemData>): (r: Db)
    ensures !Rejected(items) ==> db.nextOrder in r.orders && r.nextOrder == db.nextOrder + 1
  {
    if Rejected(items) then db
    else
      var o := db.nextOrder;
      var sales := QuickSales(db, shop, items);
      SellAllKeeps(WithNewOrder(db, QuickOrderRow(shop, kind, 0.0)), o, sales, true);
      var d := SellAll(WithNewOrder(db, QuickOrderRow(shop, kind, 0.0)), o, sales, true);
      d.(orders := d.orders[o := QuickOrderRow(shop, kind, SalesTotal(sales))])
  }

  // ---------- cancelling and status changes ----------

  predicate Cancellable(status: Status) {
    status == Pending || status == Status.Paid || status == Confirmed
  }

  // Stock after every item of order `o` that has a SKU has given its quantity back.
  function Restocked(stock: map<int, int>, lines: seq<Line>, o: int): map<int, int> {
    if lines == [] then stock
    else
      var l := lines[0];
      Restocked(if l.order == o && l.sku.Some? && l.sku.value in stock
                then stock[l.sku.value := stock[l.sku.value] + l.quantity] else stock, lines[1..], o)
  }

  function Cancel(db: Db, o: int): Db {
    if o !in db.orders || !Cancellable(db.orders[o].status) then db
    else db.(orders := db.orders[o := Logged(db.orders[o], db.orders[o].status, Cancelled)],
             stock := Restocked(db.stock, db.lines, o))
  }

  function SetStatus(db: Db, o: int, status: Status): Db {
    if o !in db.orders then db
    else db.(orders := db.orders[o := Logged(db.orders[o], db.orders[o].status, status)])
  }

  // A payment callback sets the order to paid without a log row.
  function PaymentArrived(db: Db, o: int): Db {
    if o !in db.orders then db
    else db.(orders := db.orders[o := db.orders[o].(status := Status.Paid, paid := true)])
  }
}
