// The payment transactions of the shop's orders beside every other request: creating one,
// the gateway's callback, and what a merge does to them.

module OrderPayments {
  import opened ShopData
  import opened Pos
  import opened PosSplit
  import opened PosMerge
  import opened Orders
  import opened OrderEffects
  import opened Lifecycle
  import opened Requests
  import P = Payments
  import S = ShopService

  // A transaction carries the order's number as its trade number, and nothing keeps two
  // of them from carrying the same one.
  datatype Row = Row(order: int, amount: real, status: P.PaymentStatus)

  datatype Till = Till(db: Db, rows: seq<Row>)

  // A payment step of the shop is the gateway's callback.
  datatype PayStep =
    | CreatePayment(order: int, gateway: bool)
    | Request(step: Step)

  function RowsOf(rows: seq<Row>, order: int): nat {
    if rows == [] then 0 else (if rows[0].order == order then 1 else 0) + RowsOf(rows[1..], order)
  }

  function MarkPaid(rows: seq<Row>, order: int): seq<Row> {
    if rows == [] then []
    else [if rows[0].order == order then rows[0].(status := P.Paid) else rows[0]] + MarkPaid(rows[1..], order)
  }

  // The rows of none of the orders `s`.
  function RowsOff(rows: seq<Row>, s: set<int>): seq<Row> {
    if rows == [] then []
    else (if rows[0].order in s then [] else [rows[0]]) + RowsOff(rows[1..], s)
  }

  // The orders whose rows a request deletes; a main order that comes across itself is
  // inserted again, but not its transactions.
  function Deleted(db: Db, step: Step): set<int> {
    match step
    case MergeStep(shop, main, ids) => if Found(db.orders, shop, main) then Named(db.orders, shop, ids) else {}
    case _ => {}
  }

  // A payment can be created while the order is pending; its row stays also when the
  // gateway refuses. A callback needs exactly one row: none is "not found", several raise.
  function PayApply(t: Till, step: PayStep): Till {
    match step
    case CreatePayment(o, gateway) =>
      if o !in t.db.orders || t.db.orders[o].status != Pending then t
      else t.(rows := t.rows + [Row(o, t.db.orders[o].total, if gateway then P.Pending else P.Failed)])
    case Request(PaymentStep(o)) =>
      if o !in t.db.orders || RowsOf(t.rows, o) != 1 then t
      else Till(Apply(t.db, PaymentStep(o)), MarkPaid(t.rows, o))
    case Request(step) => Till(Apply(t.db, step), RowsOff(t.rows, Deleted(t.db, step)))
  }

  function PayRun(t: Till, steps: seq<PayStep>): Till
    decreases |steps|
  {
    if steps == [] then t else PayRun(PayApply(t, steps[0]), steps[1..])
  }

  lemma {:induction false} RowsAppended(rows: seq<Row>, r: Row, order: int)
    ensures RowsOf(rows + [r], order) == RowsOf(rows, order) + (if r.order == order then 1 else 0)
  {
    if rows == [] {
      assert rows + [r] == [r] && [r][1..] == [];
    } else {
      assert (rows + [r])[1..] == rows[1..] + [r];
      RowsAppended(rows[1..], r, order);
    }
  }

  lemma {:induction false} MarkKeepsRows(rows: seq<Row>, o: int, order: int)
    ensures RowsOf(MarkPaid(rows, o), order) == RowsOf(rows, order)
  {
    if rows != [] {
      MarkKeepsRows(rows[1..], o, order);
      assert MarkPaid(rows, o)[1..] == MarkPaid(rows[1..], o);
    }
  }

  lemma {:induction false} RowsLeft(rows: seq<Row>, s: set<int>, order: int)
    ensures RowsOf(RowsOff(rows, s), order) == if order in s then 0 else RowsOf(rows, order)
  {
    if rows != [] {
      RowsLeft(rows[1..], s, order);
      var rest := RowsOff(rows[1..], s);
      if rows[0].order !in s {
        assert RowsOff(rows, s) == [rows[0]] + rest && ([rows[0]] + rest)[1..] == rest;
      } else {
        assert RowsOff(rows, s) == rest;
      }
    }
  }

  // ---------- what a request does to the payment flag of an order ----------

  // Order `o` keeps its flag, or it is deleted for good; only as the main order of a merge
  // can it be deleted and still be there.
  ghost predicate FlagKept(db: Db, d: Db, step: Step, o: int) {
    && db.nextOrder <= d.nextOrder
    && (o in d.orders <==> o in db.orders && (o in Deleted(db, step) ==> step.MergeStep? && o == step.order))
    && (o in d.orders ==> d.orders[o].paid == db.orders[o].paid)
  }

  lemma SaleKeepsFlags(db: Db, step: Step, o: int)
    requires db.Valid() && (step.CheckoutStep? || step.QuickOrderStep?) && o < db.nextOrder
    ensures FlagKept(db, Apply(db, step), step, o)
  {
    match step
    case CheckoutStep(shop, user, cart, kind, fee, items) =>
      if Checkout(db, shop, user, cart, kind, fee, items).Some? {
        CheckoutResult(db, shop, user, cart, kind, fee, items);
        SellAllKeeps(WithNewOrder(db, NewOrder(shop, kind)), db.nextOrder, CheckoutSales(db, user, cart, items), false);
      }
    case QuickOrderStep(shop, kind, items) =>
      if !Rejected(items) {
        QuickOrderResult(db, shop, kind, items);
      }
  }

  lemma MergeKeepsFlags(db: Db, step: Step, o: int)
    requires db.Valid() && step.MergeStep? && o < db.nextOrder
    ensures FlagKept(db, Apply(db, step), step, o)
  {
    if Found(db.orders, step.shop, step.order) {
      MergeResult(db, step.shop, step.order, step.ids);
      BeforeIn(step.ids, step.order);
    }
  }

  lemma SplitKeepsFlags(db: Db, step: Step, o: int)
    requires db.Valid() && step.SplitStep? && o < db.nextOrder
    ensures FlagKept(db, Apply(db, step), step, o)
  {
    if Found(db.orders, step.shop, step.order) && Split(db, step.order, step.entries).Some? {
      SplitResult(db, step.order, step.entries);
    }
  }

  lemma RequestKeepsFlags(db: Db, step: Step, o: int)
    requires db.Valid() && !step.PaymentStep? && o < db.nextOrder
    ensures FlagKept(db, Apply(db, step), step, o)
  {
    if EditsInPlace(step) {
      EditsKeepKeys(db, step);
    } else if step.CheckoutStep? || step.QuickOrderStep? {
      SaleKeepsFlags(db, step, o);
    } else {
      match step
      case AddItemStep(user, product, sku, q, surcharge) => AddItemValid(db, user, product, sku, q, surcharge);
      case ClearCartStep(user) => ClearCartValid(db, user);
      case SplitStep(_, _, _) => SplitKeepsFlags(db, step, o);
      case MergeStep(_, _, _) => MergeKeepsFlags(db, step, o);
      case StockTakeStep(s) => BulkValid(db, s.shop, s.updates);
    }
  }

  // ---------- two payments block the callback ----------

  predicate IsPaid(t: Till, o: int) {
    o in t.db.orders && t.db.orders[o].paid
  }

  // Not paid, and gone or with two payments.
  predicate Blocked(t: Till, o: int) {
    o < t.db.nextOrder && !IsPaid(t, o) && (o in t.db.orders ==> RowsOf(t.rows, o) >= 2)
  }

  // A merge of order `o` whose list comes across the order itself.
  predicate FreesItself(t: Till, step: PayStep, o: int) {
    step.Request? && step.step.MergeStep? && step.step.order == o &&
    Swallowed(t.db.orders, step.step.shop, o, step.step.ids)
  }

  lemma PayApplyValid(t: Till, step: PayStep)
    requires t.db.Valid()
    ensures PayApply(t, step).db.Valid()
  {
    if step.Request? {
      ApplyValid(t.db, step.step);
    }
  }

  lemma RequestStaysBlocked(t: Till, step: Step, o: int)
    requires t.db.Valid() && Blocked(t, o) && !step.PaymentStep? && !FreesItself(t, Request(step), o)
    ensures Blocked(PayApply(t, Request(step)), o)
  {
    RequestKeepsFlags(t.db, step, o);
    RowsLeft(t.rows, Deleted(t.db, step), o);
    assert o in t.db.orders && o in Deleted(t.db, step) ==> o !in Apply(t.db, step).orders;
  }

  // Every other step leaves it so.
  lemma StaysBlocked(t: Till, step: PayStep, o: int)
    requires t.db.Valid() && Blocked(t, o) && !FreesItself(t, step, o)
    ensures Blocked(PayApply(t, step), o)
  {
    match step
    case CreatePayment(x, gateway) =>
      if x in t.db.orders {
        RowsAppended(t.rows, Row(x, t.db.orders[x].total, if gateway then P.Pending else P.Failed), o);
      }
    case Request(PaymentStep(x)) => MarkKeepsRows(t.rows, x, o);
    case Request(s) => RequestStaysBlocked(t, s, o);
  }

  // No merge into order `o` names that order.
  ghost predicate NoSelfMerge(steps: seq<PayStep>, o: int) {
    forall i :: 0 <= i < |steps| && steps[i].Request? && steps[i].step.MergeStep? && steps[i].step.order == o ==>
      o !in steps[i].step.ids
  }

  lemma {:induction false} BlockedForGood(t: Till, o: int, steps: seq<PayStep>)
    requires t.db.Valid() && Blocked(t, o) && NoSelfMerge(steps, o)
    ensures !IsPaid(PayRun(t, steps), o)
    decreases |steps|
  {
    if steps != [] {
      PayApplyValid(t, steps[0]);
      StaysBlocked(t, steps[0], o);
      assert forall i :: 0 <= i < |steps| - 1 ==> steps[1..][i] == steps[i + 1];
      BlockedForGood(PayApply(t, steps[0]), o, steps[1..]);
    }
  }

  // Once an order that is not paid has two payments, no requests whatever set its payment
  // flag, unless one merges the order into itself.
  lemma SecondPaymentBlocks(t: Till, o: int, steps: seq<PayStep>)
    requires t.db.Valid() && o in t.db.orders && !IsPaid(t, o) && RowsOf(t.rows, o) >= 2 && NoSelfMerge(steps, o)
    ensures !IsPaid(PayRun(t, steps), o)
  {
    BlockedForGood(t, o, steps);
  }

  // A payment that the gateway refused stays in the table, so the callback of the retry
  // finds two.
  lemma RetryBlocksPayment(t: Till, o: int, steps: seq<PayStep>)
    requires t.db.Valid() && o in t.db.orders && t.db.orders[o].status == Pending && !IsPaid(t, o)
    requires NoSelfMerge(steps, o)
    ensures !IsPaid(PayRun(t, [CreatePayment(o, false), CreatePayment(o, true)] + steps), o)
  {
    var first, second := CreatePayment(o, false), CreatePayment(o, true);
    var one := PayApply(t, first);
    var two := PayApply(one, second);
    RowsAppended(t.rows, Row(o, t.db.orders[o].total, P.Failed), o);
    RowsAppended(one.rows, Row(o, t.db.orders[o].total, P.Pending), o);
    SecondPaymentBlocks(two, o, steps);
    PayRunConcat(t, [first, second], steps);
    PayRunTwo(t, first, second);
  }

  lemma {:induction false} PayRunConcat(t: Till, a: seq<PayStep>, b: seq<PayStep>)
    ensures PayRun(t, a + b) == PayRun(PayRun(t, a), b)
    decreases |a|
  {
    if a == [] {
      assert a + b == b;
    } else {
      assert (a + b)[1..] == a[1..] + b;
      PayRunConcat(PayApply(t, a[0]), a[1..], b);
    }
  }

  lemma PayRunOne(t: Till, a: PayStep)
    ensures PayRun(t, [a]) == PayApply(t, a)
  {
    assert [a][1..] == [];
  }

  lemma PayRunTwo(t: Till, a: PayStep, b: PayStep)
    ensures PayRun(t, [a, b]) == PayApply(PayApply(t, a), b)
  {
    assert [a] + [b] == [a, b];
    PayRunConcat(t, [a], [b]);
    PayRunOne(t, a);
    PayRunOne(PayApply(t, a), b);
  }

  // ---------- one payment, and what can still be paid ----------

  lemma CallbackPays(t: Till, o: int)
    requires o in t.db.orders && RowsOf(t.rows, o) == 1
    ensures var after := PayApply(t, Request(PaymentStep(o)));
            IsPaid(after, o) && after.db.orders[o].status == Status.Paid
  {
  }

  // On an order without payments, create and then callback pays it, whether or not the
  // gateway accepted: the callback does not look at the status of the row.
  lemma OnePaymentPays(t: Till, o: int, gateway: bool)
    requires o in t.db.orders && t.db.orders[o].status == Pending && RowsOf(t.rows, o) == 0
    ensures var after := PayRun(t, [CreatePayment(o, gateway), Request(PaymentStep(o))]);
            IsPaid(after, o) && after.db.orders[o].status == Status.Paid
  {
    var create, result := CreatePayment(o, gateway), Request(PaymentStep(o));
    RowsAppended(t.rows, Row(o, t.db.orders[o].total, if gateway then P.Pending else P.Failed), o);
    CallbackPays(PayApply(t, create), o);
    PayRunTwo(t, create, result);
  }

  // Staff can set any order back to "pending".
  lemma Reopened(t: Till, o: int)
    requires o in t.db.orders
    ensures var after := PayApply(t, Request(StatusStep(t.db.orders[o].shop, o, Pending)));
            o in after.db.orders && after.db.orders[o].status == Pending && RowsOf(after.rows, o) == RowsOf(t.rows, o)
  {
    RowsLeft(t.rows, {}, o);
  }

  ghost predicate CanBePaid(t: Till, o: int) {
    exists steps :: NoSelfMerge(steps, o) && IsPaid(PayRun(t, steps), o)
  }

  // Without merging it into itself, an unpaid order can still be paid if and only if it has
  // at most one payment.
  lemma CanBePaidIff(t: Till, o: int)
    requires t.db.Valid() && o in t.db.orders && !IsPaid(t, o)
    ensures CanBePaid(t, o) <==> RowsOf(t.rows, o) <= 1
  {
    if RowsOf(t.rows, o) >= 2 {
      forall steps | NoSelfMerge(steps, o) ensures !IsPaid(PayRun(t, steps), o) {
        SecondPaymentBlocks(t, o, steps);
      }
    } else if RowsOf(t.rows, o) == 1 {
      var steps := [Request(PaymentStep(o))];
      PayRunOne(t, steps[0]);
      CallbackPays(t, o);
      assert NoSelfMerge(steps, o) && IsPaid(PayRun(t, steps), o);
    } else {
      var reopen := Request(StatusStep(t.db.orders[o].shop, o, Pending));
      var pay := [CreatePayment(o, true), Request(PaymentStep(o))];
      Reopened(t, o);
      OnePaymentPays(PayApply(t, reopen), o, true);
      PayRunConcat(t, [reopen], pay);
      PayRunOne(t, reopen);
      assert NoSelfMerge([reopen] + pay, o) && IsPaid(PayRun(t, [reopen] + pay), o);
    }
  }

  // A merge makes an order with two payments payable again if and only if it merges the order
  // into itself: the order is deleted with its payments and then inserted again.
  lemma MergeFreesIff(t: Till, o: int, shop: int, main: int, ids: seq<int>)
    requires t.db.Valid() && o in t.db.orders && !IsPaid(t, o) && RowsOf(t.rows, o) >= 2
    ensures CanBePaid(PayApply(t, Request(MergeStep(shop, main, ids))), o) <==>
            o == main && Swallowed(t.db.orders, shop, main, ids)
  {
    var step := Request(MergeStep(shop, main, ids));
    var after := PayApply(t, step);
    PayApplyValid(t, step);
    if FreesItself(t, step, o) {
      RequestKeepsFlags(t.db, step.step, o);
      RowsLeft(t.rows, Deleted(t.db, step.step), o);
      CanBePaidIff(after, o);
    } else {
      StaysBlocked(t, step, o);
      forall steps | NoSelfMerge(steps, o) ensures !IsPaid(PayRun(after, steps), o) {
        BlockedForGood(after, o, steps);
      }
    }
  }

  // ---------- what the payment steps write ----------

  // A pending order gets one more row, over what is due at that moment.
  lemma CreateEffect(t: Till, o: int, gateway: bool)
    ensures var after := PayApply(t, CreatePayment(o, gateway));
            if o !in t.db.orders || t.db.orders[o].status != Pending then after == t
            else
              && after.db == t.db && |after.rows| == |t.rows| + 1 && after.rows[..|t.rows|] == t.rows
              && after.rows[|t.rows|] == Row(o, t.db.orders[o].total, if gateway then P.Pending else P.Failed)
  {
  }

  // A callback that finds its one row sets it to paid, and no other row.
  lemma {:induction false} MarkedRows(rows: seq<Row>, o: int)
    ensures |MarkPaid(rows, o)| == |rows|
    ensures forall i :: 0 <= i < |rows| ==>
      MarkPaid(rows, o)[i] == Row(rows[i].order, rows[i].amount, if rows[i].order == o then P.Paid else rows[i].status)
  {
    if rows != [] {
      MarkedRows(rows[1..], o);
    }
  }

  lemma CallbackEffect(t: Till, o: int)
    ensures var after := PayApply(t, Request(PaymentStep(o)));
            if o !in t.db.orders || RowsOf(t.rows, o) != 1 then after == t
            else
              && after.db == t.db.(orders := t.db.orders[o := t.db.orders[o].(status := Status.Paid, paid := true)])
              && |after.rows| == |t.rows|
              && forall i :: 0 <= i < |t.rows| ==>
                   after.rows[i] == Row(t.rows[i].order, t.rows[i].amount,
                                        if t.rows[i].order == o then P.Paid else t.rows[i].status)
  {
    MarkedRows(t.rows, o);
  }

  // ---------- rows belong to orders ----------

  ghost predicate RowsResolve(t: Till) {
    forall i :: 0 <= i < |t.rows| ==> t.rows[i].order in t.db.orders
  }

  lemma {:induction false} RowsOffOrders(rows: seq<Row>, s: set<int>)
    ensures forall i :: 0 <= i < |RowsOff(rows, s)| ==>
      RowsOff(rows, s)[i].order !in s && exists j :: 0 <= j < |rows| && rows[j] == RowsOff(rows, s)[i]
  {
    if rows != [] {
      RowsOffOrders(rows[1..], s);
      var off, rest := RowsOff(rows, s), RowsOff(rows[1..], s);
      var skip := |off| - |rest|;
      forall i | 0 <= i < |off| ensures off[i].order !in s && exists j :: 0 <= j < |rows| && rows[j] == off[i] {
        if i >= skip {
          assert off[i] == rest[i - skip];
          var j :| 0 <= j < |rows[1..]| && rows[1..][j] == rest[i - skip];
          assert rows[j + 1] == off[i];
        } else {
          assert rows[0] == off[i];
        }
      }
    }
  }

  // Every step keeps it so that a transaction belongs to an order that exists.
  lemma StillResolve(t: Till, step: PayStep)
    requires t.db.Valid() && RowsResolve(t)
    ensures RowsResolve(PayApply(t, step))
  {
    match step
    case CreatePayment(o, gateway) =>
    case Request(PaymentStep(o)) => CallbackEffect(t, o);
    case Request(s) =>
      var after := PayApply(t, step);
      RowsOffOrders(t.rows, Deleted(t.db, s));
      forall i | 0 <= i < |after.rows| ensures after.rows[i].order in after.db.orders {
        var j :| 0 <= j < |t.rows| && t.rows[j] == after.rows[i];
        RequestKeepsFlags(t.db, s, t.rows[j].order);
      }
  }

  lemma {:induction false} NoRowsOf(rows: seq<Row>, o: int)
    requires forall i :: 0 <= i < |rows| ==> rows[i].order != o
    ensures RowsOf(rows, o) == 0
  {
    if rows != [] {
      NoRowsOf(rows[1..], o);
    }
  }

  // An order that a request creates unpaid can be paid.
  lemma FreshOrderCanBePaid(t: Till, step: Step)
    requires t.db.Valid() && RowsResolve(t) && !step.PaymentStep? && t.db.nextOrder in Apply(t.db, step).orders
    requires !Apply(t.db, step).orders[t.db.nextOrder].paid
    ensures CanBePaid(PayApply(t, Request(step)), t.db.nextOrder)
  {
    var n, after := t.db.nextOrder, PayApply(t, Request(step));
    PayApplyValid(t, Request(step));
    RowsOffOrders(t.rows, Deleted(t.db, step));
    forall i | 0 <= i < |after.rows| ensures after.rows[i].order != n {
      var j :| 0 <= j < |t.rows| && t.rows[j] == after.rows[i];
      assert t.rows[j].order in t.db.orders;
    }
    NoRowsOf(after.rows, n);
    CanBePaidIff(after, n);
  }

  // The new bill of a split is unpaid, also when the order was paid, has no payment yet, and
  // can be paid.
  lemma SplitBillCanBePaid(t: Till, shop: int, o: int, entries: seq<SplitEntry>)
    requires t.db.Valid() && RowsResolve(t) && Found(t.db.orders, shop, o) && Split(t.db, o, entries).Some?
    ensures var after := PayApply(t, Request(SplitStep(shop, o, entries)));
      && t.db.nextOrder in after.db.orders && !IsPaid(after, t.db.nextOrder)
      && CanBePaid(after, t.db.nextOrder)
      && (IsPaid(after, o) <==> IsPaid(t, o))
  {
    var step := SplitStep(shop, o, entries);
    var after := PayApply(t, Request(step));
    SplitResult(t.db, o, entries);
    SplitEffect(t.db, shop, o, entries);
    FreshOrderCanBePaid(t, step);
    RequestKeepsFlags(t.db, step, o);
  }

  // ---------- the payment desk ----------

  class PaymentDesk {
    const shop: S.Shop
    var rows: seq<Row>

    ghost function State(): Till
      reads this, shop
    {
      Till(shop.State(), rows)
    }

    constructor (shop: S.Shop)
      ensures this.shop == shop && State() == Till(shop.State(), [])
    {
      this.shop := shop;
      rows := [];
    }

    method Create(o: int, gateway: bool) returns (ok: bool)
      requires o in shop.orders
      modifies this
      ensures ok <==> old(shop.orders[o].status) == Pending && gateway
      ensures State() == PayApply(old(State()), CreatePayment(o, gateway))
    {
      if shop.orders[o].status != Pending {
        return false;
      }
      rows := rows + [Row(o, shop.orders[o].total, P.Pending)];
      if !gateway {
        rows := rows[|rows| - 1 := rows[|rows| - 1].(status := P.Failed)];
      }
      ok := gateway;
    }

    // False when there is no such transaction, and when there are several.
    method ProcessResult(o: int) returns (ok: bool)
      modifies this, shop
      ensures ok <==> o in old(shop.orders) && RowsOf(old(rows), o) == 1
      ensures State() == PayApply(old(State()), Request(PaymentStep(o)))
    {
      if o !in shop.orders || RowsOf(rows, o) != 1 {
        return false;
      }
      rows := MarkPaid(rows, o);
      shop.PaymentCallback(o);
      ok := true;
    }

    // Any other request; deleted orders take their transactions with them.
    method Handle(step: Step)
      requires !step.PaymentStep?
      modifies this, shop
      ensures State() == PayApply(old(State()), Request(step))
    {
      var db := shop.Savepoint();
      rows := RowsOff(rows, Deleted(db, step));
      shop.Handle(step);
    }
  }
}
