// The status log of an order against its status, in every run.

module StatusLog {
  import opened ShopData
  import opened Pos
  import opened PosSplit
  import opened PosMerge
  import opened Orders
  import opened OrderEffects
  import opened Lifecycle

  // Each row continues the row before, or starts from "paid": a payment callback changes
  // the status without a row.
  ghost predicate Follows(log: seq<StatusChange>, status: Status) {
    && (forall i :: 0 < i < |log| ==> log[i].before == log[i - 1].after || log[i].before == Status.Paid)
    && (log != [] ==> status == log[|log| - 1].after || status == Status.Paid)
  }

  // Playing the rows from status `from` ends in `status`.
  predicate Replays(from: Status, log: seq<StatusChange>, status: Status)
    decreases |log|
  {
    if log == [] then from == status
    else log[0].before == from && Replays(log[0].after, log[1..], status)
  }

  // An order created by a successful checkout has the row pending -> pending first.
  predicate FromCheckout(order: Order) {
    order.history != [] && order.history[0] == StatusChange(Pending, Pending)
  }

  ghost predicate LogsFollow(db: Db) {
    forall o :: o in db.orders ==> Follows(db.orders[o].history, db.orders[o].status)
  }

  ghost predicate LogsReplay(db: Db) {
    forall o :: o in db.orders && db.orders[o].history != [] ==>
      Replays(db.orders[o].history[0].before, db.orders[o].history, db.orders[o].status)
  }

  lemma {:induction false} ReplaysOneMore(from: Status, log: seq<StatusChange>, status: Status, after: Status)
    requires Replays(from, log, status)
    ensures Replays(from, log + [StatusChange(status, after)], after)
    decreases |log|
  {
    var longer := log + [StatusChange(status, after)];
    if log == [] {
      assert longer[1..] == [];
    } else {
      assert longer[1..] == log[1..] + [StatusChange(status, after)];
      ReplaysOneMore(log[0].after, log[1..], status, after);
    }
  }

  lemma LoggedReplays(order: Order, after: Status)
    requires order.history != [] ==> Replays(order.history[0].before, order.history, order.status)
    ensures var l := Logged(order, order.status, after); Replays(l.history[0].before, l.history, l.status)
  {
    if order.history == [] {
      assert [StatusChange(order.status, after)][1..] == [];
      assert order.history + [StatusChange(order.status, after)] == [StatusChange(order.status, after)];
    } else {
      ReplaysOneMore(order.history[0].before, order.history, order.status, after);
    }
  }

  lemma LoggedFollows(order: Order, after: Status)
    requires Follows(order.history, order.status)
    ensures var l := Logged(order, order.status, after); Follows(l.history, l.status)
  {
  }

  // What a step can do to one order's status and log.
  datatype Change = Untouched | OneRow | Silent | Born | Reborn

  ghost predicate Changes(before: Db, after: Db, o: int, how: Change)
    requires o in after.orders
  {
    var order := after.orders[o];
    match how
    case Untouched => o in before.orders && order.status == before.orders[o].status
                      && order.history == before.orders[o].history
    case OneRow => o in before.orders && order == Logged(before.orders[o], before.orders[o].status, order.status)
    case Silent => o in before.orders && order.status == Status.Paid && order.history == before.orders[o].history
    case Born => o !in before.orders && order.status == Pending && order.history == [StatusChange(Pending, Pending)]
    case Reborn => order.history == []
  }

  lemma HowASaleChanges(db: Db, step: Step, o: int) returns (how: Change)
    requires db.Valid() && (step.CheckoutStep? || step.QuickOrderStep?) && o in Apply(db, step).orders
    ensures Changes(db, Apply(db, step), o, how) && how != Silent
  {
    how := Untouched;
    match step
    case CheckoutStep(shop, user, cart, kind, fee, items) =>
      if Checkout(db, shop, user, cart, kind, fee, items).Some? {
        CheckoutResult(db, shop, user, cart, kind, fee, items);
        if o == db.nextOrder {
          how := if CartMissing(db, user, cart) then Reborn else Born;
        }
      }
    case QuickOrderStep(shop, kind, items) =>
      if !Rejected(items) {
        QuickOrderResult(db, shop, kind, items);
        if o == db.nextOrder {
          how := Reborn;
        }
      }
  }

  lemma HowItChanges(db: Db, step: Step, o: int) returns (how: Change)
    requires db.Valid() && o in Apply(db, step).orders
    ensures Changes(db, Apply(db, step), o, how)
    ensures how == Silent ==> step.PaymentStep?
  {
    how := Untouched;
    if EditsInPlace(step) {
      how := HowAnEditChanges(db, step, o);
    } else if step.CheckoutStep? || step.QuickOrderStep? {
      how := HowASaleChanges(db, step, o);
    } else {
      match step
      case AddItemStep(user, product, sku, q, surcharge) => AddItemValid(db, user, product, sku, q, surcharge);
      case ClearCartStep(user) => ClearCartValid(db, user);
      case SplitStep(shop, x, entries) => how := HowASplitChanges(db, step, o);
      case MergeStep(shop, main, ids) => how := HowAMergeChanges(db, step, o);
      case StockTakeStep(s) => BulkValid(db, s.shop, s.updates);
    }
  }

  lemma HowASplitChanges(db: Db, step: Step, o: int) returns (how: Change)
    requires db.Valid() && step.SplitStep? && o in Apply(db, step).orders
    ensures Changes(db, Apply(db, step), o, how) && how != Silent
  {
    how := Untouched;
    if Found(db.orders, step.shop, step.order) && Split(db, step.order, step.entries).Some? {
      SplitResult(db, step.order, step.entries);
      if o == db.nextOrder {
        how := Reborn;
      }
    }
  }

  lemma HowAMergeChanges(db: Db, step: Step, o: int) returns (how: Change)
    requires db.Valid() && step.MergeStep? && o in Apply(db, step).orders
    ensures Changes(db, Apply(db, step), o, how) && how != Silent
  {
    how := Untouched;
    if Found(db.orders, step.shop, step.order) {
      MergeResult(db, step.shop, step.order, step.ids);
      if o == step.order && o in LostOrders(db.orders, step.shop, step.order, step.ids) {
        how := Reborn;
      }
    }
  }

  lemma HowAnEditChanges(db: Db, step: Step, o: int) returns (how: Change)
    requires db.Valid() && EditsInPlace(step) && o in Apply(db, step).orders
    ensures Changes(db, Apply(db, step), o, how)
    ensures how == Silent ==> step.PaymentStep?
  {
    EditsKeepKeys(db, step);
    how := Untouched;
    match step
    case StatusStep(shop, x, status) =>
      if Found(db.orders, shop, x) && x == o {
        how := OneRow;
      }
    case CancelStep(shop, x) =>
      if Found(db.orders, shop, x) && Cancellable(db.orders[x].status) && x == o {
        how := OneRow;
      }
    case PaymentStep(x) =>
      if x == o {
        how := Silent;
      }
    case DiscountStep(_, _, _) =>
    case StockTakeStep(_) =>
  }

  lemma ApplyLogs(db: Db, step: Step)
    requires db.Valid()
    ensures LogsFollow(db) ==> LogsFollow(Apply(db, step))
    ensures LogsReplay(db) && !step.PaymentStep? ==> LogsReplay(Apply(db, step))
  {
    var d := Apply(db, step);
    forall o | o in d.orders
      ensures LogsFollow(db) ==> Follows(d.orders[o].history, d.orders[o].status)
      ensures LogsReplay(db) && !step.PaymentStep? && d.orders[o].history != [] ==>
                Replays(d.orders[o].history[0].before, d.orders[o].history, d.orders[o].status)
    {
      var how := HowItChanges(db, step, o);
      if how == Born {
        assert d.orders[o].history[1..] == [];
      }
      if how == OneRow {
        if LogsFollow(db) {
          LoggedFollows(db.orders[o], d.orders[o].status);
        }
        if LogsReplay(db) {
          LoggedReplays(db.orders[o], d.orders[o].status);
        }
      }
    }
  }

  // In every run, the rows of a log join up except where one starts from "paid", and the
  // order has the status of its last row or is paid.
  lemma {:induction false} RunLogsFollow(db: Db, steps: seq<Step>)
    requires db.Valid() && LogsFollow(db)
    ensures LogsFollow(Run(db, steps))
    decreases |steps|
  {
    if steps != [] {
      ApplyValid(db, steps[0]);
      ApplyLogs(db, steps[0]);
      RunLogsFollow(Apply(db, steps[0]), steps[1..]);
    }
  }

  // A payment callback for an order that has a log breaks the replay exactly when the
  // order was not already paid.
  lemma PaymentGapIff(db: Db, o: int)
    requires o in db.orders && db.orders[o].history != []
    requires Replays(db.orders[o].history[0].before, db.orders[o].history, db.orders[o].status)
    ensures var order := PaymentArrived(db, o).orders[o];
            Replays(order.history[0].before, order.history, order.status) <==> db.orders[o].status == Status.Paid
  {
    ReplayIsUnique(db.orders[o].history[0].before, db.orders[o].history, db.orders[o].status, Status.Paid);
  }

  lemma {:induction false} ReplayIsUnique(from: Status, log: seq<StatusChange>, a: Status, b: Status)
    requires Replays(from, log, a)
    ensures Replays(from, log, b) <==> a == b
    decreases |log|
  {
    if log != [] {
      ReplayIsUnique(log[0].after, log[1..], a, b);
    }
  }

  // A callback for an order that has a log and is not already paid.
  predicate LeavesGap(db: Db, step: Step) {
    match step
    case PaymentStep(o) => o in db.orders && db.orders[o].history != [] && db.orders[o].status != Status.Paid
    case _ => false
  }

  // Of all steps only such a callback breaks the replay of a log.
  lemma StepReplaysIff(db: Db, step: Step)
    requires db.Valid() && LogsReplay(db)
    ensures LogsReplay(Apply(db, step)) <==> !LeavesGap(db, step)
  {
    if step.PaymentStep? {
      var d, o := Apply(db, step), step.order;
      if o in db.orders && db.orders[o].history != [] {
        PaymentGapIff(db, o);
      }
      assert forall x :: x in db.orders && x != o ==> d.orders[x] == db.orders[x];
    } else {
      ApplyLogs(db, step);
    }
  }

  ghost predicate NoGap(db: Db, steps: seq<Step>)
    decreases |steps|
  {
    steps != [] ==> !LeavesGap(db, steps[0]) && NoGap(Apply(db, steps[0]), steps[1..])
  }

  // In every run the logs replay exactly to the statuses all along if and only if no callback
  // comes for an order that has a log and is not paid at that point.
  lemma {:induction false} RunLogsReplayIff(db: Db, steps: seq<Step>)
    requires db.Valid() && LogsReplay(db)
    ensures (forall n :: 0 <= n <= |steps| ==> LogsReplay(Run(db, steps[..n]))) <==> NoGap(db, steps)
    decreases |steps|
  {
    if steps == [] {
      assert forall n :: 0 <= n <= |steps| ==> steps[..n] == [];
    } else {
      var one, rest := Apply(db, steps[0]), steps[1..];
      ApplyValid(db, steps[0]);
      StepReplaysIff(db, steps[0]);
      forall n | 0 <= n <= |rest| ensures Run(db, steps[..n + 1]) == Run(one, rest[..n]) {
        assert steps[..n + 1][1..] == rest[..n];
      }
      assert Run(one, rest[..0]) == one;
      if forall n :: 0 <= n <= |steps| ==> LogsReplay(Run(db, steps[..n])) {
        assert LogsReplay(Run(db, steps[..0 + 1]));
        RunLogsReplayIff(one, rest);
        forall n | 0 <= n <= |rest| ensures LogsReplay(Run(one, rest[..n])) {
          assert LogsReplay(Run(db, steps[..n + 1]));
        }
      }
      if NoGap(db, steps) {
        RunLogsReplayIff(one, rest);
        forall n | 0 <= n <= |steps| ensures LogsReplay(Run(db, steps[..n])) {
          assert n > 0 ==> Run(db, steps[..n - 1 + 1]) == Run(one, rest[..n - 1]);
        }
      }
    }
  }

  // The log of an order from a checkout then replays from "pending".
  lemma CheckoutLogsReplay(db: Db, steps: seq<Step>, o: int)
    requires db.Valid() && LogsReplay(db) && NoGap(db, steps)
    requires o in Run(db, steps).orders && FromCheckout(Run(db, steps).orders[o])
    ensures Replays(Pending, Run(db, steps).orders[o].history, Run(db, steps).orders[o].status)
  {
    RunLogsReplayIff(db, steps);
    assert steps[..|steps|] == steps && LogsReplay(Run(db, steps[..|steps|]));
  }

  // An order without lines as a checkout stores it, with its first log row.
  function CheckedOutOrder(): Db {
    Db(map[], map[], map[], map[], map[1 := Logged(NewOrder(1, Takeaway), Pending, Pending)], [], map[], 2, 1, 1)
  }

  // Paid by a callback, its log still ends in "pending".
  lemma PaymentGapExample()
    ensures var db := CheckedOutOrder();
            var d := Apply(db, PaymentStep(1));
      && db.Valid() && LogsReplay(db)
      && d.orders[1].status == Status.Paid && d.orders[1].history == [StatusChange(Pending, Pending)] && !LogsReplay(d)
  {
    var db := CheckedOutOrder();
    assert db.orders[1].history == [StatusChange(Pending, Pending)] && [StatusChange(Pending, Pending)][1..] == [];
    PaymentGapIff(db, 1);
  }
}
