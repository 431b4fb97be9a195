// Manual stock adjustments and bulk updates, and what the inventory log says about them.

module Inventory {
  import opened Wrappers
  import opened ShopData

  datatype Adjustment = Increase | Decrease

  datatype StockUpdate = StockUpdate(sku: int, stock: int)

  // SKUs of other shops are not found.
  predicate SkuOf(db: Db, shop: int, k: int) {
    && k in db.skus && k in db.stock && k in db.stockLog
    && db.skus[k].product in db.products && db.products[db.skus[k].product].shop == shop
  }

  function WithStock(db: Db, k: int, stock: int, log: seq<StockLog>): Db
    requires k in db.stockLog
  {
    db.(stock := db.stock[k := stock], stockLog := db.stockLog[k := db.stockLog[k] + log])
  }

  function Adjusted(stock: int, kind: Adjustment, quantity: int): int {
    if kind == Increase then stock + quantity else Max(0, stock - quantity)
  }

  function LoggedChange(kind: Adjustment, quantity: int): int {
    if kind == Increase then quantity else -quantity
  }

  // The log records the change that was asked for, not the one that was possible.
  function Adjust(db: Db, shop: int, k: int, kind: Adjustment, quantity: int): Db {
    if !SkuOf(db, shop, k) || quantity < 1 then db
    else
      var stock := Adjusted(db.stock[k], kind, quantity);
      WithStock(db, k, stock, [StockLog(LoggedChange(kind, quantity), stock)])
  }

  function UpdateLog(before: int, after: int): seq<StockLog> {
    if before != after then [StockLog(after - before, after)] else []
  }

  function UpdateOne(db: Db, shop: int, u: StockUpdate): Db {
    if !SkuOf(db, shop, u.sku) then db
    else WithStock(db, u.sku, u.stock, UpdateLog(db.stock[u.sku], u.stock))
  }

  function BulkUpdate(db: Db, shop: int, updates: seq<StockUpdate>): Db
    decreases |updates|
  {
    if updates == [] then db else BulkUpdate(UpdateOne(db, shop, updates[0]), shop, updates[1..])
  }

  // ---------- reading the log back ----------

  // The stock after replaying the logged changes with a floor at zero.
  function Replay(stock: int, log: seq<StockLog>): int
    decreases |log|
  {
    if log == [] then stock else Replay(Max(0, stock + log[0].change), log[1..])
  }

  // Replaying reproduces every logged stock.
  ghost predicate Reproduces(stock: int, log: seq<StockLog>) {
    forall i :: 0 <= i < |log| ==> Replay(stock, log[..i + 1]) == log[i].current
  }

  // x_n: the starting stock plus all logged changes, without a floor.
  function Unclamped(stock: int, log: seq<StockLog>): int
    decreases |log|
  {
    if log == [] then stock else Unclamped(stock + log[0].change, log[1..])
  }

  // The lowest of x_0, x_1, ..., x_n.
  function Lowest(stock: int, log: seq<StockLog>): int
    decreases |log|
  {
    if log == [] then stock
    else
      var rest := Lowest(stock + log[0].change, log[1..]);
      if rest < stock then rest else stock
  }

  lemma {:induction false} LowestIsMinimum(stock: int, log: seq<StockLog>)
    ensures forall i :: 0 <= i <= |log| ==> Lowest(stock, log) <= Unclamped(stock, log[..i])
    ensures exists i :: 0 <= i <= |log| && Unclamped(stock, log[..i]) == Lowest(stock, log)
    decreases |log|
  {
    assert log[..0] == [];
    assert Unclamped(stock, log[..0]) == stock;
    if log != [] {
      var next, rest := stock + log[0].change, log[1..];
      LowestIsMinimum(next, rest);
      forall i | 0 < i <= |log| ensures Unclamped(stock, log[..i]) == Unclamped(next, rest[..i - 1]) {
        assert log[..i][1..] == rest[..i - 1];
      }
      if Lowest(stock, log) != stock {
        var j :| 0 <= j <= |rest| && Unclamped(next, rest[..j]) == Lowest(next, rest);
        assert Unclamped(stock, log[..j + 1]) == Lowest(stock, log);
      }
    }
  }

  // Starting elsewhere shifts every x_k by as much.
  lemma {:induction false} Shift(a: int, b: int, log: seq<StockLog>)
    ensures Unclamped(a, log) == Unclamped(b, log) + (a - b)
    ensures Lowest(a, log) == Lowest(b, log) + (a - b)
    ensures Lowest(a, log) <= a
    decreases |log|
  {
    if log != [] {
      Shift(a + log[0].change, b + log[0].change, log[1..]);
    }
  }

  function Clamped(stock: int, log: seq<StockLog>): int {
    Unclamped(stock, log) + Max(0, -Lowest(stock, log))
  }

  // The floored ledger in closed form: it lies above the unfloored one by how far that
  // one ever fell below zero.
  lemma {:induction false} Reflection(stock: int, log: seq<StockLog>)
    requires stock >= 0
    ensures Replay(stock, log) == Clamped(stock, log)
    decreases |log|
  {
    if log != [] {
      var next := Max(0, stock + log[0].change);
      Reflection(next, log[1..]);
      Shift(next, stock + log[0].change, log[1..]);
    }
  }

  // ---------- the log explains the stock ----------

  // A row either records the change that happened, or a decrease that hit the floor.
  predicate RowExplains(before: int, row: StockLog) {
    row.current == before + row.change || (row.change < 0 && row.current == Max(0, before + row.change))
  }

  predicate Explains(before: int, log: seq<StockLog>, after: int)
    decreases |log|
  {
    if log == [] then before == after
    else RowExplains(before, log[0]) && Explains(log[0].current, log[1..], after)
  }

  lemma {:induction false} ExplainsConcat(x: int, a: seq<StockLog>, y: int, b: seq<StockLog>, z: int)
    requires Explains(x, a, y) && Explains(y, b, z)
    ensures Explains(x, a + b, z)
    decreases |a|
  {
    if a == [] {
      assert a + b == b;
    } else {
      assert (a + b)[1..] == a[1..] + b;
      ExplainsConcat(a[0].current, a[1..], y, b, z);
    }
  }

  ghost predicate NeverNegative(log: seq<StockLog>) {
    forall i :: 0 <= i < |log| ==> log[i].current >= 0
  }

  // Replaying a log that explains the stock works exactly when no logged stock is
  // negative, and then it ends with the stock.
  lemma {:induction false} ReplayWorksIff(before: int, log: seq<StockLog>, after: int)
    requires Explains(before, log, after)
    ensures Reproduces(before, log) <==> NeverNegative(log)
    ensures NeverNegative(log) ==> Replay(before, log) == after
    decreases |log|
  {
    if log != [] {
      var rest := log[1..];
      ReplayWorksIff(log[0].current, rest, after);
      assert log[..1] == [log[0]];
      assert Replay(before, log[..1]) == Max(0, before + log[0].change);
      forall i | 0 < i < |log|
        ensures Replay(before, log[..i + 1]) == Replay(Max(0, before + log[0].change), rest[..i])
      {
        assert log[..i + 1][1..] == rest[..i];
      }
      if log[0].current >= 0 {
        assert NeverNegative(log) <==> NeverNegative(rest) by {
          assert forall i :: 0 < i < |log| ==> log[i] == rest[i - 1];
          assert forall i :: 0 <= i < |rest| ==> rest[i] == log[i + 1];
        }
        assert Reproduces(before, log) <==> Reproduces(log[0].current, rest) by {
          assert forall i :: 0 <= i < |rest| ==> rest[i] == log[i + 1];
          if Reproduces(before, log) {
            forall i | 0 <= i < |rest| ensures Replay(log[0].current, rest[..i + 1]) == rest[i].current {
              assert Replay(before, log[..(i + 1) + 1]) == log[i + 1].current;
            }
          }
        }
      }
    }
  }

  // ---------- runs of adjustments and bulk updates ----------

  datatype StockStep =
    | AdjustStep(shop: int, sku: int, kind: Adjustment, quantity: int)
    | BulkStep(shop: int, updates: seq<StockUpdate>)

  function StockApply(db: Db, step: StockStep): Db {
    match step
    case AdjustStep(shop, k, kind, q) => Adjust(db, shop, k, kind, q)
    case BulkStep(shop, updates) => BulkUpdate(db, shop, updates)
  }

  function StockRun(db: Db, steps: seq<StockStep>): Db
    decreases |steps|
  {
    if steps == [] then db else StockRun(StockApply(db, steps[0]), steps[1..])
  }

  // `after` continues the log of SKU `k`, and the new rows explain the new stock.
  ghost predicate Continues(before: Db, after: Db, k: int) {
    && k in before.stock && k in before.stockLog && k in after.stock && k in after.stockLog
    && |before.stockLog[k]| <= |after.stockLog[k]|
    && after.stockLog[k][..|before.stockLog[k]|] == before.stockLog[k]
    && Explains(before.stock[k], NewRows(before, after, k), after.stock[k])
  }

  ghost function NewRows(before: Db, after: Db, k: int): seq<StockLog>
    requires k in before.stockLog && k in after.stockLog && |before.stockLog[k]| <= |after.stockLog[k]|
  {
    after.stockLog[k][|before.stockLog[k]|..]
  }

  lemma ContinuesTwice(a: Db, b: Db, c: Db, k: int)
    requires k in a.stock && k in a.stockLog && Continues(a, b, k) && Continues(b, c, k)
    ensures Continues(a, c, k) && NewRows(a, c, k) == NewRows(a, b, k) + NewRows(b, c, k)
  {
    assert NewRows(a, c, k) == NewRows(a, b, k) + NewRows(b, c, k);
    ExplainsConcat(a.stock[k], NewRows(a, b, k), b.stock[k], NewRows(b, c, k), c.stock[k]);
    assert c.stockLog[k][..|a.stockLog[k]|] == c.stockLog[k][..|b.stockLog[k]|][..|a.stockLog[k]|];
  }

  lemma WithStockContinues(db: Db, k: int, stock: int, log: seq<StockLog>, k': int)
    requires k in db.stock && k in db.stockLog && k' in db.stock && k' in db.stockLog
    requires Explains(db.stock[k], log, stock)
    ensures Continues(db, WithStock(db, k, stock, log), k')
    ensures NewRows(db, WithStock(db, k, stock, log), k') == if k' == k then log else []
  {
  }

  // Values in a bulk update are not validated; this is the part of it that matters.
  predicate NoNegativeUpdate(updates: seq<StockUpdate>, k: int) {
    forall i :: 0 <= i < |updates| ==> updates[i].sku == k ==> updates[i].stock >= 0
  }

  // The step does not ask for a negative stock of SKU `k`, or asks in vain because the SKU
  // belongs to another shop.
  predicate KeepsAboveZero(db: Db, step: StockStep, k: int) {
    step.BulkStep? && SkuOf(db, step.shop, k) ==> NoNegativeUpdate(step.updates, k)
  }

  lemma NeverNegativeConcat(a: seq<StockLog>, b: seq<StockLog>)
    ensures NeverNegative(a + b) <==> NeverNegative(a) && NeverNegative(b)
  {
    if NeverNegative(a + b) {
      assert forall i :: 0 <= i < |a| ==> a[i] == (a + b)[i];
      assert forall i :: 0 <= i < |b| ==> b[i] == (a + b)[|a| + i];
    }
  }

  lemma {:induction false} BulkSameShops(db: Db, shop: int, updates: seq<StockUpdate>, s: int, k: int)
    requires k in db.stock && k in db.stockLog
    ensures SkuOf(BulkUpdate(db, shop, updates), s, k) <==> SkuOf(db, s, k)
    decreases |updates|
  {
    if updates != [] {
      BulkSameShops(UpdateOne(db, shop, updates[0]), shop, updates[1..], s, k);
    }
  }

  // No step moves a SKU to another shop.
  lemma SameShops(db: Db, step: StockStep, s: int, k: int)
    requires k in db.stock && k in db.stockLog
    ensures SkuOf(StockApply(db, step), s, k) <==> SkuOf(db, s, k)
  {
    if step.BulkStep? {
      BulkSameShops(db, step.shop, step.updates, s, k);
    }
  }

  lemma AdjustContinues(db: Db, shop: int, k: int, kind: Adjustment, q: int, k': int)
    requires k' in db.stock && k' in db.stockLog
    ensures Continues(db, Adjust(db, shop, k, kind, q), k')
    ensures db.stock[k'] >= 0 ==>
      NeverNegative(NewRows(db, Adjust(db, shop, k, kind, q), k')) && Adjust(db, shop, k, kind, q).stock[k'] >= 0
  {
  }

  lemma FirstUpdate(updates: seq<StockUpdate>, k: int)
    requires updates != []
    ensures NoNegativeUpdate(updates, k) <==>
            (updates[0].sku == k ==> updates[0].stock >= 0) && NoNegativeUpdate(updates[1..], k)
  {
    if NoNegativeUpdate(updates, k) {
      assert forall i :: 0 <= i < |updates[1..]| ==> updates[1..][i] == updates[i + 1];
    }
    if NoNegativeUpdate(updates[1..], k) {
      assert forall i :: 0 < i < |updates| ==> updates[i] == updates[1..][i - 1];
    }
  }

  // The same from any stock: writing the stock it has changes nothing, the first value that
  // differs must not be negative, nor any later one.
  predicate UpdatesReplay(stock: int, updates: seq<StockUpdate>, k: int)
    decreases |updates|
  {
    if updates == [] then true
    else if updates[0].sku != k || updates[0].stock == stock then UpdatesReplay(stock, updates[1..], k)
    else updates[0].stock >= 0 && NoNegativeUpdate(updates[1..], k)
  }

  lemma {:induction false} UpdatesReplayAboveZero(stock: int, updates: seq<StockUpdate>, k: int)
    requires stock >= 0
    ensures UpdatesReplay(stock, updates, k) <==> NoNegativeUpdate(updates, k)
    decreases |updates|
  {
    if updates != [] {
      FirstUpdate(updates, k);
      UpdatesReplayAboveZero(stock, updates[1..], k);
    }
  }

  // Whether some value differs from the stock.
  predicate Rewrites(stock: int, updates: seq<StockUpdate>, k: int) {
    exists i :: 0 <= i < |updates| && updates[i].sku == k && updates[i].stock != stock
  }

  lemma FirstRewrite(stock: int, updates: seq<StockUpdate>, k: int)
    requires updates != []
    ensures Rewrites(stock, updates, k) <==>
            (updates[0].sku == k && updates[0].stock != stock) || Rewrites(stock, updates[1..], k)
  {
    assert forall i :: 0 < i < |updates| ==> updates[i] == updates[1..][i - 1];
    assert forall i :: 0 <= i < |updates[1..]| ==> updates[1..][i] == updates[i + 1];
  }

  lemma UpdateOneContinues(db: Db, shop: int, u: StockUpdate, k: int)
    requires k in db.stock && k in db.stockLog
    ensures var one := UpdateOne(db, shop, u);
      && Continues(db, one, k) && (SkuOf(one, shop, k) <==> SkuOf(db, shop, k))
      && (if SkuOf(db, shop, k) && u.sku == k
          then one.stock[k] == u.stock && NewRows(db, one, k) == UpdateLog(db.stock[k], u.stock)
          else one.stock[k] == db.stock[k] && NewRows(db, one, k) == [])
  {
    if SkuOf(db, shop, u.sku) {
      var rows := UpdateLog(db.stock[u.sku], u.stock);
      assert Explains(db.stock[u.sku], rows, u.stock);
      WithStockContinues(db, u.sku, u.stock, rows, k);
    }
  }

  // A bulk update logs no negative stock of a SKU of its shop exactly under that condition.
  lemma {:induction false} BulkContinues(db: Db, shop: int, updates: seq<StockUpdate>, k: int)
    requires k in db.stock && k in db.stockLog
    ensures Continues(db, BulkUpdate(db, shop, updates), k)
    ensures var d := BulkUpdate(db, shop, updates);
      && (NeverNegative(NewRows(db, d, k)) <==> SkuOf(db, shop, k) ==> UpdatesReplay(db.stock[k], updates, k))
      && (if SkuOf(db, shop, k) && Rewrites(db.stock[k], updates, k)
          then NeverNegative(NewRows(db, d, k)) ==> d.stock[k] >= 0
          else d.stock[k] == db.stock[k])
    decreases |updates|
  {
    if updates != [] {
      var u, one, d := updates[0], UpdateOne(db, shop, updates[0]), BulkUpdate(db, shop, updates);
      UpdateOneContinues(db, shop, u, k);
      BulkContinues(one, shop, updates[1..], k);
      ContinuesTwice(db, one, d, k);
      NeverNegativeConcat(NewRows(db, one, k), NewRows(one, d, k));
      FirstRewrite(db.stock[k], updates, k);
      if SkuOf(db, shop, k) && u.sku == k && u.stock != db.stock[k] {
        assert NeverNegative(NewRows(db, one, k)) <==> u.stock >= 0;
        if u.stock >= 0 {
          UpdatesReplayAboveZero(u.stock, updates[1..], k);
        }
      }
    }
  }

  // What a run has to respect from any stock: as long as no request changes the stock nothing
  // matters, the first one that does must reach zero, and after it no bulk update of the
  // SKU's shop may ask for less.
  ghost predicate StepsReplay(db: Db, stock: int, steps: seq<StockStep>, k: int)
    decreases |steps|
  {
    if steps == [] then true
    else if !Alters(db, stock, steps[0], k) then StepsReplay(db, stock, steps[1..], k)
    else
      && (match steps[0]
          case AdjustStep(_, _, kind, q) => Adjusted(stock, kind, q) >= 0
          case BulkStep(_, updates) => UpdatesReplay(stock, updates, k))
      && forall i :: 1 <= i < |steps| ==> KeepsAboveZero(db, steps[i], k)
  }

  predicate Alters(db: Db, stock: int, step: StockStep, k: int) {
    match step
    case AdjustStep(shop, k', kind, q) => k' == k && SkuOf(db, shop, k) && q >= 1
    case BulkStep(shop, updates) => SkuOf(db, shop, k) && Rewrites(stock, updates, k)
  }

  lemma {:induction false} NoRewriteReplays(stock: int, updates: seq<StockUpdate>, k: int)
    requires !Rewrites(stock, updates, k)
    ensures UpdatesReplay(stock, updates, k)
    decreases |updates|
  {
    if updates != [] {
      assert forall i :: 0 <= i < |updates[1..]| ==> updates[1..][i] == updates[i + 1];
      NoRewriteReplays(stock, updates[1..], k);
    }
  }

  lemma {:induction false} StepsReplayAboveZero(db: Db, stock: int, steps: seq<StockStep>, k: int)
    requires stock >= 0
    ensures StepsReplay(db, stock, steps, k) <==> forall i :: 0 <= i < |steps| ==> KeepsAboveZero(db, steps[i], k)
    decreases |steps|
  {
    if steps != [] {
      StepsReplayAboveZero(db, stock, steps[1..], k);
      FirstStep(db, db, steps, k);
      assert forall i :: 0 <= i < |steps[1..]| ==> steps[1..][i] == steps[i + 1];
      assert forall i :: 1 <= i < |steps| ==> steps[i] == steps[1..][i - 1];
      if steps[0].BulkStep? {
        UpdatesReplayAboveZero(stock, steps[0].updates, k);
        if !Rewrites(stock, steps[0].updates, k) {
          NoRewriteReplays(stock, steps[0].updates, k);
        }
      }
    }
  }

  lemma {:induction false} SameShopsReplay(db: Db, one: Db, stock: int, steps: seq<StockStep>, k: int)
    requires forall s :: SkuOf(one, s, k) <==> SkuOf(db, s, k)
    ensures StepsReplay(one, stock, steps, k) <==> StepsReplay(db, stock, steps, k)
    decreases |steps|
  {
    if steps != [] {
      SameShopsReplay(db, one, stock, steps[1..], k);
    }
  }

  lemma FirstStep(db: Db, one: Db, steps: seq<StockStep>, k: int)
    requires steps != [] && forall s :: SkuOf(one, s, k) <==> SkuOf(db, s, k)
    ensures (forall i :: 1 <= i < |steps| ==> KeepsAboveZero(db, steps[i], k)) <==>
            forall i :: 0 <= i < |steps[1..]| ==> KeepsAboveZero(one, steps[1..][i], k)
  {
    if forall i :: 1 <= i < |steps| ==> KeepsAboveZero(db, steps[i], k) {
      assert forall i :: 0 <= i < |steps[1..]| ==> steps[1..][i] == steps[i + 1];
    }
    if forall i :: 0 <= i < |steps[1..]| ==> KeepsAboveZero(one, steps[1..][i], k) {
      assert forall i :: 1 <= i < |steps| ==> steps[i] == steps[1..][i - 1];
    }
  }

  // The rows of the first step alone.
  lemma StockApplyContinues(db: Db, step: StockStep, k: int)
    requires k in db.stock && k in db.stockLog
    ensures var d := StockApply(db, step);
      && Continues(db, d, k)
      && (forall s :: SkuOf(d, s, k) <==> SkuOf(db, s, k))
      && (if Alters(db, db.stock[k], step, k)
          then NeverNegative(NewRows(db, d, k)) ==> d.stock[k] >= 0
          else NeverNegative(NewRows(db, d, k)) && d.stock[k] == db.stock[k])
      && (Alters(db, db.stock[k], step, k) ==>
            (NeverNegative(NewRows(db, d, k)) <==>
             match step
             case AdjustStep(_, _, kind, q) => Adjusted(db.stock[k], kind, q) >= 0
             case BulkStep(_, updates) => UpdatesReplay(db.stock[k], updates, k)))
  {
    forall s ensures SkuOf(StockApply(db, step), s, k) <==> SkuOf(db, s, k) {
      SameShops(db, step, s, k);
    }
    match step
    case AdjustStep(shop, k', kind, q) => AdjustContinues(db, shop, k', kind, q, k);
    case BulkStep(shop, updates) =>
      BulkContinues(db, shop, updates, k);
      if SkuOf(db, shop, k) && !Rewrites(db.stock[k], updates, k) {
        NoRewriteReplays(db.stock[k], updates, k);
      }
  }

  lemma {:induction false} StockRunContinues(db: Db, steps: seq<StockStep>, k: int)
    requires k in db.stock && k in db.stockLog
    ensures Continues(db, StockRun(db, steps), k)
    ensures NeverNegative(NewRows(db, StockRun(db, steps), k)) <==> StepsReplay(db, db.stock[k], steps, k)
    decreases |steps|
  {
    if steps != [] {
      var one := StockApply(db, steps[0]);
      StockApplyContinues(db, steps[0], k);
      StockRunContinues(one, steps[1..], k);
      ContinuesTwice(db, one, StockRun(db, steps), k);
      NeverNegativeConcat(NewRows(db, one, k), NewRows(one, StockRun(db, steps), k));
      SameShopsReplay(db, one, one.stock[k], steps[1..], k);
      FirstStep(db, one, steps, k);
      if one.stock[k] >= 0 {
        StepsReplayAboveZero(one, one.stock[k], steps[1..], k);
      }
    }
  }

  // Over any run of adjustments and bulk updates, replaying the new log rows of a SKU
  // reproduces every logged stock if and only if the requests respect that; from a stock
  // that is not negative, if and only if no bulk update of its shop asks for a negative one.
  lemma LogReplaysIff(db: Db, steps: seq<StockStep>, k: int)
    requires k in db.stock && k in db.stockLog
    ensures Continues(db, StockRun(db, steps), k)
    ensures Reproduces(db.stock[k], NewRows(db, StockRun(db, steps), k)) <==> StepsReplay(db, db.stock[k], steps, k)
    ensures db.stock[k] >= 0 ==>
              (StepsReplay(db, db.stock[k], steps, k) <==>
               forall i :: 0 <= i < |steps| ==> KeepsAboveZero(db, steps[i], k))
  {
    StockRunContinues(db, steps, k);
    ReplayWorksIff(db.stock[k], NewRows(db, StockRun(db, steps), k), StockRun(db, steps).stock[k]);
    if db.stock[k] >= 0 {
      StepsReplayAboveZero(db, db.stock[k], steps, k);
    }
  }

  // Under the same condition, and only then, every logged stock has the closed form: x_n less
  // the lowest of 0 and the x_k up to that row. So then has the final stock.
  lemma ClampedLedger(db: Db, steps: seq<StockStep>, k: int)
    requires k in db.stock && k in db.stockLog && db.stock[k] >= 0
    ensures Continues(db, StockRun(db, steps), k)
    ensures var rows, s0 := NewRows(db, StockRun(db, steps), k), db.stock[k];
            (forall i :: 0 <= i < |rows| ==> rows[i].current == Clamped(s0, rows[..i + 1]))
            <==> forall i :: 0 <= i < |steps| ==> KeepsAboveZero(db, steps[i], k)
    ensures (forall i :: 0 <= i < |steps| ==> KeepsAboveZero(db, steps[i], k)) ==>
              StockRun(db, steps).stock[k] == Clamped(db.stock[k], NewRows(db, StockRun(db, steps), k))
  {
    LogReplaysIff(db, steps, k);
    StockRunContinues(db, steps, k);
    var rows, s0 := NewRows(db, StockRun(db, steps), k), db.stock[k];
    ReplayWorksIff(s0, rows, StockRun(db, steps).stock[k]);
    Reflection(s0, rows);
    forall i | 0 <= i < |rows|
      ensures rows[i].current == Clamped(s0, rows[..i + 1]) <==> rows[i].current == Replay(s0, rows[..i + 1])
    {
      Reflection(s0, rows[..i + 1]);
    }
  }

  // A bulk update to a negative stock is stored and logged, but not replayed.
  lemma NegativeBulkBreaksReplay(db: Db, shop: int, k: int)
    requires SkuOf(db, shop, k) && db.stock[k] == 0
    ensures var d := StockRun(db, [BulkStep(shop, [StockUpdate(k, -1)])]);
      && Continues(db, d, k) && d.stock[k] == -1 && !Reproduces(db.stock[k], NewRows(db, d, k))
  {
    var u, steps := StockUpdate(k, -1), [BulkStep(shop, [StockUpdate(k, -1)])];
    assert steps[1..] == [] && [u][1..] == [];
    var d := StockRun(db, steps);
    assert d == UpdateOne(db, shop, u) by {
      assert d == StockRun(BulkUpdate(db, shop, [u]), []);
      assert BulkUpdate(db, shop, [u]) == BulkUpdate(UpdateOne(db, shop, u), shop, []);
    }
    LogReplaysIff(db, steps, k);
    assert NewRows(db, d, k) == [StockLog(-1, -1)];
    assert NewRows(db, d, k)[0].current < 0;
  }
}
