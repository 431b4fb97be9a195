// Points, membership levels, and what splitting a bill does to the points earned.

module Points {
  import opened Wrappers
  import opened Sums
  import opened ShopData
  import opened Pos
  import opened PosSplit

  datatype PointsRow = PointsRow(points: int, current: int)

  datatype Level = Level(name: string, minPoints: int)

  datatype Account = Account(available: int, total: int, used: int, level: string, log: seq<PointsRow>)

  // ---------- levels ----------

  // Of the levels that `points` reaches, one with the greatest threshold (the last one in
  // the list if there are several), whatever the order of the list.
  function Best(levels: seq<Level>, points: int): Option<Level> {
    if levels == [] then None
    else
      var rest := Best(levels[1..], points);
      if levels[0].minPoints > points then rest
      else if rest.Some? && rest.value.minPoints >= levels[0].minPoints then rest
      else Some(levels[0])
  }

  lemma {:induction false} BestIsGreatestReached(levels: seq<Level>, points: int)
    ensures Best(levels, points).None? <==> forall i :: 0 <= i < |levels| ==> levels[i].minPoints > points
    ensures var b := Best(levels, points);
      b.Some? ==>
        && b.value in levels && b.value.minPoints <= points
        && forall i :: 0 <= i < |levels| && levels[i].minPoints <= points ==> levels[i].minPoints <= b.value.minPoints
  {
    if levels != [] {
      BestIsGreatestReached(levels[1..], points);
      assert levels == [levels[0]] + levels[1..];
      assert forall i :: 0 < i < |levels| ==> levels[i] == levels[1..][i - 1];
      assert forall i :: 0 <= i < |levels| - 1 ==> levels[1..][i] == levels[i + 1];
    }
  }

  function LevelFor(levels: seq<Level>, points: int, current: string): string {
    var b := Best(levels, points);
    if b.Some? then b.value.name else current
  }

  ghost predicate Sorted(levels: seq<Level>) {
    forall i, j :: 0 <= i < j < |levels| ==> levels[i].minPoints <= levels[j].minPoints
  }

  // With more points the level reached has no lower threshold.
  lemma MorePointsNoLowerLevel(levels: seq<Level>, a: int, b: int)
    requires a <= b && Best(levels, a).Some?
    ensures Best(levels, b).Some? && Best(levels, a).value.minPoints <= Best(levels, b).value.minPoints
  {
  }

  // ---------- the account ----------

  function Earned(a: Account, levels: seq<Level>, points: int): Account {
    var available, total := a.available + points, a.total + points;
    Account(available, total, a.used, LevelFor(levels, total, a.level), a.log + [PointsRow(points, available)])
  }

  // Consuming more than is available raises and changes nothing.
  function Consumed(a: Account, points: int): Account {
    if a.available < points then a
    else a.(available := a.available - points, used := a.used + points,
            log := a.log + [PointsRow(-points, a.available - points)])
  }

  datatype Op = Earn(points: int) | Consume(points: int)

  function Do(a: Account, levels: seq<Level>, op: Op): Account {
    match op
    case Earn(p) => Earned(a, levels, p)
    case Consume(p) => Consumed(a, p)
  }

  function DoAll(a: Account, levels: seq<Level>, ops: seq<Op>): Account
    decreases |ops|
  {
    if ops == [] then a else DoAll(Do(a, levels, ops[0]), levels, ops[1..])
  }

  ghost predicate NonNegativeEarns(ops: seq<Op>) {
    forall i :: 0 <= i < |ops| && ops[i].Earn? ==> ops[i].points >= 0
  }

  lemma RestOfOps(ops: seq<Op>)
    requires ops != [] && NonNegativeEarns(ops)
    ensures NonNegativeEarns(ops[1..])
  {
  }

  function LoggedPoints(log: seq<PointsRow>): int {
    SumInt(log, (r: PointsRow) => r.points)
  }

  // Each row's balance is the starting balance plus the points logged up to it.
  ghost predicate LogBalances(start: int, log: seq<PointsRow>) {
    forall i :: 0 <= i < |log| ==> log[i].current == start + LoggedPoints(log[..i + 1])
  }

  lemma LogOneMore(start: int, log: seq<PointsRow>, row: PointsRow)
    requires LogBalances(start, log) && row.current == start + LoggedPoints(log) + row.points
    ensures LogBalances(start, log + [row])
    ensures LoggedPoints(log + [row]) == LoggedPoints(log) + row.points
  {
    SumIntConcat(log, [row], (r: PointsRow) => r.points);
    SumIntOne(row, (r: PointsRow) => r.points);
    var longer := log + [row];
    forall i | 0 <= i < |longer| ensures longer[i].current == start + LoggedPoints(longer[..i + 1]) {
      if i < |log| {
        assert longer[..i + 1] == log[..i + 1];
      } else {
        assert longer[..i + 1] == longer;
      }
    }
  }

  // In every run the points split into available and used, the log balances, and with
  // earns that are not negative the balance never goes below zero.
  lemma {:induction false} PointsLedger(a: Account, levels: seq<Level>, ops: seq<Op>, start: int)
    requires LogBalances(start, a.log) && a.available == start + LoggedPoints(a.log)
    ensures var b := DoAll(a, levels, ops);
      && LogBalances(start, b.log) && b.available == start + LoggedPoints(b.log)
      && b.total - b.available - b.used == a.total - a.available - a.used
      && (a.available >= 0 && NonNegativeEarns(ops) ==> b.available >= 0)
    decreases |ops|
  {
    if ops != [] {
      match ops[0] {
        case Earn(p) => LogOneMore(start, a.log, PointsRow(p, a.available + p));
        case Consume(p) =>
          if a.available >= p {
            LogOneMore(start, a.log, PointsRow(-p, a.available - p));
          }
      }
      if NonNegativeEarns(ops) {
        RestOfOps(ops);
      }
      PointsLedger(Do(a, levels, ops[0]), levels, ops[1..], start);
    }
  }

  // ---------- what a run books ----------

  // The signed points of the requests that go through, from `available` points on.
  function Bookings(available: int, ops: seq<Op>): seq<int>
    decreases |ops|
  {
    if ops == [] then []
    else match ops[0]
      case Earn(p) => [p] + Bookings(available + p, ops[1..])
      case Consume(p) =>
        if p <= available then [-p] + Bookings(available - p, ops[1..]) else Bookings(available, ops[1..])
  }

  // The points spent by those requests.
  function Spent(available: int, ops: seq<Op>): int
    decreases |ops|
  {
    if ops == [] then 0
    else match ops[0]
      case Earn(p) => Spent(available + p, ops[1..])
      case Consume(p) => if p <= available then p + Spent(available - p, ops[1..]) else Spent(available, ops[1..])
  }

  // One row per booking, each with the balance after it.
  function Statement(available: int, bookings: seq<int>): seq<PointsRow>
    decreases |bookings|
  {
    if bookings == [] then []
    else [PointsRow(bookings[0], available + bookings[0])] + Statement(available + bookings[0], bookings[1..])
  }

  // A run earns and spends exactly what its requests ask for, refusing those that exceed the
  // balance, and logs one row for each of the others.
  lemma {:induction false} PointsBooked(a: Account, levels: seq<Level>, ops: seq<Op>)
    ensures var b, spent := DoAll(a, levels, ops), Spent(a.available, ops);
      && b.total == a.total + EarnedIn(ops)
      && b.used == a.used + spent
      && b.available == a.available + EarnedIn(ops) - spent
      && b.log == a.log + Statement(a.available, Bookings(a.available, ops))
    decreases |ops|
  {
    if ops == [] {
      assert a.log + [] == a.log;
    } else {
      var next := Do(a, levels, ops[0]);
      EarnedInFirst(ops);
      PointsBooked(next, levels, ops[1..]);
      var first := if ops[0].Earn? then ops[0].points else -ops[0].points;
      if ops[0].Earn? || ops[0].points <= a.available {
        var rest := Bookings(next.available, ops[1..]);
        assert Bookings(a.available, ops) == [first] + rest && ([first] + rest)[1..] == rest;
        assert next.log == a.log + [PointsRow(first, next.available)];
      }
    }
  }

  predicate SomeEarn(ops: seq<Op>) {
    exists i :: 0 <= i < |ops| && ops[i].Earn?
  }

  function EarnedIn(ops: seq<Op>): int {
    SumInt(ops, (op: Op) => if op.Earn? then op.points else 0)
  }

  lemma EarnedInFirst(ops: seq<Op>)
    requires ops != []
    ensures EarnedIn(ops) == (if ops[0].Earn? then ops[0].points else 0) + EarnedIn(ops[1..])
    ensures SomeEarn(ops) <==> ops[0].Earn? || SomeEarn(ops[1..])
  {
  }

  // The level after a run is the one for its final total: the path does not matter, only
  // whether anything was earned at all.
  lemma {:induction false} LevelIsPathIndependent(a: Account, levels: seq<Level>, ops: seq<Op>)
    requires NonNegativeEarns(ops)
    ensures var b := DoAll(a, levels, ops);
      && b.total == a.total + EarnedIn(ops) && b.total >= a.total
      && b.level == if SomeEarn(ops) then LevelFor(levels, a.total + EarnedIn(ops), a.level) else a.level
    decreases |ops|
  {
    if ops != [] {
      RestOfOps(ops);
      EarnedInFirst(ops);
      var next := Do(a, levels, ops[0]);
      LevelIsPathIndependent(next, levels, ops[1..]);
      if !SomeEarn(ops[1..]) {
        NoEarnNoPoints(ops[1..]);
      }
      if ops[0].Earn? && Best(levels, next.total).Some? {
        MorePointsNoLowerLevel(levels, next.total, DoAll(a, levels, ops).total);
      }
    }
  }

  // Once a configured level is reached, no later state of the account has a level with a
  // lower threshold.
  lemma LevelNeverDrops(a: Account, levels: seq<Level>, first: seq<Op>, more: seq<Op>)
    requires NonNegativeEarns(first) && NonNegativeEarns(more)
    requires SomeEarn(first) && Best(levels, DoAll(a, levels, first).total).Some?
    ensures var b, c := DoAll(a, levels, first), DoAll(DoAll(a, levels, first), levels, more);
      && Best(levels, c.total).Some?
      && b.level == Best(levels, b.total).value.name && c.level == Best(levels, c.total).value.name
      && Best(levels, b.total).value.minPoints <= Best(levels, c.total).value.minPoints
  {
    var b := DoAll(a, levels, first);
    LevelIsPathIndependent(a, levels, first);
    LevelIsPathIndependent(b, levels, more);
    MorePointsNoLowerLevel(levels, b.total, DoAll(b, levels, more).total);
    if !SomeEarn(more) {
      NoEarnNoPoints(more);
    }
  }

  lemma {:induction false} NoEarnNoPoints(ops: seq<Op>)
    requires !SomeEarn(ops)
    ensures EarnedIn(ops) == 0
  {
    if ops != [] {
      EarnedInFirst(ops);
      assert !ops[0].Earn?;
      NoEarnNoPoints(ops[1..]);
    }
  }

  // ---------- the service ----------

  // `int()` drops the fraction.
  function Truncated(x: real): int {
    if x >= 0.0 then x.Floor else -(-x).Floor
  }

  // Points for an order of `total` at `rate`; nothing is booked unless it is positive.
  function OrderPoints(total: real, rate: real): int {
    Max(0, Truncated(total * rate))
  }

  // The points of an order are the whole points of its total at the rate, and none below zero.
  lemma OrderPointsWhole(total: real, rate: real)
    ensures var points := OrderPoints(total, rate) as real;
            if total * rate >= 0.0 then points <= total * rate < points + 1.0 else points == 0.0
  {
  }

  class PointsService {
    var available: int
    var total: int
    var used: int
    var level: string
    var log: seq<PointsRow>

    ghost function State(): Account
      reads this
    {
      Account(available, total, used, level, log)
    }

    constructor (level: string)
      ensures State() == Account(0, 0, 0, level, [])
    {
      available, total, used, log := 0, 0, 0, [];
      this.level := level;
    }

    // The levels come ordered by threshold, so the loop stops at the first one that is
    // not reached.
    method CheckMembershipUpgrade(levels: seq<Level>)
      requires Sorted(levels)
      modifies this
      ensures State() == old(State()).(level := LevelFor(levels, total, old(level)))
    {
      var newLevel := level;
      for i := 0 to |levels|
        invariant State() == old(State())
        invariant newLevel == LevelFor(levels[..i], total, level)
        invariant forall j :: 0 <= j < i ==> levels[j].minPoints <= total
      {
        if total >= levels[i].minPoints {
          BestSoFar(levels, i, total);
          newLevel := levels[i].name;
        } else {
          BestSoFar(levels, i, total);
          break;
        }
        assert levels[..i + 1][..i] == levels[..i];
      }
      assert levels[..|levels|] == levels;
      if newLevel != level {
        level := newLevel;
      }
    }

    method EarnPoints(points: int, levels: seq<Level>)
      requires Sorted(levels)
      modifies this
      ensures State() == Earned(old(State()), levels, points)
    {
      available := available + points;
      total := total + points;
      log := log + [PointsRow(points, available)];
      CheckMembershipUpgrade(levels);
    }

    method ConsumePoints(points: int) returns (ok: bool)
      modifies this
      ensures ok <==> old(available) >= points
      ensures State() == Consumed(old(State()), points)
    {
      if available < points {
        return false;
      }
      available := available - points;
      used := used + points;
      log := log + [PointsRow(-points, available)];
      ok := true;
    }

    // `rate` is missing when the shop has no active rule.
    method ProcessOrderPoints(orderTotal: real, rate: Option<real>, levels: seq<Level>)
      requires Sorted(levels)
      modifies this
      ensures State() == if rate.Some? && OrderPoints(orderTotal, rate.value) > 0
                         then Earned(old(State()), levels, OrderPoints(orderTotal, rate.value)) else old(State())
    {
      if rate.Some? {
        var points := Truncated(orderTotal * rate.value);
        if points > 0 {
          EarnPoints(points, levels);
        }
      }
    }
  }

  // In a sorted list whose first `i` levels are reached, a reached level `i` is the best
  // so far, and one that is not reached ends the search.
  lemma BestSoFar(levels: seq<Level>, i: nat, points: int)
    requires Sorted(levels) && i < |levels|
    requires forall j :: 0 <= j < i ==> levels[j].minPoints <= points
    ensures levels[i].minPoints <= points ==> Best(levels[..i + 1], points) == Some(levels[i])
    ensures levels[i].minPoints > points ==> Best(levels, points) == Best(levels[..i], points)
  {
    if levels[i].minPoints <= points {
      LastIsBest(levels[..i + 1], points);
    } else {
      assert levels == levels[..i] + levels[i..];
      forall j | 0 <= j < |levels[i..]| ensures levels[i..][j].minPoints > points {
        assert levels[i..][j] == levels[i + j];
      }
      BestIsGreatestReached(levels[i..], points);
      BestConcat(levels[..i], levels[i..], points);
    }
  }

  lemma {:induction false} LastIsBest(levels: seq<Level>, points: int)
    requires levels != [] && Sorted(levels) && forall j :: 0 <= j < |levels| ==> levels[j].minPoints <= points
    ensures Best(levels, points) == Some(levels[|levels| - 1])
  {
    if |levels| > 1 {
      LastIsBest(levels[1..], points);
    }
  }

  lemma {:induction false} BestConcat(a: seq<Level>, b: seq<Level>, points: int)
    requires Best(b, points).None?
    ensures Best(a + b, points) == Best(a, points)
  {
    if a == [] {
      assert a + b == b;
    } else {
      assert (a + b)[1..] == a[1..] + b;
      BestConcat(a[1..], b, points);
    }
  }

  // ---------- splitting a bill ----------

  lemma PointsOfTwo(a: real, b: real, rate: real)
    requires a >= 0.0 && b >= 0.0 && rate >= 0.0
    ensures OrderPoints(a, rate) + OrderPoints(b, rate) <= OrderPoints(a + b, rate)
         <= OrderPoints(a, rate) + OrderPoints(b, rate) + 1
  {
  }

  // The points of the parts, part by part, and the bill they add up to.
  function PartsPoints(parts: seq<real>, rate: real): int {
    if parts == [] then 0 else OrderPoints(parts[0], rate) + PartsPoints(parts[1..], rate)
  }

  function Whole(parts: seq<real>): real {
    if parts == [] then 0.0 else parts[0] + Whole(parts[1..])
  }

  // Cutting a bill into parts that are not negative never earns more points, and loses
  // less than one point per cut.
  lemma {:induction false} CutsNeverEarnMore(parts: seq<real>, rate: real)
    requires rate >= 0.0 && parts != [] && forall i :: 0 <= i < |parts| ==> parts[i] >= 0.0
    ensures Whole(parts) >= 0.0
    ensures PartsPoints(parts, rate) <= OrderPoints(Whole(parts), rate) <= PartsPoints(parts, rate) + |parts| - 1
  {
    if |parts| == 1 {
      assert Whole(parts[1..]) == 0.0 && PartsPoints(parts[1..], rate) == 0;
    } else {
      CutsNeverEarnMore(parts[1..], rate);
      PointsOfTwo(parts[0], Whole(parts[1..]), rate);
    }
  }

  // What a bill counts for points: nothing when it is negative.
  function Positive(bill: real): real {
    if bill < 0.0 then 0.0 else bill
  }

  function Times(bill: real, rate: real): real {
    bill * rate
  }

  lemma PointsOfPositive(bill: real, rate: real)
    requires rate >= 0.0
    ensures OrderPoints(bill, rate) == Times(Positive(bill), rate).Floor
  {
  }

  lemma PartsMonotone(x: real, y: real, z: real, rate: real)
    requires x + y <= z && rate >= 0.0
    ensures Times(x, rate) + Times(y, rate) <= Times(z, rate)
  {
    assert (x + y) * rate <= z * rate;
  }

  // At the rate that makes the difference worth two points.
  lemma WorthTwoPoints(x: real, y: real, z: real) returns (rate: real)
    requires x + y > z
    ensures rate > 0.0 && Times(x, rate) + Times(y, rate) == Times(z, rate) + 2.0
  {
    rate := 2.0 / (x + y - z);
    assert (x + y - z) * rate == 2.0;
  }

  // Whatever bills `a` and `b` replace a bill `t`: they earn more at some rate if and only if
  // their positive parts add up to more than that of `t`.
  lemma TwoBillsEarnMoreIff(a: real, b: real, t: real)
    ensures (forall rate: real :: rate >= 0.0 ==>
               OrderPoints(a, rate) + OrderPoints(b, rate) <= OrderPoints(t, rate))
            <==> Positive(a) + Positive(b) <= Positive(t)
  {
    if Positive(a) + Positive(b) <= Positive(t) {
      forall rate: real | rate >= 0.0
        ensures OrderPoints(a, rate) + OrderPoints(b, rate) <= OrderPoints(t, rate)
      {
        PointsOfThree(a, b, t, rate);
        PartsMonotone(Positive(a), Positive(b), Positive(t), rate);
      }
    } else {
      var rate := WorthTwoPoints(Positive(a), Positive(b), Positive(t));
      PointsOfThree(a, b, t, rate);
      assert OrderPoints(a, rate) + OrderPoints(b, rate) > OrderPoints(t, rate);
    }
  }

  lemma PointsOfThree(a: real, b: real, t: real, rate: real)
    requires rate >= 0.0
    ensures OrderPoints(a, rate) == Times(Positive(a), rate).Floor
    ensures OrderPoints(b, rate) == Times(Positive(b), rate).Floor
    ensures OrderPoints(t, rate) == Times(Positive(t), rate).Floor
  {
    PointsOfPositive(a, rate);
    PointsOfPositive(b, rate);
    PointsOfPositive(t, rate);
  }

  // The bill `t` earns at most one point more than they do, at every rate, if and only if its
  // positive part is at most theirs together.
  lemma OneBillEarnsMoreIff(a: real, b: real, t: real)
    ensures (forall rate: real :: rate >= 0.0 ==>
               OrderPoints(t, rate) <= OrderPoints(a, rate) + OrderPoints(b, rate) + 1)
            <==> Positive(t) <= Positive(a) + Positive(b)
  {
    if Positive(t) <= Positive(a) + Positive(b) {
      forall rate: real | rate >= 0.0
        ensures OrderPoints(t, rate) <= OrderPoints(a, rate) + OrderPoints(b, rate) + 1
      {
        PointsOfThree(a, b, t, rate);
        SumMonotone(Positive(a), Positive(b), Positive(t), rate);
      }
    } else {
      var rate := TwoPointsShort(Positive(a), Positive(b), Positive(t));
      PointsOfThree(a, b, t, rate);
      assert OrderPoints(t, rate) > OrderPoints(a, rate) + OrderPoints(b, rate) + 1;
    }
  }

  lemma SumMonotone(x: real, y: real, z: real, rate: real)
    requires z <= x + y && rate >= 0.0
    ensures Times(z, rate) <= Times(x, rate) + Times(y, rate)
  {
    assert z * rate <= (x + y) * rate;
  }

  // At the rate that makes the difference worth two points.
  lemma TwoPointsShort(x: real, y: real, z: real) returns (rate: real)
    requires z > x + y
    ensures rate > 0.0 && Times(z, rate) == Times(x, rate) + Times(y, rate) + 2.0
  {
    rate := 2.0 / (z - x - y);
    assert (z - x - y) * rate == 2.0;
  }

  // Of two bills that add up to the one before, both must not be positive for that: one has to
  // be negative while the other is positive.
  lemma SplitEarnsMoreIff(a: real, b: real)
    ensures (forall rate: real :: rate >= 0.0 ==>
               OrderPoints(a, rate) + OrderPoints(b, rate) <= OrderPoints(a + b, rate))
            <==> !(a < 0.0 < b || b < 0.0 < a)
  {
    TwoBillsEarnMoreIff(a, b, a + b);
  }

  // What stays on the original order and what moves, from the split data alone.
  function Staying(db: Db, o: int, entries: seq<SplitEntry>): real {
    SumReal(db.lines, MoneyAfterOn({o}, o, db.nextOrder, entries))
  }

  function Moving(db: Db, o: int, entries: seq<SplitEntry>): real {
    SumReal(db.lines, MoneyAfterOn({db.nextOrder}, o, db.nextOrder, entries))
  }

  lemma BillsOfSplit(db: Db, o: int, entries: seq<SplitEntry>)
    requires db.Valid() && o in db.orders && Split(db, o, entries).Some?
    ensures var d := Split(db, o, entries).value;
      && o in d.orders && db.nextOrder in d.orders
      && d.orders[o].total == Staying(db, o, entries) - db.orders[o].discount
      && d.orders[db.nextOrder].total == Moving(db, o, entries)
  {
    SplitResult(db, o, entries);
    SplitMeasures(db, o, entries, {o}, _ => true);
    SplitMeasures(db, o, entries, {db.nextOrder}, _ => true);
  }

  // Any split, whatever total was stored: the two bills earn more points at some rate if and
  // only if the positive parts of what stays less the discount and of what moves exceed that
  // total.
  lemma SplitOrderEarnsMoreIff(db: Db, o: int, entries: seq<SplitEntry>)
    requires db.Valid() && o in db.orders && Split(db, o, entries).Some?
    ensures var d := Split(db, o, entries).value;
      && o in d.orders && db.nextOrder in d.orders
      && ((forall rate: real :: rate >= 0.0 ==>
             OrderPoints(d.orders[o].total, rate) + OrderPoints(d.orders[db.nextOrder].total, rate)
             <= OrderPoints(db.orders[o].total, rate))
          <==> Positive(Staying(db, o, entries) - db.orders[o].discount) + Positive(Moving(db, o, entries))
               <= Positive(db.orders[o].total))
  {
    BillsOfSplit(db, o, entries);
    TwoBillsEarnMoreIff(Staying(db, o, entries) - db.orders[o].discount, Moving(db, o, entries), db.orders[o].total);
  }

  // And they earn at most one point less, at every rate, if and only if those positive parts
  // reach the total.
  lemma SplitOrderEarnsLessIff(db: Db, o: int, entries: seq<SplitEntry>)
    requires db.Valid() && o in db.orders && Split(db, o, entries).Some?
    ensures var d := Split(db, o, entries).value;
      && o in d.orders && db.nextOrder in d.orders
      && ((forall rate: real :: rate >= 0.0 ==>
             OrderPoints(db.orders[o].total, rate)
             <= OrderPoints(d.orders[o].total, rate) + OrderPoints(d.orders[db.nextOrder].total, rate) + 1)
          <==> Positive(db.orders[o].total)
               <= Positive(Staying(db, o, entries) - db.orders[o].discount) + Positive(Moving(db, o, entries)))
  {
    BillsOfSplit(db, o, entries);
    OneBillEarnsMoreIff(Staying(db, o, entries) - db.orders[o].discount, Moving(db, o, entries), db.orders[o].total);
  }

  // An order for 100 with a discount of 50, all of it moved away: the rest owes -50, the new
  // bill 100, and at one point per unit of money the split earns 100 points instead of 50.
  lemma SplitEarnsMoreExample()
    ensures var db, entries := OneOrder(100.0, 0.0, 0.0, 50.0), [SplitEntry(1, None)];
      && db.Valid() && Split(db, 1, entries).Some?
      && var d := Split(db, 1, entries).value;
      && 1 in d.orders && 2 in d.orders
      && d.orders[1].total == -50.0 && d.orders[2].total == 100.0 && db.orders[1].total == 50.0
      && OrderPoints(d.orders[1].total, 1.0) + OrderPoints(d.orders[2].total, 1.0) == 100
      && OrderPoints(db.orders[1].total, 1.0) == 50
  {
    SplitOneOrder(100.0, 0.0, 0.0, 50.0, None);
  }

  // An order for 10 of which two units are asked for: the bills are 0 and 20.
  lemma OvershootEarnsMoreExample()
    ensures var db, entries := OneOrder(10.0, 0.0, 0.0, 0.0), [SplitEntry(1, Some(2))];
      && db.Valid() && Split(db, 1, entries).Some?
      && var d := Split(db, 1, entries).value;
      && 1 in d.orders && 2 in d.orders
      && d.orders[1].total == 0.0 && d.orders[2].total == 20.0 && db.orders[1].total == 10.0
      && OrderPoints(d.orders[1].total, 1.0) + OrderPoints(d.orders[2].total, 1.0) == 20
      && OrderPoints(db.orders[1].total, 1.0) == 10
  {
    SplitOneOrder(10.0, 0.0, 0.0, 0.0, Some(2));
  }
}
