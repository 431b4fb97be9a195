// What splitting an order moves, conserves and creates.

module PosSplit {
  import opened Wrappers
  import opened Sums
  import opened ShopData
  import opened Pos

  // ---------- a static reading of the split data ----------

  // The quantities that the entries for item `id` ask for, in order.
  function Demands(entries: seq<SplitEntry>, id: int): seq<Option<int>> {
    if entries == [] then []
    else (if entries[0].item == id then [entries[0].quantity] else []) + Demands(entries[1..], id)
  }

  // Units that stay on a line of `quantity` units. A demand below what is left shrinks
  // the line; the first one that is not takes the line away, and later ones find nothing.
  function Left(quantity: int, demands: seq<Option<int>>): int
    decreases |demands|
  {
    if demands == [] then quantity
    else if demands[0].Some? && demands[0].value < quantity then Left(quantity - demands[0].value, demands[1..])
    else 0
  }

  // Units that turn up on the new order for that line.
  function Moved(quantity: int, demands: seq<Option<int>>): int
    decreases |demands|
  {
    if demands == [] then 0
    else if demands[0].None? then quantity
    else if demands[0].value < quantity then demands[0].value + Moved(quantity - demands[0].value, demands[1..])
    else demands[0].value
  }

  // Units on both orders beyond what the line had.
  function Overshoot(quantity: int, demands: seq<Option<int>>): int {
    Left(quantity, demands) + Moved(quantity, demands) - quantity
  }

  lemma {:induction false} OvershootBounds(quantity: int, demands: seq<Option<int>>)
    ensures Overshoot(quantity, demands) >= 0
    ensures Overshoot(quantity, demands) > 0 ==> Left(quantity, demands) == 0
    decreases |demands|
  {
    if demands != [] && demands[0].Some? && demands[0].value < quantity {
      OvershootBounds(quantity - demands[0].value, demands[1..]);
    }
  }

  // No demand asks for more than is left of the line when the loop comes to it; once the
  // line is gone nothing more is asked of it.
  predicate Fits(quantity: int, demands: seq<Option<int>>)
    decreases |demands|
  {
    demands == [] || demands[0].None? || demands[0].value == quantity ||
    (demands[0].value < quantity && Fits(quantity - demands[0].value, demands[1..]))
  }

  lemma {:induction false} FitsIffNoOvershoot(quantity: int, demands: seq<Option<int>>)
    ensures Fits(quantity, demands) <==> Overshoot(quantity, demands) == 0
    decreases |demands|
  {
    if demands != [] && demands[0].Some? && demands[0].value < quantity {
      FitsIffNoOvershoot(quantity - demands[0].value, demands[1..]);
    }
  }

  function Demanded(demands: seq<Option<int>>): int {
    SumInt(demands, (d: Option<int>) => d.GetOr(0))
  }

  // What the first `i` demands ask for.
  function Asked(demands: seq<Option<int>>, i: nat): int
    requires i <= |demands|
  {
    Demanded(demands[..i])
  }

  // Demand `j` is the one that takes the line away: the ones before it are explicit and add
  // up to less than the line has, with it they do not, or it asks for the whole line.
  ghost predicate TakesAway(quantity: int, demands: seq<Option<int>>, j: nat) {
    && j < |demands|
    && (forall i :: 0 <= i < j ==> demands[i].Some? && Asked(demands, i + 1) < quantity)
    && (demands[j].Some? ==> Asked(demands, j + 1) >= quantity)
  }

  lemma AskedFromFirst(demands: seq<Option<int>>)
    requires demands != []
    ensures Asked(demands, 0) == 0
    ensures forall i :: 0 <= i < |demands| ==> Asked(demands, i + 1) == demands[0].GetOr(0) + Asked(demands[1..], i)
  {
    forall i | 0 <= i < |demands| ensures Asked(demands, i + 1) == demands[0].GetOr(0) + Asked(demands[1..], i) {
      assert demands[..i + 1][1..] == demands[1..][..i];
    }
  }

  lemma TakesAwayFromFirst(quantity: int, demands: seq<Option<int>>, j: nat)
    requires demands != [] && demands[0].Some? && demands[0].value < quantity
    ensures TakesAway(quantity, demands, j + 1) <==> TakesAway(quantity - demands[0].value, demands[1..], j)
  {
    var left, rest := quantity - demands[0].value, demands[1..];
    AskedFromFirst(demands);
    assert Asked(rest, 0) == 0;
    assert forall i :: 0 <= i < |rest| ==> rest[i] == demands[i + 1];
    if TakesAway(left, rest, j) {
      forall i | 0 <= i < j + 1 ensures demands[i].Some? && Asked(demands, i + 1) < quantity {
        assert i > 0 ==> demands[i] == rest[i - 1] && Asked(rest, i - 1 + 1) < left;
      }
      assert rest[j].Some? ==> Asked(demands, j + 1 + 1) == demands[0].value + Asked(rest, j + 1);
      assert TakesAway(quantity, demands, j + 1);
    }
    if TakesAway(quantity, demands, j + 1) {
      forall i | 0 <= i < j ensures rest[i].Some? && Asked(rest, i + 1) < left {
        assert demands[i + 1].Some? && Asked(demands, i + 1 + 1) < quantity;
      }
      assert demands[j + 1].Some? ==> Asked(demands, j + 1 + 1) == demands[0].value + Asked(rest, j + 1);
      assert TakesAway(left, rest, j);
    }
  }

  // In closed form: the demand that takes the line away moves what it asks for, the ones
  // before it what they ask for, and the ones after it nothing.
  lemma {:induction false} WhenTakenAway(quantity: int, demands: seq<Option<int>>, j: nat)
    requires TakesAway(quantity, demands, j)
    ensures var left := quantity - Asked(demands, j);
      && Left(quantity, demands) == 0
      && Moved(quantity, demands) == Asked(demands, j) + demands[j].GetOr(left)
      && Overshoot(quantity, demands) == demands[j].GetOr(left) - left
    decreases j
  {
    AskedFromFirst(demands);
    assert Asked(demands[1..], 0) == 0;
    if j > 0 {
      assert demands[0].Some? && Asked(demands, 0 + 1) < quantity;
      TakesAwayFromFirst(quantity, demands, j - 1);
      WhenTakenAway(quantity - demands[0].value, demands[1..], j - 1);
      assert Asked(demands, j - 1 + 1) == demands[0].value + Asked(demands[1..], j - 1);
    }
  }

  // Without such a demand all of them are met and the rest stays.
  lemma {:induction false} WhenNotTakenAway(quantity: int, demands: seq<Option<int>>)
    requires forall j: nat :: !TakesAway(quantity, demands, j)
    ensures Left(quantity, demands) == quantity - Demanded(demands)
    ensures Moved(quantity, demands) == Demanded(demands)
    decreases |demands|
  {
    if demands != [] {
      AskedFromFirst(demands);
      assert Asked(demands[1..], 0) == 0;
      assert !TakesAway(quantity, demands, 0);
      assert demands[0].Some? && Asked(demands, 0 + 1) < quantity;
      var left, rest := quantity - demands[0].value, demands[1..];
      forall j: nat ensures !TakesAway(left, rest, j) {
        TakesAwayFromFirst(quantity, demands, j);
      }
      WhenNotTakenAway(left, rest);
      assert Demanded(demands) == demands[0].GetOr(0) + Demanded(demands[1..]);
    }
  }

  // Explicit demands for at most what the line has never overshoot.
  lemma {:induction false} ModestDemandsFit(quantity: int, demands: seq<Option<int>>)
    requires forall i :: 0 <= i < |demands| ==> demands[i].Some? && demands[i].value >= 0
    requires Demanded(demands) <= quantity
    ensures Fits(quantity, demands)
    ensures Moved(quantity, demands) <= Demanded(demands)
    decreases |demands|
  {
    var w := (d: Option<int>) => d.GetOr(0);
    SumIntNonNegative(demands, w);
    if demands != [] {
      assert Demanded(demands) == demands[0].value + Demanded(demands[1..]);
      SumIntNonNegative(demands[1..], w);
      if demands[0].value < quantity {
        ModestDemandsFit(quantity - demands[0].value, demands[1..]);
      }
    }
  }

  predicate Touched(l: Line, o: int, entries: seq<SplitEntry>) {
    l.order == o && Demands(entries, l.id) != []
  }

  // No demand asks for more than is left of its line.
  ghost predicate InRange(lines: seq<Line>, o: int, entries: seq<SplitEntry>) {
    forall i :: 0 <= i < |lines| && lines[i].order == o ==>
      Fits(lines[i].quantity, Demands(entries, lines[i].id))
  }

  // The price of every line of `o` is unit price times quantity (no surcharge).
  ghost predicate Linear(lines: seq<Line>, o: int) {
    forall i :: 0 <= i < |lines| && lines[i].order == o ==>
      lines[i].totalPrice == Price(lines[i].unitPrice, lines[i].quantity)
  }

  // ---------- what a line contributes to the orders `s` once the entries are done ----------

  function UnitsAfter(l: Line, s: set<int>, o: int, n: int, c: Goods -> bool, entries: seq<SplitEntry>): int {
    if l.order != o then UnitsAt(l, s, c)
    else if !c(GoodsOf(l)) then 0
    else (
      (if o in s then Left(l.quantity, Demands(entries, l.id)) else 0) +
      (if n in s then Moved(l.quantity, Demands(entries, l.id)) else 0))
  }

  function UnitsAfterOn(s: set<int>, o: int, n: int, c: Goods -> bool, entries: seq<SplitEntry>): Line -> int {
    (l: Line) => UnitsAfter(l, s, o, n, c, entries)
  }

  // A touched line is priced again at unit price times quantity on either order.
  function MoneyAfter(l: Line, s: set<int>, o: int, n: int, entries: seq<SplitEntry>): real {
    if !Touched(l, o, entries) then MoneyAt(l, s)
    else (
      (if o in s then Price(l.unitPrice, Left(l.quantity, Demands(entries, l.id))) else 0.0) +
      (if n in s then Price(l.unitPrice, Moved(l.quantity, Demands(entries, l.id))) else 0.0))
  }

  function MoneyAfterOn(s: set<int>, o: int, n: int, entries: seq<SplitEntry>): Line -> real {
    (l: Line) => MoneyAfter(l, s, o, n, entries)
  }

  // ---------- one entry ----------

  // A row that the first entry does not hit ends up the same without that entry.
  lemma OtherRows(db: Db, i: int, s: set<int>, o: int, n: int, c: Goods -> bool, entries: seq<SplitEntry>)
    requires db.Valid() && entries != []
    requires FindLine(db.lines, entries[0].item, o) == (if 0 <= i < |db.lines| then Some(i) else None)
    ensures forall j :: 0 <= j < |db.lines| && j != i ==>
              && UnitsAfterOn(s, o, n, c, entries)(db.lines[j]) == UnitsAfterOn(s, o, n, c, entries[1..])(db.lines[j])
              && MoneyAfterOn(s, o, n, entries)(db.lines[j]) == MoneyAfterOn(s, o, n, entries[1..])(db.lines[j])
  {
    forall j | 0 <= j < |db.lines| && j != i
      ensures UnitsAfterOn(s, o, n, c, entries)(db.lines[j]) == UnitsAfterOn(s, o, n, c, entries[1..])(db.lines[j])
      ensures MoneyAfterOn(s, o, n, entries)(db.lines[j]) == MoneyAfterOn(s, o, n, entries[1..])(db.lines[j])
    {
      if db.lines[j].order == o {
        assert Demands(entries, db.lines[j].id) == Demands(entries[1..], db.lines[j].id);
      }
    }
  }

  // The hit row ends up as what is kept of it and what moves will.
  lemma HitRowUnits(l: Line, id: int, n: int, q: int, s: set<int>, c: Goods -> bool, entries: seq<SplitEntry>)
    requires l.order != n
    requires entries != [] && entries[0].item == l.id && q == entries[0].quantity.GetOr(l.quantity)
    ensures SumInt(Kept(l, q), UnitsAfterOn(s, l.order, n, c, entries[1..]))
          + UnitsAfterOn(s, l.order, n, c, entries[1..])(MovedLine(l, id, n, q))
         == UnitsAfterOn(s, l.order, n, c, entries)(l)
  {
  }

  lemma HitRowMoney(l: Line, id: int, n: int, q: int, s: set<int>, entries: seq<SplitEntry>)
    requires l.order != n
    requires entries != [] && entries[0].item == l.id && q == entries[0].quantity.GetOr(l.quantity)
    ensures SumReal(Kept(l, q), MoneyAfterOn(s, l.order, n, entries[1..]))
          + MoneyAfterOn(s, l.order, n, entries[1..])(MovedLine(l, id, n, q))
         == MoneyAfterOn(s, l.order, n, entries)(l)
  {
    var w, kept, ds := MoneyAfterOn(s, l.order, n, entries[1..]), Kept(l, q), Demands(entries[1..], l.id);
    assert Demands(entries, l.id) == [entries[0].quantity] + ds;
    if q < l.quantity {
      assert SumReal(kept, w) == w(kept[0]) && kept[0].unitPrice == l.unitPrice;
      assert Left(l.quantity, Demands(entries, l.id)) == Left(l.quantity - q, ds);
      assert Moved(l.quantity, Demands(entries, l.id)) == q + Moved(l.quantity - q, ds);
      PriceAdds(l.unitPrice, q, Moved(l.quantity - q, ds));
      if ds == [] {
        assert Left(l.quantity - q, ds) == l.quantity - q && Moved(l.quantity - q, ds) == 0;
      }
    }
  }

  lemma SplitOneUnits(db: Db, o: int, n: int, entries: seq<SplitEntry>, s: set<int>, c: Goods -> bool)
    requires db.Valid() && o != n
    requires entries != [] && SplitOne(db, o, n, entries[0]).Some?
    ensures SumInt(SplitOne(db, o, n, entries[0]).value.lines, UnitsAfterOn(s, o, n, c, entries[1..]))
         == SumInt(db.lines, UnitsAfterOn(s, o, n, c, entries))
  {
    var v, w := UnitsAfterOn(s, o, n, c, entries), UnitsAfterOn(s, o, n, c, entries[1..]);
    match FindLine(db.lines, entries[0].item, o)
    case None =>
      OtherRows(db, -1, s, o, n, c, entries);
      SumIntSame(db.lines, v, w);
    case Some(i) =>
      OtherRows(db, i, s, o, n, c, entries);
      var l := db.lines[i];
      var q := entries[0].quantity.GetOr(l.quantity);
      var moved := MovedLine(l, db.nextLine, n, q);
      HitRowUnits(l, db.nextLine, n, q, s, c, entries);
      SumIntReplace(db.lines, i, Kept(l, q), v, w);
      SumIntConcat(db.lines[..i] + Kept(l, q) + db.lines[i + 1..], [moved], w);
      assert SumInt([moved], w) == w(moved);
  }

  lemma SplitOneMoney(db: Db, o: int, n: int, entries: seq<SplitEntry>, s: set<int>)
    requires db.Valid() && o != n
    requires entries != [] && SplitOne(db, o, n, entries[0]).Some?
    ensures SumReal(SplitOne(db, o, n, entries[0]).value.lines, MoneyAfterOn(s, o, n, entries[1..]))
         == SumReal(db.lines, MoneyAfterOn(s, o, n, entries))
  {
    var v, w := MoneyAfterOn(s, o, n, entries), MoneyAfterOn(s, o, n, entries[1..]);
    match FindLine(db.lines, entries[0].item, o)
    case None =>
      OtherRows(db, -1, s, o, n, _ => true, entries);
      SumRealSame(db.lines, v, w);
    case Some(i) =>
      OtherRows(db, i, s, o, n, _ => true, entries);
      var l := db.lines[i];
      var q := entries[0].quantity.GetOr(l.quantity);
      var moved := MovedLine(l, db.nextLine, n, q);
      HitRowMoney(l, db.nextLine, n, q, s, entries);
      SumRealReplace(db.lines, i, Kept(l, q), v, w);
      SumRealConcat(db.lines[..i] + Kept(l, q) + db.lines[i + 1..], [moved], w);
      assert SumReal([moved], w) == w(moved);
  }

  // The rows that stay after one entry are well formed.
  lemma KeptRowsOk(db: Db, i: nat, q: int)
    requires db.Valid() && i < |db.lines| && q >= 0
    ensures var rows := db.lines[..i] + Kept(db.lines[i], q) + db.lines[i + 1..];
      && (forall j :: 0 <= j < |rows| ==> db.LineOk(rows[j]))
      && (forall j, k :: 0 <= j < k < |rows| ==> rows[j].id != rows[k].id)
  {
    var l := db.lines[i];
    assert db.LineOk(l);
    var rows := db.lines[..i] + Kept(l, q) + db.lines[i + 1..];
    if q < l.quantity {
      assert rows == db.lines[i := Kept(l, q)[0]];
    } else {
      assert rows == db.lines[..i] + db.lines[i + 1..];
    }
    forall j | 0 <= j < |rows| ensures db.LineOk(rows[j]) {
      if rows[j] !in Kept(l, q) {
        assert rows[j] in db.lines;
      }
    }
  }

  lemma SplitOneValid(db: Db, o: int, n: int, e: SplitEntry)
    requires db.Valid() && n in db.orders && SplitOne(db, o, n, e).Some?
    ensures SplitOne(db, o, n, e).value.Valid()
  {
    match FindLine(db.lines, e.item, o)
    case None =>
    case Some(i) =>
      var l := db.lines[i];
      var q := e.quantity.GetOr(l.quantity);
      assert db.LineOk(l);
      KeptRowsOk(db, i, q);
      AppendValid(db, db.lines[..i] + Kept(l, q) + db.lines[i + 1..], MovedLine(l, db.nextLine, n, q));
  }

  lemma SplitOneLeavesOthers(db: Db, o: int, n: int, e: SplitEntry)
    requires SplitOne(db, o, n, e).Some?
    ensures LinesOff(SplitOne(db, o, n, e).value.lines, {o, n}) == LinesOff(db.lines, {o, n})
  {
    match FindLine(db.lines, e.item, o)
    case None =>
    case Some(i) =>
      var l := db.lines[i];
      var q := e.quantity.GetOr(l.quantity);
      LinesOffReplace(db.lines, i, Kept(l, q), {o, n});
      LinesOffConcat(db.lines[..i] + Kept(l, q) + db.lines[i + 1..], [MovedLine(l, db.nextLine, n, q)], {o, n});
  }

  lemma {:induction false} LinesOffReplace(lines: seq<Line>, i: nat, x: seq<Line>, s: set<int>)
    requires i < |lines| && lines[i].order in s && LinesOff(x, s) == []
    ensures LinesOff(lines[..i] + x + lines[i + 1..], s) == LinesOff(lines, s)
  {
    var before, after := lines[..i], lines[i + 1..];
    LinesOffConcat(before + x, after, s);
    LinesOffConcat(before, x, s);
    LinesOffConcat(before, [lines[i]] + after, s);
    assert lines == before + ([lines[i]] + after);
    assert ([lines[i]] + after)[1..] == after;
  }

  // ---------- the whole loop ----------

  lemma {:induction false} SplitLinesEffect(db: Db, o: int, n: int, entries: seq<SplitEntry>, s: set<int>,
                                            c: Goods -> bool)
    requires db.Valid() && o != n && n in db.orders && SplitLines(db, o, n, entries).Some?
    ensures var d := SplitLines(db, o, n, entries).value;
      && d.Valid()
      && LinesOff(d.lines, {o, n}) == LinesOff(db.lines, {o, n})
      && Units(d.lines, s, c) == SumInt(db.lines, UnitsAfterOn(s, o, n, c, entries))
      && Money(d.lines, s) == SumReal(db.lines, MoneyAfterOn(s, o, n, entries))
    decreases |entries|
  {
    if entries == [] {
      SumIntSame(db.lines, UnitsOn(s, c), UnitsAfterOn(s, o, n, c, entries));
      SumRealSame(db.lines, MoneyOn(s), MoneyAfterOn(s, o, n, entries));
    } else {
      SplitOneUnits(db, o, n, entries, s, c);
      SplitOneMoney(db, o, n, entries, s);
      SplitOneValid(db, o, n, entries[0]);
      SplitOneLeavesOthers(db, o, n, entries[0]);
      SplitLinesEffect(SplitOne(db, o, n, entries[0]).value, o, n, entries[1..], s, c);
    }
  }

  // ---------- when a split is refused ----------

  // A negative demand is reached before the line is used up.
  predicate Refused(quantity: int, demands: seq<Option<int>>)
    decreases |demands|
  {
    demands != [] && demands[0].Some? &&
    (demands[0].value < 0 ||
     (demands[0].value < quantity && Refused(quantity - demands[0].value, demands[1..])))
  }

  function RefusedOn(o: int, entries: seq<SplitEntry>): Line -> int {
    (l: Line) => if l.order == o && Refused(l.quantity, Demands(entries, l.id)) then 1 else 0
  }

  lemma RefusedOtherRows(db: Db, i: int, o: int, entries: seq<SplitEntry>)
    requires db.Valid() && entries != []
    requires FindLine(db.lines, entries[0].item, o) == (if 0 <= i < |db.lines| then Some(i) else None)
    ensures forall j :: 0 <= j < |db.lines| && j != i ==>
              RefusedOn(o, entries)(db.lines[j]) == RefusedOn(o, entries[1..])(db.lines[j])
  {
    forall j | 0 <= j < |db.lines| && j != i
      ensures RefusedOn(o, entries)(db.lines[j]) == RefusedOn(o, entries[1..])(db.lines[j])
    {
      if db.lines[j].order == o {
        assert Demands(entries, db.lines[j].id) == Demands(entries[1..], db.lines[j].id);
      }
    }
  }

  lemma RefusedHitRow(l: Line, id: int, n: int, entries: seq<SplitEntry>)
    requires l.order != n && l.quantity >= 0 && entries != [] && entries[0].item == l.id
    ensures var q := entries[0].quantity.GetOr(l.quantity);
            var w := RefusedOn(l.order, entries[1..]);
            if q < 0 then RefusedOn(l.order, entries)(l) == 1
            else SumInt(Kept(l, q), w) == RefusedOn(l.order, entries)(l) && w(MovedLine(l, id, n, q)) == 0
  {
  }

  lemma RefusedOneStep(db: Db, o: int, n: int, entries: seq<SplitEntry>)
    requires db.Valid() && o != n && entries != []
    ensures var one := SplitOne(db, o, n, entries[0]);
            if one.None? then SumInt(db.lines, RefusedOn(o, entries)) > 0
            else SumInt(one.value.lines, RefusedOn(o, entries[1..])) == SumInt(db.lines, RefusedOn(o, entries))
  {
    var v, w := RefusedOn(o, entries), RefusedOn(o, entries[1..]);
    SumIntNonNegative(db.lines, v);
    match FindLine(db.lines, entries[0].item, o)
    case None =>
      RefusedOtherRows(db, -1, o, entries);
      SumIntSame(db.lines, v, w);
    case Some(i) =>
      var l := db.lines[i];
      var q := entries[0].quantity.GetOr(l.quantity);
      assert db.LineOk(l);
      RefusedHitRow(l, db.nextLine, n, entries);
      if q >= 0 {
        var moved := MovedLine(l, db.nextLine, n, q);
        RefusedOtherRows(db, i, o, entries);
        SumIntReplace(db.lines, i, Kept(l, q), v, w);
        SumIntConcat(db.lines[..i] + Kept(l, q) + db.lines[i + 1..], [moved], w);
        assert SumInt([moved], w) == w(moved);
      }
  }

  lemma {:induction false} SplitLinesRefused(db: Db, o: int, n: int, entries: seq<SplitEntry>)
    requires db.Valid() && o != n && n in db.orders
    ensures SplitLines(db, o, n, entries).None? <==> SumInt(db.lines, RefusedOn(o, entries)) > 0
    decreases |entries|
  {
    if entries == [] {
      SumIntSame(db.lines, RefusedOn(o, entries), (l: Line) => 0);
      AllZero(db.lines);
    } else {
      RefusedOneStep(db, o, n, entries);
      var one := SplitOne(db, o, n, entries[0]);
      if one.Some? {
        SplitOneValid(db, o, n, entries[0]);
        SplitLinesRefused(one.value, o, n, entries[1..]);
      }
    }
  }

  lemma {:induction false} AllZero(lines: seq<Line>)
    ensures SumInt(lines, (l: Line) => 0) == 0
  {
    if lines != [] {
      AllZero(lines[1..]);
      SumIntSame(lines[1..], (l: Line) => 0, (l: Line) => 0);
    }
  }

  // A split is rolled back exactly when the data asks for a negative number of units of
  // a line that is still there.
  lemma SplitRefusedIff(db: Db, o: int, entries: seq<SplitEntry>)
    requires db.Valid() && o in db.orders
    ensures Split(db, o, entries).None? <==>
            exists i :: 0 <= i < |db.lines| && db.lines[i].order == o
                     && Refused(db.lines[i].quantity, Demands(entries, db.lines[i].id))
  {
    var start := WithNewOrder(db, NewSplitOrder(db.orders[o]));
    WithNewOrderValid(db, NewSplitOrder(db.orders[o]));
    SplitLinesRefused(start, o, db.nextOrder, entries);
    var w := RefusedOn(o, entries);
    SumIntNonNegative(db.lines, w);
    if SumInt(db.lines, w) > 0 {
      PositiveRow(db.lines, w);
    }
    assert forall i :: 0 <= i < |db.lines| ==>
        (w(db.lines[i]) == 1 <==>
         db.lines[i].order == o && Refused(db.lines[i].quantity, Demands(entries, db.lines[i].id)));
  }

  lemma {:induction false} PositiveRow(lines: seq<Line>, w: Line -> int)
    requires SumInt(lines, w) > 0
    ensures exists i :: 0 <= i < |lines| && w(lines[i]) > 0
  {
    if w(lines[0]) <= 0 {
      PositiveRow(lines[1..], w);
      var i :| 0 <= i < |lines[1..]| && w(lines[1..][i]) > 0;
      assert lines[i + 1] == lines[1..][i];
    }
  }

  // ---------- the result of a split ----------

  // The final tables, in terms of the tables before and the split data alone.
  lemma SplitResult(db: Db, o: int, entries: seq<SplitEntry>)
    requires db.Valid() && o in db.orders && Split(db, o, entries).Some?
    ensures var d, n := Split(db, o, entries).value, db.nextOrder;
      && d.Valid()
      && n !in db.orders
      && d == db.(lines := d.lines, nextLine := d.nextLine, nextOrder := n + 1, orders :=
           db.orders[o := Recalculated(db.orders[o], Money(d.lines, {o}))]
                    [n := Order(db.orders[o].shop, db.orders[o].kind, db.orders[o].status, false,
                                Money(d.lines, {n}), 0.0, 0.0, Money(d.lines, {n}), [])])
      && LinesOff(d.lines, {o, n}) == LinesOff(db.lines, {o, n})
  {
    var n := db.nextOrder;
    var start := WithNewOrder(db, NewSplitOrder(db.orders[o]));
    WithNewOrderValid(db, NewSplitOrder(db.orders[o]));
    SplitLinesKeepsOrders(start, o, n, entries);
    var m := SplitLines(start, o, n, entries).value;
    var d := Split(db, o, entries).value;
    SplitLinesEffect(start, o, n, entries, {}, _ => true);
    SameKeysValid(m, d);
  }

  // The units and the money on any set of orders afterwards, line by line.
  lemma SplitMeasures(db: Db, o: int, entries: seq<SplitEntry>, s: set<int>, c: Goods -> bool)
    requires db.Valid() && o in db.orders && Split(db, o, entries).Some?
    ensures var d, n := Split(db, o, entries).value, db.nextOrder;
      && Units(d.lines, s, c) == SumInt(db.lines, UnitsAfterOn(s, o, n, c, entries))
      && Money(d.lines, s) == SumReal(db.lines, MoneyAfterOn(s, o, n, entries))
  {
    var start := WithNewOrder(db, NewSplitOrder(db.orders[o]));
    WithNewOrderValid(db, NewSplitOrder(db.orders[o]));
    SplitLinesKeepsOrders(start, o, db.nextOrder, entries);
    SplitLinesEffect(start, o, db.nextOrder, entries, s, c);
  }

  // ---------- units ----------

  function OvershootAt(l: Line, o: int, c: Goods -> bool, entries: seq<SplitEntry>): int {
    if l.order == o && c(GoodsOf(l)) then Overshoot(l.quantity, Demands(entries, l.id)) else 0
  }

  function OvershootOn(o: int, c: Goods -> bool, entries: seq<SplitEntry>): Line -> int {
    (l: Line) => OvershootAt(l, o, c, entries)
  }

  // Units of the goods `c` that the split makes out of nothing.
  function Excess(lines: seq<Line>, o: int, c: Goods -> bool, entries: seq<SplitEntry>): int {
    SumInt(lines, OvershootOn(o, c, entries))
  }

  lemma {:induction false} UnitsAfterBoth(lines: seq<Line>, s: set<int>, o: int, n: int, c: Goods -> bool,
                                          entries: seq<SplitEntry>)
    requires o in s <==> n in s
    ensures SumInt(lines, UnitsAfterOn(s, o, n, c, entries))
         == Units(lines, s, c) + (if o in s then Excess(lines, o, c, entries) else 0)
  {
    if lines != [] {
      UnitsAfterBoth(lines[1..], s, o, n, c, entries);
    }
  }

  // Over any set of orders that holds both sides of the split or neither, the units
  // grow by exactly the overshoot of the lines of the original order.
  lemma SplitUnits(db: Db, o: int, entries: seq<SplitEntry>, s: set<int>, c: Goods -> bool)
    requires db.Valid() && o in db.orders && Split(db, o, entries).Some?
    requires o in s <==> db.nextOrder in s
    ensures Units(Split(db, o, entries).value.lines, s, c)
         == Units(db.lines, s, c) + (if o in s then Excess(db.lines, o, c, entries) else 0)
    ensures Excess(db.lines, o, c, entries) >= 0
  {
    SplitMeasures(db, o, entries, s, c);
    UnitsAfterBoth(db.lines, s, o, db.nextOrder, c, entries);
    forall i | 0 <= i < |db.lines| ensures OvershootOn(o, c, entries)(db.lines[i]) >= 0 {
      OvershootBounds(db.lines[i].quantity, Demands(entries, db.lines[i].id));
    }
    SumIntNonNegative(db.lines, OvershootOn(o, c, entries));
  }

  lemma InRangeNoExcess(lines: seq<Line>, o: int, c: Goods -> bool, entries: seq<SplitEntry>)
    requires InRange(lines, o, entries)
    ensures Excess(lines, o, c, entries) == 0
  {
    forall i | 0 <= i < |lines| ensures OvershootOn(o, c, entries)(lines[i]) == 0 {
      FitsIffNoOvershoot(lines[i].quantity, Demands(entries, lines[i].id));
    }
    SumIntSame(lines, OvershootOn(o, c, entries), (l: Line) => 0);
    AllZero(lines);
  }

  lemma ExcessIff(lines: seq<Line>, o: int, entries: seq<SplitEntry>)
    ensures (forall c :: Excess(lines, o, c, entries) == 0) <==> InRange(lines, o, entries)
  {
    forall c | InRange(lines, o, entries) ensures Excess(lines, o, c, entries) == 0 {
      InRangeNoExcess(lines, o, c, entries);
    }
    if !InRange(lines, o, entries) {
      var any := (g: Goods) => true;
      forall i | 0 <= i < |lines| ensures OvershootOn(o, any, entries)(lines[i]) >= 0 {
        OvershootBounds(lines[i].quantity, Demands(entries, lines[i].id));
      }
      SumIntNonNegative(lines, OvershootOn(o, any, entries));
      var i :| 0 <= i < |lines| && lines[i].order == o && !Fits(lines[i].quantity, Demands(entries, lines[i].id));
      FitsIffNoOvershoot(lines[i].quantity, Demands(entries, lines[i].id));
      assert OvershootOn(o, any, entries)(lines[i]) > 0;
      assert Excess(lines, o, any, entries) > 0;
    }
  }

  // A split conserves the units of all goods if and only if no demand asks for more
  // than is left of its line.
  lemma SplitConservesUnitsIff(db: Db, o: int, entries: seq<SplitEntry>)
    requires db.Valid() && o in db.orders && Split(db, o, entries).Some?
    ensures (forall c :: Units(Split(db, o, entries).value.lines, {o, db.nextOrder}, c)
                      == Units(db.lines, {o, db.nextOrder}, c))
            <==> InRange(db.lines, o, entries)
  {
    var d, s := Split(db, o, entries).value, {o, db.nextOrder};
    forall c ensures Units(d.lines, s, c) == Units(db.lines, s, c) + Excess(db.lines, o, c, entries) {
      SplitUnits(db, o, entries, s, c);
    }
    ExcessIff(db.lines, o, entries);
  }

  // ---------- money ----------

  function SurchargeAt(l: Line, o: int, entries: seq<SplitEntry>): real {
    if Touched(l, o, entries) then l.totalPrice - Price(l.unitPrice, l.quantity) else 0.0
  }

  function SurchargeOn(o: int, entries: seq<SplitEntry>): Line -> real {
    (l: Line) => SurchargeAt(l, o, entries)
  }

  // What the touched lines cost beyond unit price times quantity.
  function SurchargeLost(lines: seq<Line>, o: int, entries: seq<SplitEntry>): real {
    SumReal(lines, SurchargeOn(o, entries))
  }

  function OvershootPriceAt(l: Line, o: int, entries: seq<SplitEntry>): real {
    if l.order == o then Price(l.unitPrice, Overshoot(l.quantity, Demands(entries, l.id))) else 0.0
  }

  function OvershootPriceOn(o: int, entries: seq<SplitEntry>): Line -> real {
    (l: Line) => OvershootPriceAt(l, o, entries)
  }

  // The price of the units that the split makes out of nothing.
  function OvershootPrice(lines: seq<Line>, o: int, entries: seq<SplitEntry>): real {
    SumReal(lines, OvershootPriceOn(o, entries))
  }

  // The money on both orders once order `o` has been split.
  function MoneyLeft(lines: seq<Line>, o: int, entries: seq<SplitEntry>): real {
    Money(lines, {o}) - SurchargeLost(lines, o, entries) + OvershootPrice(lines, o, entries)
  }

  lemma {:induction false} MoneyAfterBoth(lines: seq<Line>, s: set<int>, o: int, n: int, entries: seq<SplitEntry>)
    requires o in s <==> n in s
    ensures SumReal(lines, MoneyAfterOn(s, o, n, entries))
         == Money(lines, s) +
            (if o in s then MoneyLeft(lines, o, entries) - Money(lines, {o}) else 0.0)
  {
    if lines != [] {
      MoneyAfterBoth(lines[1..], s, o, n, entries);
      var l := lines[0];
      if Touched(l, o, entries) {
        var ds := Demands(entries, l.id);
        PriceAdds(l.unitPrice, Left(l.quantity, ds), Moved(l.quantity, ds));
        PriceAdds(l.unitPrice, l.quantity, Overshoot(l.quantity, ds));
      }
    }
  }

  lemma LinearLosesNothing(lines: seq<Line>, o: int, entries: seq<SplitEntry>)
    requires Linear(lines, o)
    ensures SurchargeLost(lines, o, entries) == 0.0
  {
    SumRealSame(lines, SurchargeOn(o, entries), (l: Line) => 0.0);
    AllZeroMoney(lines);
  }

  lemma InRangeMakesNoMoney(lines: seq<Line>, o: int, entries: seq<SplitEntry>)
    requires InRange(lines, o, entries)
    ensures OvershootPrice(lines, o, entries) == 0.0
  {
    forall i | 0 <= i < |lines| ensures OvershootPriceOn(o, entries)(lines[i]) == 0.0 {
      FitsIffNoOvershoot(lines[i].quantity, Demands(entries, lines[i].id));
    }
    SumRealSame(lines, OvershootPriceOn(o, entries), (l: Line) => 0.0);
    AllZeroMoney(lines);
  }

  // Every split loses exactly the surcharges of the lines it touches and gains exactly the
  // price of the units it makes: the two new subtotals add up to the old line total with
  // that loss and gain, and the two amounts due to that less the discount, which stays
  // with the original order.
  lemma SplitMoney(db: Db, o: int, entries: seq<SplitEntry>)
    requires db.Valid() && o in db.orders && Split(db, o, entries).Some?
    ensures var d, n, left := Split(db, o, entries).value, db.nextOrder, MoneyLeft(db.lines, o, entries);
      && Money(d.lines, {o, n}) == left
      && d.orders[o].subtotal + d.orders[n].subtotal == left
      && d.orders[o].total + d.orders[n].total == left - db.orders[o].discount
      && (left == Money(db.lines, {o}) <==>
          SurchargeLost(db.lines, o, entries) == OvershootPrice(db.lines, o, entries))
    ensures Linear(db.lines, o) ==> SurchargeLost(db.lines, o, entries) == 0.0
    ensures InRange(db.lines, o, entries) ==> OvershootPrice(db.lines, o, entries) == 0.0
  {
    var d, n := Split(db, o, entries).value, db.nextOrder;
    SplitResult(db, o, entries);
    SplitMeasures(db, o, entries, {o, n}, _ => true);
    MoneyAfterBoth(db.lines, {o, n}, o, n, entries);
    MoneyOfTwo(d.lines, o, n);
    MoneyOfTwo(db.lines, o, n);
    forall i | 0 <= i < |db.lines| ensures db.lines[i].order !in {n} {
      assert db.LineOk(db.lines[i]);
    }
    NoLinesNoMoney(db.lines, {n});
    if Linear(db.lines, o) {
      LinearLosesNothing(db.lines, o, entries);
    }
    if InRange(db.lines, o, entries) {
      InRangeMakesNoMoney(db.lines, o, entries);
    }
  }

  lemma {:induction false} AllZeroMoney(lines: seq<Line>)
    ensures SumReal(lines, (l: Line) => 0.0) == 0.0
  {
    if lines != [] {
      AllZeroMoney(lines[1..]);
      SumRealSame(lines[1..], (l: Line) => 0.0, (l: Line) => 0.0);
    }
  }

  // Asking for two units of a line that has one makes a second one.
  lemma SplitMakesUnits(db: Db, o: int, l: Line)
    requires db.Valid() && o in db.orders && db.lines == [l] && l.order == o && l.quantity == 1
    ensures var entries := [SplitEntry(l.id, Some(2))];
            Split(db, o, entries).Some? &&
            Units(Split(db, o, entries).value.lines, {o, db.nextOrder}, _ => true) == 2
  {
    var entries := [SplitEntry(l.id, Some(2))];
    assert Demands(entries, l.id) == [Some(2)];
    SplitRefusedIff(db, o, entries);
    SplitUnits(db, o, entries, {o, db.nextOrder}, _ => true);
    SumIntOne(l, OvershootOn(o, _ => true, entries));
    SumIntOne(l, UnitsOn({o, db.nextOrder}, _ => true));
  }

  // A shop with one order: one unit of a SKU at `price` and a surcharge, to be delivered.
  function OneOrder(price: real, surcharge: real, fee: real, discount: real): Db {
    Db(map[1 := Product(1, price)], map[1 := Sku(1, price)], map[1 := 0], map[1 := []],
       map[1 := Order(1, Delivery, Pending, false, price + surcharge, fee, discount,
                      price + surcharge - discount + fee, [])],
       [Line(1, 1, 1, Some(1), price, 1, price + surcharge)], map[], 2, 2, 1)
  }

  lemma OneOrderValid(price: real, surcharge: real, fee: real, discount: real)
    ensures OneOrder(price, surcharge, fee, discount).Valid()
  {
  }

  // All of a single unit moved away: only the discount stays.
  lemma OneLineAfter(l: Line, o: int, n: int, demand: Option<int>)
    requires l.order == o && o != n && l.quantity == 1 && (demand.Some? ==> demand.value >= 1)
    ensures var entries := [SplitEntry(l.id, demand)];
      && !Refused(l.quantity, Demands(entries, l.id))
      && MoneyAfter(l, {o}, o, n, entries) == 0.0
      && MoneyAfter(l, {n}, o, n, entries) == Price(l.unitPrice, demand.GetOr(1))
  {
    assert Demands([SplitEntry(l.id, demand)], l.id) == [demand];
    assert Price(l.unitPrice, 0) == 0.0;
  }

  lemma SplitOneUnit(db: Db, o: int, l: Line, demand: Option<int>)
    requires db.Valid() && o in db.orders && db.lines == [l] && l.order == o && l.quantity == 1
    requires demand.Some? ==> demand.value >= 1
    ensures var entries := [SplitEntry(l.id, demand)];
      && Split(db, o, entries).Some?
      && var d := Split(db, o, entries).value;
      && o in d.orders && d.orders[o].total == -db.orders[o].discount
      && db.nextOrder in d.orders && d.orders[db.nextOrder].total == Price(l.unitPrice, demand.GetOr(1))
  {
    var entries, n := [SplitEntry(l.id, demand)], db.nextOrder;
    OneLineAfter(l, o, n, demand);
    SplitRefusedIff(db, o, entries);
    SplitResult(db, o, entries);
    SplitMeasures(db, o, entries, {o}, _ => true);
    SplitMeasures(db, o, entries, {n}, _ => true);
    SumRealOne(l, MoneyAfterOn({o}, o, n, entries));
    SumRealOne(l, MoneyAfterOn({n}, o, n, entries));
  }

  lemma SplitOneOrder(price: real, surcharge: real, fee: real, discount: real, demand: Option<int>)
    requires demand.Some? ==> demand.value >= 1
    ensures var db, entries := OneOrder(price, surcharge, fee, discount), [SplitEntry(1, demand)];
      && db.Valid() && Split(db, 1, entries).Some?
      && var d := Split(db, 1, entries).value;
      && 1 in d.orders && d.orders[1].total == -discount
      && 2 in d.orders && d.orders[2].total == Price(price, demand.GetOr(1))
  {
    var db := OneOrder(price, surcharge, fee, discount);
    OneOrderValid(price, surcharge, fee, discount);
    SplitOneUnit(db, 1, db.lines[0], demand);
  }

  // An order for 17, of which 2 are a surcharge and 5 the delivery fee, moved away whole:
  // nothing is left to pay on it, and 10 on the new one.
  lemma SplitDropsExample()
    ensures var db, entries := OneOrder(10.0, 2.0, 5.0, 0.0), [SplitEntry(1, None)];
      && db.Valid() && db.orders[1].total == 17.0 && Split(db, 1, entries).Some?
      && var d := Split(db, 1, entries).value;
         1 in d.orders && d.orders[1].total == 0.0 && 2 in d.orders && d.orders[2].total == 10.0
  {
    SplitOneOrder(10.0, 2.0, 5.0, 0.0, None);
  }
}
