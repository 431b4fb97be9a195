// What merging orders does as a function of the list of order ids, when it loses lines and
// when the order of the list matters, and how far it undoes a split.

module PosMerge {
  import opened Sums
  import opened ShopData
  import opened Pos
  import opened PosSplit

  // ---------- a static reading of the id list ----------

  // The orders of the shop that the list names.
  function Named(orders: map<int, Order>, shop: int, ids: seq<int>): set<int> {
    set id | id in ids && Found(orders, shop, id)
  }

  // Whether the loop comes across the main order itself.
  predicate Swallowed(orders: map<int, Order>, shop: int, main: int, ids: seq<int>) {
    main in ids && Found(orders, shop, main)
  }

  // The ids before the first occurrence of `main`.
  function Before(ids: seq<int>, main: int): seq<int> {
    if ids == [] || ids[0] == main then [] else [ids[0]] + Before(ids[1..], main)
  }

  // Orders whose lines are deleted: when the loop comes to the main order it deletes
  // that order together with all the lines collected so far.
  function LostOrders(orders: map<int, Order>, shop: int, main: int, ids: seq<int>): set<int> {
    if Swallowed(orders, shop, main, ids) then Named(orders, shop, Before(ids, main)) + {main} else {}
  }

  // Orders whose lines end up on the main order.
  function MovedOrders(orders: map<int, Order>, shop: int, main: int, ids: seq<int>): set<int> {
    Named(orders, shop, ids) - LostOrders(orders, shop, main, ids)
  }

  // Every line of a lost order goes, every line of a moved order goes to `main`.
  function Rehome(lines: seq<Line>, lost: set<int>, moved: set<int>, main: int): seq<Line> {
    if lines == [] then []
    else
      (if lines[0].order in lost then []
       else if lines[0].order in moved then [lines[0].(order := main)]
       else [lines[0]]) + Rehome(lines[1..], lost, moved, main)
  }

  // ---------- the loop does what the static reading says ----------

  lemma {:induction false} OneIsRehome(lines: seq<Line>, id: int, main: int)
    ensures LinesOff(Reparent(lines, id, main), {id})
         == if id == main then Rehome(lines, {main}, {}, main) else Rehome(lines, {}, {id}, main)
  {
    if lines != [] {
      OneIsRehome(lines[1..], id, main);
      var r := Reparent(lines, id, main);
      assert r[1..] == Reparent(lines[1..], id, main);
    }
  }

  lemma {:induction false} RehomeNothing(lines: seq<Line>, main: int)
    ensures Rehome(lines, {}, {}, main) == lines
  {
    if lines != [] {
      RehomeNothing(lines[1..], main);
    }
  }

  // Two rounds make one: `f` and `g` are the fates of an order in the first and in the
  // second round, `h` in the round that does both.
  lemma {:induction false} RehomeTwice(lines: seq<Line>, main: int, lost1: set<int>, moved1: set<int>,
                                       lost2: set<int>, moved2: set<int>, lost: set<int>, moved: set<int>)
    requires main !in moved1 && main !in moved2 && main !in moved
    requires forall x :: x in lost <==> x in lost1 || (x in moved1 && main in lost2) || (x !in moved1 && x in lost2)
    requires forall x :: x !in lost ==> (x in moved <==> x in moved1 || x in moved2)
    ensures Rehome(Rehome(lines, lost1, moved1, main), lost2, moved2, main) == Rehome(lines, lost, moved, main)
  {
    if lines != [] {
      RehomeTwice(lines[1..], main, lost1, moved1, lost2, moved2, lost, moved);
      var l, rest := lines[0], Rehome(lines[1..], lost1, moved1, main);
      if l.order !in lost1 {
        var l' := if l.order in moved1 then l.(order := main) else l;
        assert Rehome(lines, lost1, moved1, main) == [l'] + rest;
        assert ([l'] + rest)[1..] == rest;
      } else {
        assert Rehome(lines, lost1, moved1, main) == rest;
      }
    }
  }

  lemma MergeOneRows(db: Db, shop: int, main: int, ids: seq<int>)
    requires ids != [] && Found(db.orders, shop, ids[0])
    ensures MergeOne(db, shop, main, ids[0]).lines
         == if ids[0] == main then Rehome(db.lines, {main}, {}, main) else Rehome(db.lines, {}, {ids[0]}, main)
  {
    OneIsRehome(db.lines, ids[0], main);
  }

  // How the sets change when the first id is taken off the list.
  lemma SetsOfRest(orders: map<int, Order>, shop: int, main: int, ids: seq<int>)
    requires ids != [] && Found(orders, shop, ids[0])
    ensures var id, rest, orders' := ids[0], ids[1..], orders - {ids[0]};
      && Named(orders, shop, ids) == Named(orders', shop, rest) + {id}
      && (id == main ==>
            LostOrders(orders, shop, main, ids) == {main} && LostOrders(orders', shop, main, rest) == {}
            && MovedOrders(orders', shop, main, rest) == MovedOrders(orders, shop, main, ids))
      && (id != main ==>
            if Swallowed(orders, shop, main, ids)
            then LostOrders(orders, shop, main, ids) == LostOrders(orders', shop, main, rest) + {id}
                 && MovedOrders(orders, shop, main, ids) == MovedOrders(orders', shop, main, rest)
                 && main in LostOrders(orders', shop, main, rest)
            else LostOrders(orders, shop, main, ids) == LostOrders(orders', shop, main, rest) == {}
                 && MovedOrders(orders, shop, main, ids) == MovedOrders(orders', shop, main, rest) + {id})
  {
  }

  lemma SetsOfRestUnknown(orders: map<int, Order>, shop: int, main: int, ids: seq<int>)
    requires ids != [] && !Found(orders, shop, ids[0])
    ensures LostOrders(orders, shop, main, ids) == LostOrders(orders, shop, main, ids[1..])
    ensures MovedOrders(orders, shop, main, ids) == MovedOrders(orders, shop, main, ids[1..])
  {
  }

  // The loop over the ids, for every list: with the main order in it or not, with
  // repetitions, unknown orders and orders of other shops.
  lemma {:induction false} MergeLinesEffect(db: Db, shop: int, main: int, ids: seq<int>)
    ensures MergeLines(db, shop, main, ids)
         == db.(lines := Rehome(db.lines, LostOrders(db.orders, shop, main, ids),
                                MovedOrders(db.orders, shop, main, ids), main),
                orders := db.orders - LostOrders(db.orders, shop, main, ids) - MovedOrders(db.orders, shop, main, ids))
    ensures main !in MovedOrders(db.orders, shop, main, ids)
    decreases |ids|
  {
    var lost, moved := LostOrders(db.orders, shop, main, ids), MovedOrders(db.orders, shop, main, ids);
    if ids == [] {
      RehomeNothing(db.lines, main);
      assert lost == {} && moved == {} && db.orders - lost - moved == db.orders;
    } else if !Found(db.orders, shop, ids[0]) {
      SetsOfRestUnknown(db.orders, shop, main, ids);
      MergeLinesEffect(db, shop, main, ids[1..]);
    } else {
      var one := MergeOne(db, shop, main, ids[0]);
      MergeLinesEffect(one, shop, main, ids[1..]);
      MergeOneRows(db, shop, main, ids);
      SetsOfRest(db.orders, shop, main, ids);
      var lost2, moved2 := LostOrders(one.orders, shop, main, ids[1..]), MovedOrders(one.orders, shop, main, ids[1..]);
      if ids[0] == main {
        RehomeTwice(db.lines, main, {main}, {}, lost2, moved2, lost, moved);
      } else {
        RehomeTwice(db.lines, main, {}, {ids[0]}, lost2, moved2, lost, moved);
      }
      assert db.orders - lost - moved == one.orders - lost2 - moved2;
    }
  }

  // ---------- the result of a merge ----------

  lemma MergeResult(db: Db, shop: int, main: int, ids: seq<int>)
    requires main in db.orders
    ensures var d := Merge(db, shop, main, ids);
            var lost, moved := LostOrders(db.orders, shop, main, ids), MovedOrders(db.orders, shop, main, ids);
      && main !in moved
      && d == db.(lines := Rehome(db.lines, lost, moved, main), orders := d.orders)
      && d.orders == (db.orders - lost - moved)[main :=
           Recalculated(if main in lost then db.orders[main].(history := []) else db.orders[main],
                        Money(d.lines, {main}))]
  {
    MergeLinesEffect(db, shop, main, ids);
  }

  // The orders whose lines are on the orders `s` afterwards.
  function Sources(s: set<int>, lost: set<int>, moved: set<int>, main: int): set<int> {
    (if main in s then s + moved else s - moved) - lost
  }

  lemma {:induction false} RehomeMeasures(lines: seq<Line>, s: set<int>, c: Goods -> bool,
                                          lost: set<int>, moved: set<int>, main: int)
    requires main !in moved
    ensures Units(Rehome(lines, lost, moved, main), s, c) == Units(lines, Sources(s, lost, moved, main), c)
    ensures Money(Rehome(lines, lost, moved, main), s) == Money(lines, Sources(s, lost, moved, main))
  {
    if lines != [] {
      RehomeMeasures(lines[1..], s, c, lost, moved, main);
      var l, rest := lines[0], Rehome(lines[1..], lost, moved, main);
      if l.order !in lost {
        var l' := if l.order in moved then l.(order := main) else l;
        assert Rehome(lines, lost, moved, main) == [l'] + rest;
        assert ([l'] + rest)[1..] == rest;
        assert GoodsOf(l') == GoodsOf(l);
      } else {
        assert Rehome(lines, lost, moved, main) == rest;
      }
    }
  }

  // A merge that does not come across the main order puts exactly their lines beside those of the main order;
  // every other order has the lines it had.
  lemma MergeUnion(db: Db, shop: int, main: int, ids: seq<int>, c: Goods -> bool)
    requires main in db.orders && !Swallowed(db.orders, shop, main, ids)
    ensures var d, named := Merge(db, shop, main, ids), Named(db.orders, shop, ids);
      && d.orders.Keys == db.orders.Keys - named
      && Units(d.lines, {main}, c) == Units(db.lines, {main} + named, c)
      && d.orders[main].subtotal == Money(db.lines, {main} + named)
      && d.orders[main].total == Money(db.lines, {main} + named) - db.orders[main].discount
      && (forall x :: x in d.orders && x != main ==>
            d.orders[x] == db.orders[x] && Units(d.lines, {x}, c) == Units(db.lines, {x}, c))
      && LinesOff(d.lines, {main}) == LinesOff(db.lines, {main} + named)
      && |d.lines| == |db.lines|
  {
    var d, named := Merge(db, shop, main, ids), Named(db.orders, shop, ids);
    MergeResult(db, shop, main, ids);
    assert LostOrders(db.orders, shop, main, ids) == {} && MovedOrders(db.orders, shop, main, ids) == named;
    RehomeMeasures(db.lines, {main}, c, {}, named, main);
    assert Sources({main}, {}, named, main) == {main} + named;
    forall x | x in d.orders && x != main ensures Units(d.lines, {x}, c) == Units(db.lines, {x}, c) {
      RehomeMeasures(db.lines, {x}, c, {}, named, main);
      assert Sources({x}, {}, named, main) == {x};
    }
    RehomeOthers(db.lines, named, main);
    RehomeLength(db.lines, {}, named, main);
    NoneOn(db.lines, {});
  }

  lemma {:induction false} RehomeOthers(lines: seq<Line>, moved: set<int>, main: int)
    ensures LinesOff(Rehome(lines, {}, moved, main), {main}) == LinesOff(lines, {main} + moved)
  {
    if lines != [] {
      RehomeOthers(lines[1..], moved, main);
      var rest := Rehome(lines[1..], {}, moved, main);
      var l' := if lines[0].order in moved then lines[0].(order := main) else lines[0];
      assert Rehome(lines, {}, moved, main) == [l'] + rest && ([l'] + rest)[1..] == rest;
    }
  }

  function CountOn(lines: seq<Line>, s: set<int>): nat {
    if lines == [] then 0 else (if lines[0].order in s then 1 else 0) + CountOn(lines[1..], s)
  }

  lemma {:induction false} RehomeLength(lines: seq<Line>, lost: set<int>, moved: set<int>, main: int)
    ensures |Rehome(lines, lost, moved, main)| == |lines| - CountOn(lines, lost)
  {
    if lines != [] {
      RehomeLength(lines[1..], lost, moved, main);
    }
  }

  lemma {:induction false} NoneOn(lines: seq<Line>, s: set<int>)
    ensures CountOn(lines, s) == 0 <==> forall i :: 0 <= i < |lines| ==> lines[i].order !in s
  {
    if lines != [] {
      NoneOn(lines[1..], s);
      assert forall i :: 0 < i < |lines| ==> lines[i] == lines[1..][i - 1];
      assert forall i :: 0 <= i < |lines| - 1 ==> lines[1..][i] == lines[i + 1];
    }
  }

  // A merge loses lines exactly when the list names the main order while that order, or
  // an order named before it, has lines: those lines are deleted with the main order.
  lemma MergeKeepsLinesIff(db: Db, shop: int, main: int, ids: seq<int>)
    requires main in db.orders
    ensures |Merge(db, shop, main, ids).lines| == |db.lines| <==>
            (main in ids && db.orders[main].shop == shop ==>
             forall i :: 0 <= i < |db.lines| ==>
               db.lines[i].order != main && db.lines[i].order !in Named(db.orders, shop, Before(ids, main)))
  {
    var lost, moved := LostOrders(db.orders, shop, main, ids), MovedOrders(db.orders, shop, main, ids);
    MergeResult(db, shop, main, ids);
    RehomeLength(db.lines, lost, moved, main);
    NoneOn(db.lines, lost);
  }

  // An order merged into itself ends up without lines and with nothing to pay but its
  // discount.
  lemma MergedIntoItself(db: Db, main: int)
    requires main in db.orders
    ensures var d := Merge(db, db.orders[main].shop, main, [main]);
      && d.orders[main].subtotal == 0.0 && d.orders[main].total == -db.orders[main].discount
      && d.orders[main].history == []
      && (forall i :: 0 <= i < |d.lines| ==> d.lines[i].order != main)
  {
    var shop := db.orders[main].shop;
    MergeResult(db, shop, main, [main]);
    assert Before([main], main) == [] && LostOrders(db.orders, shop, main, [main]) == {main};
    assert MovedOrders(db.orders, shop, main, [main]) == {};
    NoneLeft(db.lines, main);
    NoLinesNoMoney(Rehome(db.lines, {main}, {}, main), {main});
  }

  lemma {:induction false} NoneLeft(lines: seq<Line>, main: int)
    ensures forall i :: 0 <= i < |Rehome(lines, {main}, {}, main)| ==> Rehome(lines, {main}, {}, main)[i].order != main
  {
    if lines != [] {
      NoneLeft(lines[1..], main);
    }
  }

  // ---------- the tables stay well formed ----------

  predicate ComesFrom(r: Line, l: Line, lost: set<int>, moved: set<int>, main: int) {
    l.order !in lost && r == if l.order in moved then l.(order := main) else l
  }

  ghost predicate Sourced(r: Line, lines: seq<Line>, lost: set<int>, moved: set<int>, main: int) {
    exists j :: 0 <= j < |lines| && ComesFrom(r, lines[j], lost, moved, main)
  }

  // Every row afterwards is one of the rows before, on the same or on the main order.
  lemma {:induction false} RehomeRow(lines: seq<Line>, lost: set<int>, moved: set<int>, main: int, i: nat)
    requires i < |Rehome(lines, lost, moved, main)|
    ensures Sourced(Rehome(lines, lost, moved, main)[i], lines, lost, moved, main)
  {
    var r, rest := Rehome(lines, lost, moved, main), Rehome(lines[1..], lost, moved, main);
    var skip := |r| - |rest|;
    assert skip == if lines[0].order in lost then 0 else 1;
    if i < skip {
      assert ComesFrom(r[0], lines[0], lost, moved, main);
    } else {
      assert r[i] == rest[i - skip];
      RehomeRow(lines[1..], lost, moved, main, i - skip);
      var j :| 0 <= j < |lines[1..]| && ComesFrom(r[i], lines[1..][j], lost, moved, main);
      assert lines[j + 1] == lines[1..][j];
    }
  }

  lemma {:induction false} RehomeIds(lines: seq<Line>, lost: set<int>, moved: set<int>, main: int, i: nat, j: nat)
    requires forall a, b :: 0 <= a < b < |lines| ==> lines[a].id != lines[b].id
    requires i < j < |Rehome(lines, lost, moved, main)|
    ensures Rehome(lines, lost, moved, main)[i].id != Rehome(lines, lost, moved, main)[j].id
  {
    var r, rest := Rehome(lines, lost, moved, main), Rehome(lines[1..], lost, moved, main);
    var skip := |r| - |rest|;
    assert skip == if lines[0].order in lost then 0 else 1;
    assert r[j] == rest[j - skip];
    if i < skip {
      RehomeRow(lines[1..], lost, moved, main, j - skip);
      var k :| 0 <= k < |lines[1..]| && ComesFrom(r[j], lines[1..][k], lost, moved, main);
      assert lines[k + 1] == lines[1..][k];
    } else {
      assert r[i] == rest[i - skip];
      RehomeIds(lines[1..], lost, moved, main, i - skip, j - skip);
    }
  }

  lemma MergeValid(db: Db, shop: int, main: int, ids: seq<int>)
    requires db.Valid() && main in db.orders
    ensures Merge(db, shop, main, ids).Valid()
  {
    var d := Merge(db, shop, main, ids);
    var lost, moved := LostOrders(db.orders, shop, main, ids), MovedOrders(db.orders, shop, main, ids);
    MergeResult(db, shop, main, ids);
    forall i, j | 0 <= i < j < |d.lines| ensures d.lines[i].id != d.lines[j].id {
      RehomeIds(db.lines, lost, moved, main, i, j);
    }
    forall i | 0 <= i < |d.lines| ensures d.LineOk(d.lines[i]) {
      RehomeRow(db.lines, lost, moved, main, i);
      var j :| 0 <= j < |db.lines| && ComesFrom(d.lines[i], db.lines[j], lost, moved, main);
      assert db.LineOk(db.lines[j]);
    }
  }

  // ---------- when two id lists come to the same ----------

  lemma {:induction false} RehomeKeeps(lines: seq<Line>, lost: set<int>, moved: set<int>, main: int, j: nat)
    requires j < |lines| && lines[j].order !in lost
    ensures exists r :: r in Rehome(lines, lost, moved, main) && r.id == lines[j].id
  {
    if j > 0 {
      RehomeKeeps(lines[1..], lost, moved, main, j - 1);
    } else {
      var r := if lines[0].order in moved then lines[0].(order := main) else lines[0];
      assert r in Rehome(lines, lost, moved, main) && r.id == lines[0].id;
    }
  }

  // Of a line that one list loses and the other keeps, only the second leaves a row.
  lemma LostRowDiffers(db: Db, main: int, lost1: set<int>, moved1: set<int>, lost2: set<int>, moved2: set<int>, j: nat)
    requires db.Valid() && j < |db.lines| && db.lines[j].order in lost1 && db.lines[j].order !in lost2
    ensures Rehome(db.lines, lost1, moved1, main) != Rehome(db.lines, lost2, moved2, main)
  {
    var one := Rehome(db.lines, lost1, moved1, main);
    RehomeKeeps(db.lines, lost2, moved2, main, j);
    forall i | 0 <= i < |one| ensures one[i].id != db.lines[j].id {
      RehomeRow(db.lines, lost1, moved1, main, i);
      var k :| 0 <= k < |db.lines| && ComesFrom(one[i], db.lines[k], lost1, moved1, main);
      assert k != j;
    }
  }

  lemma {:induction false} RehomeSame(lines: seq<Line>, main: int, named: set<int>, lost1: set<int>, lost2: set<int>)
    requires forall i :: 0 <= i < |lines| ==> (lines[i].order in lost1 <==> lines[i].order in lost2)
    ensures Rehome(lines, lost1, named - lost1, main) == Rehome(lines, lost2, named - lost2, main)
  {
    if lines != [] {
      RehomeSame(lines[1..], main, named, lost1, lost2);
    }
  }

  lemma {:induction false} BeforeIn(ids: seq<int>, main: int)
    ensures forall id :: id in Before(ids, main) ==> id in ids
  {
    if ids != [] {
      BeforeIn(ids[1..], main);
    }
  }

  lemma RestOf(orders: map<int, Order>, named: set<int>, lost: set<int>)
    requires lost <= named
    ensures orders - lost - (named - lost) == orders - named
  {
    assert (orders - lost - (named - lost)).Keys == (orders - named).Keys;
  }

  // Two lists that name the same orders of the shop, the main order perhaps among them, come
  // to the same if and only if every line is lost with both or with neither.
  lemma MergeAgreesIff(db: Db, shop: int, main: int, ids1: seq<int>, ids2: seq<int>)
    requires db.Valid() && main in db.orders
    requires Named(db.orders, shop, ids1) == Named(db.orders, shop, ids2)
    ensures Merge(db, shop, main, ids1) == Merge(db, shop, main, ids2) <==>
            forall i :: 0 <= i < |db.lines| ==>
              (db.lines[i].order in LostOrders(db.orders, shop, main, ids1) <==>
               db.lines[i].order in LostOrders(db.orders, shop, main, ids2))
  {
    var named := Named(db.orders, shop, ids1);
    var lost1, lost2 := LostOrders(db.orders, shop, main, ids1), LostOrders(db.orders, shop, main, ids2);
    MergeResult(db, shop, main, ids1);
    MergeResult(db, shop, main, ids2);
    assert main in named <==> Swallowed(db.orders, shop, main, ids1);
    assert main in named <==> Swallowed(db.orders, shop, main, ids2);
    BeforeIn(ids1, main);
    BeforeIn(ids2, main);
    RestOf(db.orders, named, lost1);
    RestOf(db.orders, named, lost2);
    if forall i :: 0 <= i < |db.lines| ==> (db.lines[i].order in lost1 <==> db.lines[i].order in lost2) {
      RehomeSame(db.lines, main, named, lost1, lost2);
    } else {
      var j :| 0 <= j < |db.lines| && !(db.lines[j].order in lost1 <==> db.lines[j].order in lost2);
      if db.lines[j].order in lost1 {
        LostRowDiffers(db, main, lost1, named - lost1, lost2, named - lost2, j);
      } else {
        LostRowDiffers(db, main, lost2, named - lost2, lost1, named - lost1, j);
      }
    }
  }

  // A list that does not come across the main order loses nothing: its order, repetitions,
  // unknown ids and orders of other shops do not matter.
  lemma MergeDependsOnSet(db: Db, shop: int, main: int, ids1: seq<int>, ids2: seq<int>)
    requires db.Valid() && main in db.orders && !Swallowed(db.orders, shop, main, ids1)
    requires Named(db.orders, shop, ids1) == Named(db.orders, shop, ids2)
    ensures Merge(db, shop, main, ids1) == Merge(db, shop, main, ids2)
  {
    assert main in Named(db.orders, shop, ids2) <==> Swallowed(db.orders, shop, main, ids2);
    assert main !in Named(db.orders, shop, ids1);
    MergeAgreesIff(db, shop, main, ids1, ids2);
  }

  // With the main order in the list its place matters: the other order's line survives
  // behind it and is deleted before it.
  lemma MergeDependsOnOrder(db: Db, main: int, a: int, i: nat)
    requires db.Valid() && main in db.orders && a in db.orders && a != main && db.orders[a].shop == db.orders[main].shop
    requires i < |db.lines| && db.lines[i].order == a
    ensures var shop := db.orders[main].shop;
            Merge(db, shop, main, [main, a]) != Merge(db, shop, main, [a, main])
  {
    var shop := db.orders[main].shop;
    assert Named(db.orders, shop, [main, a]) == {main, a} == Named(db.orders, shop, [a, main]);
    assert Before([main, a], main) == [];
    assert Before([a, main], main) == [a] + Before([main], main);
    MergeAgreesIff(db, shop, main, [main, a], [a, main]);
    assert a in LostOrders(db.orders, shop, main, [a, main]) && a !in LostOrders(db.orders, shop, main, [main, a]);
  }

  // ---------- merging undoes splitting ----------

  lemma {:induction false} LinesOffUnused(lines: seq<Line>, s: set<int>, t: set<int>)
    requires forall i :: 0 <= i < |lines| ==> (lines[i].order in s <==> lines[i].order in t)
    ensures LinesOff(lines, s) == LinesOff(lines, t)
  {
    if lines != [] {
      LinesOffUnused(lines[1..], s, t);
    }
  }

  lemma NothingOnFreshOrder(db: Db, o: int, c: Goods -> bool)
    requires db.Valid() && o in db.orders
    ensures Units(db.lines, {o, db.nextOrder}, c) == Units(db.lines, {o}, c)
    ensures LinesOff(db.lines, {o, db.nextOrder}) == LinesOff(db.lines, {o})
  {
    forall i | 0 <= i < |db.lines| ensures db.lines[i].order != db.nextOrder {
      assert db.LineOk(db.lines[i]);
    }
    LinesOffUnused(db.lines, {o}, {o, db.nextOrder});
    SumIntSame(db.lines, UnitsOn({o}, c), UnitsOn({o, db.nextOrder}, c));
  }

  // Merging the new order back restores all other lines and all other orders. The order
  // itself has its units again and those that the split made, and owes what the split left
  // of its money, less the discount.
  lemma SplitThenMerge(db: Db, o: int, entries: seq<SplitEntry>, c: Goods -> bool)
    requires db.Valid() && o in db.orders && Split(db, o, entries).Some?
    ensures var m := Merge(Split(db, o, entries).value, db.orders[o].shop, o, [db.nextOrder]);
      && Units(m.lines, {o}, c) == Units(db.lines, {o}, c) + Excess(db.lines, o, c, entries)
      && LinesOff(m.lines, {o}) == LinesOff(db.lines, {o})
      && m.orders == db.orders[o := Recalculated(db.orders[o], MoneyLeft(db.lines, o, entries))]
    ensures InRange(db.lines, o, entries) ==> Excess(db.lines, o, c, entries) == 0
    ensures InRange(db.lines, o, entries) && Linear(db.lines, o) ==>
              MoneyLeft(db.lines, o, entries) == Money(db.lines, {o})
  {
    var d, n, shop := Split(db, o, entries).value, db.nextOrder, db.orders[o].shop;
    SplitResult(db, o, entries);
    NothingOnFreshOrder(db, o, c);
    assert Named(d.orders, shop, [n]) == {n} && {o} + {n} == {o, n};
    MergeUnion(d, shop, o, [n], c);
    SplitUnits(db, o, entries, {o, n}, c);
    MergeBackOrders(db, o, entries);
    SplitMoney(db, o, entries);
    if InRange(db.lines, o, entries) {
      InRangeNoExcess(db.lines, o, c, entries);
    }
  }

  lemma MergeOneOther(d: Db, o: int, n: int)
    requires o in d.orders && n in d.orders && n != o && d.orders[n].shop == d.orders[o].shop
    ensures Merge(d, d.orders[o].shop, o, [n]).orders
         == (d.orders - {n})[o := Recalculated(d.orders[o], Money(d.lines, {o, n}))]
  {
    var shop := d.orders[o].shop;
    assert Named(d.orders, shop, [n]) == {n};
    MergeResult(d, shop, o, [n]);
    assert LostOrders(d.orders, shop, o, [n]) == {} && MovedOrders(d.orders, shop, o, [n]) == {n};
    RehomeMeasures(d.lines, {o}, _ => true, {}, {n}, o);
    assert Sources({o}, {}, {n}, o) == {o, n};
    assert d.orders - {} - {n} == d.orders - {n};
  }

  lemma PutBack(orders: map<int, Order>, o: int, n: int, x: Order, y: Order, z: Order)
    requires o in orders && n !in orders
    ensures (orders[o := x][n := y] - {n})[o := z] == orders[o := z]
  {
  }

  lemma MergeBackOrders(db: Db, o: int, entries: seq<SplitEntry>)
    requires db.Valid() && o in db.orders && Split(db, o, entries).Some?
    ensures Merge(Split(db, o, entries).value, db.orders[o].shop, o, [db.nextOrder]).orders
         == db.orders[o := Recalculated(db.orders[o], MoneyLeft(db.lines, o, entries))]
  {
    var d, n := Split(db, o, entries).value, db.nextOrder;
    SplitMoney(db, o, entries);
    SplitResult(db, o, entries);
    MergeOneOther(d, o, n);
    PutBack(db.orders, o, n, d.orders[o], d.orders[n], Recalculated(d.orders[o], Money(d.lines, {o, n})));
  }

  lemma SameRowIff(orders: map<int, Order>, o: int, order: Order)
    requires o in orders
    ensures orders[o := order] == orders <==> order == orders[o]
  {
  }
}
