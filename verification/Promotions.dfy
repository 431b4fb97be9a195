// Promotions: when one applies to a basket and to how much of it.

module Promotions {
  import opened Wrappers
  import opened Sums
  import opened Coupons

  datatype PromotionType = PriceCut | Gift | Combo | FlashSale

  // `products` and `categories` are the related rows; both empty means "everything".
  datatype Promotion = Promotion(kind: PromotionType, conditionAmount: Option<real>, conditionQuantity: Option<int>,
                                 rate: Option<real>, amount: Option<real>,
                                 products: set<int>, categories: set<int>)

  predicate Scoped(p: Promotion) {
    p.products != {} || p.categories != {}
  }

  // A category id counts when it is truthy.
  predicate Matches(p: Promotion, item: Item) {
    item.product in p.products ||
    (item.category.Some? && item.category.value != 0 && item.category.value in p.categories)
  }

  function OrderAmount(items: seq<Item>): real {
    SumReal(items, (i: Item) => i.totalPrice)
  }

  function OrderQuantity(items: seq<Item>): int {
    SumInt(items, (i: Item) => i.quantity)
  }

  // A condition that is missing or zero is not checked.
  predicate AmountReached(p: Promotion, items: seq<Item>) {
    p.conditionAmount.Some? && p.conditionAmount.value != 0.0 ==> OrderAmount(items) >= p.conditionAmount.value
  }

  predicate QuantityReached(p: Promotion, items: seq<Item>) {
    p.conditionQuantity.Some? && p.conditionQuantity.value != 0 ==> OrderQuantity(items) >= p.conditionQuantity.value
  }

  ghost predicate Eligible(p: Promotion, items: seq<Item>) {
    && AmountReached(p, items)
    && QuantityReached(p, items)
    && (Scoped(p) ==> exists i :: 0 <= i < |items| && Matches(p, items[i]))
  }

  function CountedAt(p: Promotion, item: Item): real {
    if !Scoped(p) || Matches(p, item) then item.totalPrice else 0.0
  }

  // The part of the basket that the promotion applies to.
  function Applicable(p: Promotion, items: seq<Item>): real {
    SumReal(items, (i: Item) => CountedAt(p, i))
  }

  function Share(amount: real, rate: real): real {
    amount * rate
  }

  function PromotionDiscount(p: Promotion, items: seq<Item>): real {
    if !p.kind.PriceCut? then 0.0
    else if p.rate.Some? && p.rate.value != 0.0 then Share(Applicable(p, items), p.rate.value)
    else p.amount.GetOr(0.0)
  }

  // ---------- the loops ----------

  method CheckPromotionCondition(p: Promotion, items: seq<Item>) returns (r: bool)
    ensures r <==> Eligible(p, items)
  {
    if p.conditionAmount.Some? && p.conditionAmount.value != 0.0 {
      if OrderAmount(items) < p.conditionAmount.value {
        return false;
      }
    }
    if p.conditionQuantity.Some? && p.conditionQuantity.value != 0 {
      if OrderQuantity(items) < p.conditionQuantity.value {
        return false;
      }
    }
    if Scoped(p) {
      var hasApplicableItem := false;
      for i := 0 to |items|
        invariant !hasApplicableItem
        invariant forall j :: 0 <= j < i ==> !Matches(p, items[j])
      {
        if items[i].product in p.products {
          hasApplicableItem := true;
          break;
        }
        if items[i].category.Some? && items[i].category.value != 0 && items[i].category.value in p.categories {
          hasApplicableItem := true;
          break;
        }
      }
      if !hasApplicableItem {
        return false;
      }
    }
    r := true;
  }

  method GetApplicableAmount(p: Promotion, items: seq<Item>) returns (amount: real)
    ensures amount == Applicable(p, items)
  {
    var w := (i: Item) => CountedAt(p, i);
    if !Scoped(p) {
      SumRealSame(items, (i: Item) => i.totalPrice, w);
      return OrderAmount(items);
    }
    amount := 0.0;
    for i := 0 to |items|
      invariant amount + SumReal(items[i..], w) == SumReal(items, w)
    {
      assert items[i..][1..] == items[i + 1..];
      if Matches(p, items[i]) {
        amount := amount + items[i].totalPrice;
      }
    }
    SumRealSame(items, w, (i: Item) => CountedAt(p, i));
  }

  // ---------- eligibility and amount agree ----------

  ghost predicate PositiveTotals(items: seq<Item>) {
    forall i :: 0 <= i < |items| ==> items[i].totalPrice > 0.0
  }

  // A scoped promotion that a basket is eligible for applies to something.
  lemma EligibleHasAmount(p: Promotion, items: seq<Item>)
    requires Scoped(p) && Eligible(p, items) && PositiveTotals(items)
    ensures Applicable(p, items) > 0.0
  {
    var w := (i: Item) => CountedAt(p, i);
    SumRealNonNegative(items, w);
    var i :| 0 <= i < |items| && Matches(p, items[i]);
    assert w(items[i]) > 0.0;
    SumRealSame(items, w, (i: Item) => CountedAt(p, i));
  }

  // Exactly the baskets with a matching item have an applicable amount.
  lemma AmountIffMatch(p: Promotion, items: seq<Item>)
    requires Scoped(p) && PositiveTotals(items)
    ensures Applicable(p, items) > 0.0 <==> exists i :: 0 <= i < |items| && Matches(p, items[i])
  {
    var w := (i: Item) => CountedAt(p, i);
    SumRealSame(items, w, (i: Item) => CountedAt(p, i));
    if exists i :: 0 <= i < |items| && Matches(p, items[i]) {
      SumRealNonNegative(items, w);
      var i :| 0 <= i < |items| && Matches(p, items[i]);
      assert w(items[i]) > 0.0;
    } else {
      NothingMatches(p, items);
    }
  }

  lemma {:induction false} NothingMatches(p: Promotion, items: seq<Item>)
    requires Scoped(p) && forall i :: 0 <= i < |items| ==> !Matches(p, items[i])
    ensures Applicable(p, items) == 0.0
  {
    if items != [] {
      forall i | 0 <= i < |items[1..]| ensures !Matches(p, items[1..][i]) {
        assert items[1..][i] == items[i + 1];
      }
      NothingMatches(p, items[1..]);
      SumRealSame(items[1..], (i: Item) => CountedAt(p, i), (i: Item) => CountedAt(p, i));
    }
  }

  lemma ApplicableConcat(p: Promotion, a: seq<Item>, b: seq<Item>)
    ensures Applicable(p, a + b) == Applicable(p, a) + Applicable(p, b)
    ensures OrderAmount(a + b) == OrderAmount(a) + OrderAmount(b)
    ensures OrderQuantity(a + b) == OrderQuantity(a) + OrderQuantity(b)
  {
    SumRealConcat(a, b, (i: Item) => CountedAt(p, i));
    SumRealConcat(a, b, (i: Item) => i.totalPrice);
    SumIntConcat(a, b, (i: Item) => i.quantity);
  }

  ghost predicate NonNegativeItems(items: seq<Item>) {
    forall i :: 0 <= i < |items| ==> items[i].totalPrice >= 0.0 && items[i].quantity >= 0
  }

  // Adding items to a basket never loses a promotion, and never lowers its amount.
  lemma MoreItemsStayEligible(p: Promotion, a: seq<Item>, b: seq<Item>)
    requires Eligible(p, a) && NonNegativeItems(b)
    ensures Eligible(p, a + b)
    ensures Applicable(p, a + b) >= Applicable(p, a)
  {
    ApplicableConcat(p, a, b);
    SumRealNonNegative(b, (i: Item) => CountedAt(p, i));
    SumRealNonNegative(b, (i: Item) => i.totalPrice);
    SumIntNonNegative(b, (i: Item) => i.quantity);
    if Scoped(p) {
      var i :| 0 <= i < |a| && Matches(p, a[i]);
      assert Matches(p, (a + b)[i]);
    }
  }

  // The applicable amount is never more than the basket; it is all of it exactly when
  // the promotion covers every item that costs something.
  lemma {:induction false} ApplicableBounded(p: Promotion, items: seq<Item>)
    requires NonNegativeItems(items)
    ensures 0.0 <= Applicable(p, items) <= OrderAmount(items)
    ensures Applicable(p, items) == OrderAmount(items) <==>
            forall i :: 0 <= i < |items| ==> CountedAt(p, items[i]) == items[i].totalPrice
  {
    if items != [] {
      forall i | 0 <= i < |items[1..]| ensures items[1..][i] == items[i + 1] {
      }
      ApplicableBounded(p, items[1..]);
      SumRealSame(items[1..], (i: Item) => CountedAt(p, i), (i: Item) => CountedAt(p, i));
      SumRealSame(items[1..], (i: Item) => i.totalPrice, (i: Item) => i.totalPrice);
      assert Applicable(p, items) == CountedAt(p, items[0]) + Applicable(p, items[1..]);
      assert OrderAmount(items) == items[0].totalPrice + OrderAmount(items[1..]);
      assert forall i :: 0 < i < |items| ==> items[i] == items[1..][i - 1];
    }
  }

  // The order of the items does not matter.
  lemma PermutedBasket(p: Promotion, a: seq<Item>, b: seq<Item>)
    requires multiset(a) == multiset(b)
    ensures Eligible(p, a) <==> Eligible(p, b)
    ensures Applicable(p, a) == Applicable(p, b)
  {
    SumRealPermuted(a, b, (i: Item) => CountedAt(p, i));
    SumRealPermuted(a, b, (i: Item) => i.totalPrice);
    SumIntPermuted(a, b, (i: Item) => i.quantity);
    MatchInOther(p, a, b);
    MatchInOther(p, b, a);
  }

  lemma MatchInOther(p: Promotion, a: seq<Item>, b: seq<Item>)
    requires multiset(a) == multiset(b)
    ensures (exists i :: 0 <= i < |a| && Matches(p, a[i])) ==> exists i :: 0 <= i < |b| && Matches(p, b[i])
  {
    if i :| 0 <= i < |a| && Matches(p, a[i]) {
      assert a[i] in multiset(b);
      var j :| 0 <= j < |b| && b[j] == a[i];
      assert Matches(p, b[j]);
    }
  }

  // Neither does breaking one line into two that have its units and its price together,
  // as a split of an order does.
  lemma BrokenLine(p: Promotion, a: seq<Item>, b: seq<Item>, item: Item, x: Item, y: Item)
    requires x.product == y.product == item.product && x.category == y.category == item.category
    requires x.quantity + y.quantity == item.quantity && x.totalPrice + y.totalPrice == item.totalPrice
    ensures Eligible(p, a + [item] + b) <==> Eligible(p, a + [x, y] + b)
    ensures Applicable(p, a + [item] + b) == Applicable(p, a + [x, y] + b)
  {
    BasketSums(p, a, [item], b);
    BasketSums(p, a, [x] + [y], b);
    ApplicableConcat(p, [x], [y]);
    OneItem(p, item);
    OneItem(p, x);
    OneItem(p, y);
    assert [x] + [y] == [x, y];
    var one, two := a + [item] + b, a + [x, y] + b;
    if i :| 0 <= i < |one| && Matches(p, one[i]) {
      var j := if i <= |a| then i else i + 1;
      assert Matches(p, two[j]);
    }
    if j :| 0 <= j < |two| && Matches(p, two[j]) {
      var i := if j <= |a| then j else j - 1;
      assert Matches(p, one[i]);
    }
  }

  lemma OneItem(p: Promotion, item: Item)
    ensures Applicable(p, [item]) == CountedAt(p, item)
    ensures OrderAmount([item]) == item.totalPrice && OrderQuantity([item]) == item.quantity
  {
    SumRealOne(item, (i: Item) => CountedAt(p, i));
    SumRealOne(item, (i: Item) => i.totalPrice);
    SumIntOne(item, (i: Item) => i.quantity);
  }

  lemma BasketSums(p: Promotion, a: seq<Item>, m: seq<Item>, b: seq<Item>)
    ensures Applicable(p, a + m + b) == Applicable(p, a) + Applicable(p, m) + Applicable(p, b)
    ensures OrderAmount(a + m + b) == OrderAmount(a) + OrderAmount(m) + OrderAmount(b)
    ensures OrderQuantity(a + m + b) == OrderQuantity(a) + OrderQuantity(m) + OrderQuantity(b)
  {
    ApplicableConcat(p, a + m, b);
    ApplicableConcat(p, a, m);
  }

  // What a basket of one item has to meet; a condition of zero is none, and so is the
  // category zero.
  lemma OneItemEligibleIff(p: Promotion, item: Item)
    ensures Eligible(p, [item]) <==>
      && (p.conditionAmount == None || p.conditionAmount == Some(0.0) || item.totalPrice >= p.conditionAmount.value)
      && (p.conditionQuantity == None || p.conditionQuantity == Some(0) || item.quantity >= p.conditionQuantity.value)
      && ((p.products == {} && p.categories == {}) || item.product in p.products
          || (item.category.Some? && item.category.value != 0 && item.category.value in p.categories))
  {
    OneItem(p, item);
    assert [item][0] == item;
  }

  // A rate of one takes all that the promotion applies to, rates add up, and baskets add up.
  lemma RatesAddUp(p: Promotion, r: real, q: real, a: seq<Item>, b: seq<Item>)
    requires p.kind.PriceCut? && r != 0.0 && q != 0.0 && r + q != 0.0
    ensures var at := (x: real) => p.(rate := Some(x));
      && PromotionDiscount(at(1.0), a) == Applicable(p, a)
      && PromotionDiscount(at(r), a) + PromotionDiscount(at(q), a) == PromotionDiscount(at(r + q), a)
      && PromotionDiscount(at(r), a + b) == PromotionDiscount(at(r), a) + PromotionDiscount(at(r), b)
  {
    SameScope(p, p.(rate := Some(1.0)), a);
    SameScope(p, p.(rate := Some(r)), a);
    SameScope(p, p.(rate := Some(q)), a);
    SameScope(p, p.(rate := Some(r + q)), a);
    ApplicableConcat(p.(rate := Some(r)), a, b);
    ShareAdds(Applicable(p, a), r, q);
    SharesAdd(Applicable(p, a), Applicable(p.(rate := Some(r)), b), r);
  }

  lemma ShareAdds(amount: real, r: real, q: real)
    ensures Share(amount, 1.0) == amount
    ensures Share(amount, r) + Share(amount, q) == Share(amount, r + q)
  {
  }

  lemma SharesAdd(x: real, y: real, r: real)
    ensures Share(x + y, r) == Share(x, r) + Share(y, r)
  {
  }

  lemma {:induction false} SameScope(p: Promotion, q: Promotion, items: seq<Item>)
    requires p.products == q.products && p.categories == q.categories
    ensures Applicable(p, items) == Applicable(q, items)
  {
    if items != [] {
      SameScope(p, q, items[1..]);
      assert Applicable(p, items) == CountedAt(p, items[0]) + Applicable(p, items[1..]);
      assert Applicable(q, items) == CountedAt(q, items[0]) + Applicable(q, items[1..]);
    }
  }

  // Without a rate the fixed amount is taken whatever the basket; promotions of other kinds
  // take nothing.
  lemma WithoutRate(p: Promotion, items: seq<Item>)
    requires !p.kind.PriceCut? || p.rate == None || p.rate == Some(0.0)
    ensures PromotionDiscount(p, items) == if p.kind.PriceCut? && p.amount.Some? then p.amount.value else 0.0
  {
  }

  // ---------- whether the discount fits the basket ----------

  // Some item is in scope, or none has to be.
  ghost predicate CanMatch(p: Promotion) {
    !Scoped(p) || p.products != {} || exists c :: c in p.categories && c != 0
  }

  // The smallest amount that an eligible basket can have.
  function LeastBasket(p: Promotion): real {
    if p.conditionAmount.Some? && p.conditionAmount.value > 0.0 then p.conditionAmount.value else 0.0
  }

  ghost predicate FitsBasket(p: Promotion, items: seq<Item>) {
    0.0 <= PromotionDiscount(p, items) <= OrderAmount(items)
  }

  // One item, in scope and in the quantity asked for, makes an eligible basket.
  lemma EligibleBasket(p: Promotion, price: real) returns (items: seq<Item>)
    requires CanMatch(p) && price >= LeastBasket(p)
    ensures NonNegativeItems(items) && Eligible(p, items)
    ensures OrderAmount(items) == price && Applicable(p, items) == price
  {
    var product := if product :| product in p.products then product else 0;
    var category := if c :| c in p.categories && c != 0 then c else 0;
    var item := Item(product, Some(category), Max(0, p.conditionQuantity.GetOr(0)), price);
    OneItem(p, item);
    assert Scoped(p) ==> Matches(p, item);
    items := [item];
  }

  // A basket that is eligible has at least that amount, and one in scope exists.
  lemma EligibleAmount(p: Promotion, items: seq<Item>)
    requires NonNegativeItems(items) && Eligible(p, items)
    ensures CanMatch(p) && OrderAmount(items) >= LeastBasket(p)
  {
    SumRealNonNegative(items, (i: Item) => i.totalPrice);
    if Scoped(p) {
      var i :| 0 <= i < |items| && Matches(p, items[i]);
    }
  }

  lemma ShareFits(amount: real, rate: real)
    requires amount >= 0.0
    ensures 0.0 <= rate <= 1.0 ==> 0.0 <= Share(amount, rate) <= amount
    ensures amount > 0.0 && 0.0 <= Share(amount, rate) <= amount ==> 0.0 <= rate <= 1.0
  {
    if 0.0 <= rate <= 1.0 {
      NonNegativeProduct(amount, rate);
      TimesMonotone(rate, 1.0, amount);
      assert amount * rate == rate * amount;
    } else if amount > 0.0 && rate > 1.0 {
      NonNegativeProduct(amount, rate - 1.0);
      assert amount * rate == amount * (rate - 1.0) + amount;
    }
  }

  // The discount at a rate is that share of the applicable amount.
  lemma RateFits(p: Promotion, items: seq<Item>)
    requires NonNegativeItems(items) && p.kind.PriceCut? && p.rate.Some? && p.rate.value != 0.0
    ensures 0.0 <= p.rate.value <= 1.0 ==> FitsBasket(p, items)
    ensures Applicable(p, items) == OrderAmount(items) > 0.0 && FitsBasket(p, items) ==> 0.0 <= p.rate.value <= 1.0
  {
    ApplicableBounded(p, items);
    ShareFits(Applicable(p, items), p.rate.value);
  }

  // A price cut stays between nothing and the basket, for every eligible basket, if and only
  // if no basket is eligible, or its rate is between zero and one, or without a rate its fixed
  // amount is not negative and at most the smallest eligible basket. A rate of zero is none.
  lemma PromotionDiscountFitsIff(p: Promotion)
    requires p.kind.PriceCut?
    ensures (forall items :: NonNegativeItems(items) && Eligible(p, items) ==> FitsBasket(p, items)) <==>
            (!CanMatch(p) ||
             (if p.rate.Some? && p.rate.value != 0.0 then 0.0 <= p.rate.value <= 1.0
              else 0.0 <= p.amount.GetOr(0.0) <= LeastBasket(p)))
  {
    if p.rate.Some? && p.rate.value != 0.0 {
      forall items | NonNegativeItems(items) && 0.0 <= p.rate.value <= 1.0 ensures FitsBasket(p, items) {
        RateFits(p, items);
      }
      if CanMatch(p) {
        var items := EligibleBasket(p, LeastBasket(p) + 1.0);
        RateFits(p, items);
      }
    } else if CanMatch(p) {
      var items := EligibleBasket(p, LeastBasket(p));
      assert FitsBasket(p, items) <==> 0.0 <= p.amount.GetOr(0.0) <= LeastBasket(p);
    }
    forall items | NonNegativeItems(items) && Eligible(p, items)
      ensures CanMatch(p) && OrderAmount(items) >= LeastBasket(p)
    {
      EligibleAmount(p, items);
    }
  }

  // A price cut by 20 without conditions on a basket worth 10.
  lemma AmountAboveBasketExample()
    ensures var p := Promotion(PriceCut, None, None, None, Some(20.0), {}, {});
            var items := [Item(1, None, 1, 10.0)];
            Eligible(p, items) && OrderAmount(items) == 10.0 && PromotionDiscount(p, items) == 20.0
  {
    OneItem(Promotion(PriceCut, None, None, None, Some(20.0), {}, {}), Item(1, None, 1, 10.0));
  }
}
