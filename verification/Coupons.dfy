// Coupons: claiming under concurrency, and the discount they give.

module Coupons {
  import opened Wrappers

  datatype CouponType = FixedAmount | Percentage | Shipping | OtherType

  datatype Scope = AllItems | Categories | Products

  datatype Coupon = Coupon(kind: CouponType, value: real, maxDiscount: Option<real>, minOrder: real,
                           scope: Scope, ids: seq<int>,
                           total: int, used: int, limitPerUser: int,
                           active: bool, validFrom: int, validUntil: int)

  predicate Available(c: Coupon, now: int) {
    c.active && c.used < c.total && c.validFrom <= now <= c.validUntil
  }

  // ---------- claiming, in two steps ----------

  // A request that has passed its checks: the coupon row it read is written back, plus
  // one, when it commits.
  datatype Pending = Pending(user: int, used: int)

  // `holders` are the users of the issued coupons, one entry per row.
  datatype Claims = Claims(coupon: Coupon, holders: seq<int>, pending: map<int, Pending>)

  datatype ClaimStep = Read(request: int, user: int, now: int) | Commit(request: int)

  function HeldBy(holders: seq<int>, user: int): nat {
    if holders == [] then 0 else (if holders[0] == user then 1 else 0) + HeldBy(holders[1..], user)
  }

  predicate MayClaim(s: Claims, user: int, now: int) {
    Available(s.coupon, now) && HeldBy(s.holders, user) < s.coupon.limitPerUser
  }

  // The pair (user, coupon) is unique in the table of issued coupons.
  predicate Commits(s: Claims, step: ClaimStep) {
    step.Commit? && step.request in s.pending && s.pending[step.request].user !in s.holders
  }

  function ClaimApply(s: Claims, step: ClaimStep): Claims {
    match step
    case Read(r, user, now) =>
      if r !in s.pending && MayClaim(s, user, now)
      then s.(pending := s.pending[r := Pending(user, s.coupon.used)]) else s
    case Commit(r) =>
      if r !in s.pending then s
      else if !Commits(s, step) then s.(pending := s.pending - {r})
      else s.(holders := s.holders + [s.pending[r].user],
              coupon := s.coupon.(used := s.pending[r].used + 1),
              pending := s.pending - {r})
  }

  function ClaimRun(s: Claims, steps: seq<ClaimStep>): Claims
    decreases |steps|
  {
    if steps == [] then s else ClaimRun(ClaimApply(s, steps[0]), steps[1..])
  }

  // What survives every interleaving, with what it takes about the stale reads.
  ghost predicate ClaimsOk(s: Claims) {
    && s.coupon.used <= s.coupon.total
    && s.coupon.used <= |s.holders|
    && (forall i, j :: 0 <= i < j < |s.holders| ==> s.holders[i] != s.holders[j])
    && (forall r :: r in s.pending ==> s.pending[r].used < s.coupon.total && s.pending[r].used <= |s.holders|)
  }

  // However reads and commits interleave, the counter stays within the number issued and
  // the quantity on offer, and nobody holds the coupon twice, whatever the limit per user.
  lemma {:induction false} ClaimsSafe(s: Claims, steps: seq<ClaimStep>)
    requires ClaimsOk(s)
    ensures ClaimsOk(ClaimRun(s, steps))
    ensures ClaimRun(s, steps).coupon.total == s.coupon.total
    decreases |steps|
  {
    if steps != [] {
      ClaimsSafe(ClaimApply(s, steps[0]), steps[1..]);
    }
  }

  // How many more coupons are issued than counted.
  function Gap(s: Claims): int {
    |s.holders| - s.coupon.used
  }

  // The state before step `i`.
  function At(s: Claims, steps: seq<ClaimStep>, i: nat): Claims
    requires i <= |steps|
  {
    ClaimRun(s, steps[..i])
  }

  // Step `k` issues a coupon.
  predicate Issues(s: Claims, steps: seq<ClaimStep>, k: nat) {
    k < |steps| && Commits(At(s, steps, k), steps[k])
  }

  // Step `i` is the read with which request `r` is under way before step `j`.
  ghost predicate Opens(s: Claims, steps: seq<ClaimStep>, i: nat, j: nat, r: int) {
    && i < j <= |steps|
    && steps[i].Read? && steps[i].request == r
    && r !in At(s, steps, i).pending && MayClaim(At(s, steps, i), steps[i].user, steps[i].now)
    && (forall m :: i < m < j ==> steps[m] != Commit(r))
  }

  // A coupon is issued by step `k` while the request that issues one by step `j` is between
  // its read, step `i`, and its commit.
  ghost predicate Overlap(s: Claims, steps: seq<ClaimStep>, i: nat, k: nat, j: nat) {
    i < k < j && Issues(s, steps, k) && Issues(s, steps, j) && Opens(s, steps, i, j, steps[j].request)
  }

  lemma {:induction false} ClaimRunConcat(s: Claims, a: seq<ClaimStep>, b: seq<ClaimStep>)
    ensures ClaimRun(s, a + b) == ClaimRun(ClaimRun(s, a), b)
    decreases |a|
  {
    if a == [] {
      assert a + b == b;
    } else {
      assert (a + b)[1..] == a[1..] + b;
      ClaimRunConcat(ClaimApply(s, a[0]), a[1..], b);
    }
  }

  lemma AtNext(s: Claims, steps: seq<ClaimStep>, i: nat)
    requires i < |steps|
    ensures At(s, steps, i + 1) == ClaimApply(At(s, steps, i), steps[i])
  {
    assert steps[..i + 1] == steps[..i] + [steps[i]];
    ClaimRunConcat(s, steps[..i], [steps[i]]);
    assert [steps[i]][1..] == [];
  }

  // A request keeps what it read until its commit.
  lemma {:induction false} PendingKept(s: Claims, steps: seq<ClaimStep>, i: nat, j: nat, r: int)
    requires i <= j <= |steps| && r in At(s, steps, i).pending
    requires forall m :: i <= m < j ==> steps[m] != Commit(r)
    ensures r in At(s, steps, j).pending && At(s, steps, j).pending[r] == At(s, steps, i).pending[r]
    decreases j - i
  {
    if i < j {
      AtNext(s, steps, i);
      assert steps[i] != Commit(r);
      PendingKept(s, steps, i + 1, j, r);
    }
  }

  lemma ReadRemembered(s: Claims, steps: seq<ClaimStep>, i: nat, j: nat, r: int)
    requires Opens(s, steps, i, j, r)
    ensures r in At(s, steps, j).pending && At(s, steps, j).pending[r].used == At(s, steps, i).coupon.used
  {
    AtNext(s, steps, i);
    PendingKept(s, steps, i + 1, j, r);
  }

  // A request under way has a read that opened it.
  lemma {:induction false} ReadOf(s: Claims, steps: seq<ClaimStep>, j: nat, r: int) returns (i: nat)
    requires s.pending == map[] && j <= |steps| && r in At(s, steps, j).pending
    ensures Opens(s, steps, i, j, r)
    decreases j
  {
    if j == 0 {
      assert false;
    } else {
      AtNext(s, steps, j - 1);
      if r in At(s, steps, j - 1).pending {
        i := ReadOf(s, steps, j - 1, r);
      } else {
        i := j - 1;
      }
    }
  }

  // Only issuing moves the counter or the holders, and it adds one holder.
  lemma {:induction false} Between(s: Claims, steps: seq<ClaimStep>, i: nat, j: nat)
    requires i <= j <= |steps|
    ensures |At(s, steps, i).holders| <= |At(s, steps, j).holders|
    ensures (exists k :: i <= k < j && Issues(s, steps, k)) ==>
              |At(s, steps, i).holders| < |At(s, steps, j).holders|
    ensures (forall k :: i <= k < j ==> !Issues(s, steps, k)) ==>
              At(s, steps, i).coupon == At(s, steps, j).coupon
    decreases j - i
  {
    if i < j {
      AtNext(s, steps, i);
      Between(s, steps, i + 1, j);
      assert Issues(s, steps, i) <==> Commits(At(s, steps, i), steps[i]);
    }
  }

  // Issued less counted changes at a step exactly by what was counted since its read.
  lemma GapStep(s: Claims, steps: seq<ClaimStep>, j: nat)
    requires j < |steps|
    ensures var t := At(s, steps, j);
            Gap(At(s, steps, j + 1)) ==
              Gap(t) + (if Issues(s, steps, j) then t.coupon.used - t.pending[steps[j].request].used else 0)
  {
    AtNext(s, steps, j);
  }

  lemma {:induction false} NoOverlapKeepsGap(s: Claims, steps: seq<ClaimStep>, n: nat)
    requires s.pending == map[] && n <= |steps|
    requires forall i: nat, k: nat, j: nat :: !Overlap(s, steps, i, k, j)
    ensures Gap(At(s, steps, n)) == Gap(s)
    decreases n
  {
    if n == 0 {
      assert steps[..0] == [];
    } else {
      var j := n - 1;
      NoOverlapKeepsGap(s, steps, j);
      GapStep(s, steps, j);
      if Issues(s, steps, j) {
        var i := ReadOf(s, steps, j, steps[j].request);
        ReadRemembered(s, steps, i, j, steps[j].request);
        AtNext(s, steps, i);
        forall k | i <= k < j ensures !Issues(s, steps, k) {
          assert !Overlap(s, steps, i, k, j);
        }
        Between(s, steps, i, j);
      }
    }
  }

  // Issued less counted stays the same all along if and only if no coupon is issued between
  // the read and the commit of another claim that succeeds.
  lemma CountRightIffNoOverlap(s: Claims, steps: seq<ClaimStep>)
    requires s.pending == map[]
    ensures (forall n: nat :: n <= |steps| ==> Gap(At(s, steps, n)) == Gap(s))
            <==> forall i: nat, k: nat, j: nat :: !Overlap(s, steps, i, k, j)
  {
    if forall i: nat, k: nat, j: nat :: !Overlap(s, steps, i, k, j) {
      forall n: nat | n <= |steps| ensures Gap(At(s, steps, n)) == Gap(s) {
        NoOverlapKeepsGap(s, steps, n);
      }
    } else {
      var i: nat, k: nat, j: nat :| Overlap(s, steps, i, k, j);
      var r := steps[j].request;
      ReadRemembered(s, steps, i, j, r);
      Between(s, steps, i, j);
      assert |At(s, steps, i).holders| < |At(s, steps, j).holders|;
      GapStep(s, steps, j);
      assert Gap(At(s, steps, i)) == Gap(s) && Gap(At(s, steps, j)) == Gap(s) ==> Gap(At(s, steps, j + 1)) > Gap(s);
    }
  }

  // Without overlap the number issued is the counter, so it stays within the quantity.
  lemma NoOverlapNoOverIssue(s: Claims, steps: seq<ClaimStep>)
    requires ClaimsOk(s) && s.pending == map[] && |s.holders| == s.coupon.used
    requires forall i: nat, k: nat, j: nat :: !Overlap(s, steps, i, k, j)
    ensures var t := ClaimRun(s, steps); |t.holders| == t.coupon.used <= t.coupon.total
  {
    NoOverlapKeepsGap(s, steps, |steps|);
    assert steps[..|steps|] == steps;
    ClaimsSafe(s, steps);
  }

  lemma {:induction false} SameTerms(s: Claims, steps: seq<ClaimStep>)
    ensures var c := ClaimRun(s, steps).coupon; c == s.coupon.(used := c.used)
    decreases |steps|
  {
    if steps != [] {
      SameTerms(ClaimApply(s, steps[0]), steps[1..]);
    }
  }

  // Every coupon is issued to the user of a request that read it while it was active, in its
  // period, not used up as far as counted, and not held up to the limit.
  lemma IssuedWithinTerms(s: Claims, steps: seq<ClaimStep>, j: nat)
    requires s.pending == map[] && Issues(s, steps, j)
    ensures exists i: nat ::
      && i < j && steps[i].Read? && steps[i].request == steps[j].request
      && At(s, steps, j + 1).holders == At(s, steps, j).holders + [steps[i].user]
      && s.coupon.active && s.coupon.validFrom <= steps[i].now <= s.coupon.validUntil
      && At(s, steps, i).coupon.used < s.coupon.total
      && HeldBy(At(s, steps, i).holders, steps[i].user) < s.coupon.limitPerUser
  {
    var r := steps[j].request;
    var i := ReadOf(s, steps, j, r);
    ReadRemembered(s, steps, i, j, r);
    AtNext(s, steps, i);
    PendingKept(s, steps, i + 1, j, r);
    AtNext(s, steps, j);
    SameTerms(s, steps[..i]);
  }

  // ---------- overlapping claims can issue any number of a single coupon ----------

  function ReadsFrom(user: int, n: nat): seq<ClaimStep>
    decreases n
  {
    if n == 0 then [] else [Read(user, user, 0)] + ReadsFrom(user + 1, n - 1)
  }

  function CommitsFrom(user: int, n: nat): seq<ClaimStep>
    decreases n
  {
    if n == 0 then [] else [Commit(user)] + CommitsFrom(user + 1, n - 1)
  }

  function Waiting(user: int, n: nat): map<int, Pending> {
    map u | user <= u < user + n :: Pending(u, 0)
  }

  lemma {:induction false} AllRead(c: Coupon, done: nat, n: nat)
    requires Available(c, 0) && c.used == 0 && c.limitPerUser >= 1
    ensures ClaimRun(Claims(c, [], Waiting(0, done)), ReadsFrom(done, n)) == Claims(c, [], Waiting(0, done + n))
    decreases n
  {
    if n > 0 {
      var s := Claims(c, [], Waiting(0, done));
      assert ClaimApply(s, Read(done, done, 0)) == Claims(c, [], Waiting(0, done + 1));
      AllRead(c, done + 1, n - 1);
      var steps := ReadsFrom(done, n);
      assert steps[1..] == ReadsFrom(done + 1, n - 1);
    } else {
      assert Waiting(0, done + n) == Waiting(0, done);
    }
  }

  lemma {:induction false} AllCommit(c: Coupon, holders: seq<int>, user: int, n: nat)
    requires forall i :: 0 <= i < |holders| ==> holders[i] < user
    ensures var t := ClaimRun(Claims(c, holders, Waiting(user, n)), CommitsFrom(user, n));
            |t.holders| == |holders| + n && (n > 0 ==> t.coupon == c.(used := 1))
    decreases n
  {
    if n > 0 {
      var s := Claims(c, holders, Waiting(user, n));
      assert ClaimApply(s, Commit(user)).pending == Waiting(user + 1, n - 1);
      var steps := CommitsFrom(user, n);
      assert steps[1..] == CommitsFrom(user + 1, n - 1);
      AllCommit(c.(used := 1), holders + [user], user + 1, n - 1);
    }
  }

  // Any number of users who all read before the first of them commits all get the
  // coupon, and the counter ends at one.
  lemma OverIssue(c: Coupon, n: nat)
    requires Available(c, 0) && c.used == 0 && c.limitPerUser >= 1 && n >= 1
    ensures var t := ClaimRun(Claims(c, [], map[]), ReadsFrom(0, n) + CommitsFrom(0, n));
            |t.holders| == n && t.coupon.used == 1
  {
    var s := Claims(c, [], map[]);
    assert Waiting(0, 0) == map[];
    ClaimRunConcat(s, ReadsFrom(0, n), CommitsFrom(0, n));
    AllRead(c, 0, n);
    AllCommit(c, [], 0, n);
  }

  // ---------- the claim service ----------

  class ClaimDesk {
    var coupon: Coupon
    var holders: seq<int>
    var pending: map<int, Pending>

    ghost function State(): Claims
      reads this
    {
      Claims(coupon, holders, pending)
    }

    constructor (c: Coupon)
      ensures State() == Claims(c, [], map[])
    {
      coupon, holders, pending := c, [], map[];
    }

    method BeginClaim(request: int, user: int, now: int) returns (ok: bool)
      requires request !in pending
      modifies this
      ensures ok == MayClaim(old(State()), user, now)
      ensures State() == ClaimApply(old(State()), Read(request, user, now))
    {
      ok := false;
      if Available(coupon, now) {
        var count := 0;
        for i := 0 to |holders|
          invariant count + HeldBy(holders[i..], user) == HeldBy(holders, user)
        {
          assert holders[i..][1..] == holders[i + 1..];
          if holders[i] == user {
            count := count + 1;
          }
        }
        if count < coupon.limitPerUser {
          pending := pending[request := Pending(user, coupon.used)];
          ok := true;
        }
      }
    }

    method CommitClaim(request: int) returns (ok: bool)
      requires request in pending
      modifies this
      ensures ok == Commits(old(State()), Commit(request))
      ensures State() == ClaimApply(old(State()), Commit(request))
    {
      var read := pending[request];
      pending := pending - {request};
      if read.user in holders {
        return false;
      }
      holders := holders + [read.user];
      coupon := coupon.(used := read.used + 1);
      ok := true;
    }

    // A claim that nothing interrupts issues one coupon and counts one.
    method ClaimCoupon(request: int, user: int, now: int) returns (ok: bool)
      requires request !in pending
      modifies this
      ensures ok <==> old(coupon.active) && old(coupon.used) < old(coupon.total)
                      && old(coupon.validFrom) <= now <= old(coupon.validUntil)
                      && old(coupon.limitPerUser) >= 1 && user !in old(holders)
      ensures holders == if ok then old(holders) + [user] else old(holders)
      ensures coupon == if ok then old(coupon).(used := old(coupon.used) + 1) else old(coupon)
      ensures pending == old(pending)
    {
      HeldIffIn(holders, user);
      ok := BeginClaim(request, user, now);
      if ok {
        ok := CommitClaim(request);
      }
    }
  }

  lemma {:induction false} HeldIffIn(holders: seq<int>, user: int)
    ensures HeldBy(holders, user) > 0 <==> user in holders
  {
    if holders != [] {
      HeldIffIn(holders[1..], user);
      assert holders == [holders[0]] + holders[1..];
    }
  }

  // ---------- the discount ----------

  datatype Item = Item(product: int, category: Option<int>, quantity: int, totalPrice: real)

  predicate Covers(c: Coupon, item: Item) {
    match c.scope
    case AllItems => true
    case Categories => item.category.Some? && item.category.value in c.ids
    case Products => item.product in c.ids
  }

  predicate InScope(c: Coupon, items: seq<Item>) {
    c.scope == AllItems || exists i :: 0 <= i < |items| && Covers(c, items[i])
  }

  method CheckApplyScope(c: Coupon, items: seq<Item>) returns (r: bool)
    ensures r == InScope(c, items)
    ensures c.scope == AllItems ==> r
    ensures c.scope == Categories ==>
              (r <==> exists i :: 0 <= i < |items| && items[i].category.Some? && items[i].category.value in c.ids)
    ensures c.scope == Products ==> (r <==> exists i :: 0 <= i < |items| && items[i].product in c.ids)
  {
    if c.scope == AllItems {
      return true;
    }
    for i := 0 to |items|
      invariant forall j :: 0 <= j < i ==> !Covers(c, items[j])
    {
      if c.scope == Categories {
        if items[i].category.Some? && items[i].category.value in c.ids {
          assert Covers(c, items[i]);
          return true;
        }
      } else if items[i].product in c.ids {
        assert Covers(c, items[i]);
        return true;
      }
    }
    r := false;
  }

  function Min(a: real, b: real): real {
    if b < a then b else a
  }

  // A cap of zero is no cap: it is falsy.
  function Capped(c: Coupon, discount: real): real {
    if c.maxDiscount.Some? && c.maxDiscount.value != 0.0 && discount > c.maxDiscount.value
    then c.maxDiscount.value else discount
  }

  function PercentOf(amount: real, value: real): real {
    amount * value / 100.0
  }

  function RawDiscount(c: Coupon, amount: real): real {
    match c.kind
    case FixedAmount => c.value
    case Percentage => Capped(c, PercentOf(amount, c.value))
    case Shipping => 0.0
    case OtherType => 0.0
  }

  function DiscountOf(c: Coupon, now: int, amount: real, items: seq<Item>): real {
    if !Available(c, now) || amount < c.minOrder || !InScope(c, items) then 0.0
    else Min(RawDiscount(c, amount), amount)
  }

  // What is left to pay.
  function Payable(c: Coupon, now: int, amount: real, items: seq<Item>): real {
    amount - DiscountOf(c, now, amount, items)
  }

  // What the column validators ensure; the cap has none.
  predicate WellPriced(c: Coupon) {
    c.value >= 0.0 && c.minOrder >= 0.0
  }

  // Such a cap is truthy and below every percentage: the discount is then a surcharge.
  predicate NegativeCap(c: Coupon) {
    c.kind == Percentage && c.maxDiscount.Some? && c.maxDiscount.value < 0.0
  }

  predicate Applies(c: Coupon, now: int, items: seq<Item>) {
    Available(c, now) && InScope(c, items)
  }

  lemma NonNegativeProduct(x: real, y: real)
    requires x >= 0.0 && y >= 0.0
    ensures x * y >= 0.0
  {
  }

  lemma TimesMonotone(a: real, b: real, v: real)
    requires a <= b && v >= 0.0
    ensures a * v <= b * v
  {
  }

  // `y - x` against `b - a` on a scale of one hundred.
  ghost predicate GrowsModestly(x: real, y: real, a: real, b: real) {
    0.0 <= x <= y && (y - x <= b - a || (x >= a && y >= b))
  }

  // A percentage grows with the amount, and either by less than the amount does or it
  // exceeds the amount anyway.
  lemma PercentageGrowth(a: real, b: real, v: real)
    requires 0.0 <= a <= b && v >= 0.0
    ensures GrowsModestly(PercentOf(a, v), PercentOf(b, v), a, b)
  {
  }

  lemma CapGrowth(c: Coupon, p: real, q: real)
    requires c.kind == Percentage && 0.0 <= p <= q
    ensures if NegativeCap(c) then Capped(c, p) == Capped(c, q) == c.maxDiscount.value
            else 0.0 <= Capped(c, p) <= Capped(c, q)
  {
  }

  // What is left after a discount that grows no faster than the amount, or that exceeds it.
  lemma CappedLeft(c: Coupon, p: real, q: real, a: real, b: real)
    requires c.kind == Percentage && 0.0 <= a <= b && GrowsModestly(p, q, a, b)
    ensures a - Min(Capped(c, p), a) <= b - Min(Capped(c, q), b)
  {
  }

  // The raw discount grows with the amount, and never faster than what is left to pay.
  lemma RawGrowth(c: Coupon, a: real, b: real)
    requires WellPriced(c) && 0.0 <= a <= b
    ensures if NegativeCap(c) then RawDiscount(c, a) == RawDiscount(c, b) == c.maxDiscount.value
            else 0.0 <= RawDiscount(c, a) <= RawDiscount(c, b)
    ensures a - Min(RawDiscount(c, a), a) <= b - Min(RawDiscount(c, b), b)
  {
    if c.kind == Percentage {
      var p, q := PercentOf(a, c.value), PercentOf(b, c.value);
      PercentageGrowth(a, b, c.value);
      CapGrowth(c, p, q);
      CappedLeft(c, p, q, a, b);
    }
  }

  // A discount is never more than the amount. It is never negative, at any amount, unless the
  // coupon applies with a negative cap, and never shrinks as the amount grows unless such a
  // coupon has a minimum.
  lemma DiscountBounds(c: Coupon, now: int, items: seq<Item>)
    requires WellPriced(c)
    ensures forall a: real :: a >= 0.0 ==> DiscountOf(c, now, a, items) <= a
    ensures (forall a: real :: a >= 0.0 ==> DiscountOf(c, now, a, items) >= 0.0)
            <==> !Applies(c, now, items) || !NegativeCap(c)
    ensures (forall a: real, b: real :: 0.0 <= a <= b ==> DiscountOf(c, now, a, items) <= DiscountOf(c, now, b, items))
            <==> !Applies(c, now, items) || !NegativeCap(c) || c.minOrder == 0.0
  {
    forall a: real, b: real | 0.0 <= a <= b
      ensures if Applies(c, now, items) && NegativeCap(c) && a >= c.minOrder
              then DiscountOf(c, now, a, items) == DiscountOf(c, now, b, items) == c.maxDiscount.value
              else DiscountOf(c, now, a, items) >= 0.0
      ensures !Applies(c, now, items) || !NegativeCap(c) ==>
                DiscountOf(c, now, a, items) <= DiscountOf(c, now, b, items)
    {
      RawGrowth(c, a, b);
    }
    if Applies(c, now, items) && NegativeCap(c) {
      assert DiscountOf(c, now, c.minOrder, items) < 0.0;
      assert c.minOrder > 0.0 ==> DiscountOf(c, now, 0.0, items) == 0.0;
    }
  }

  // Where the coupon applies from its minimum on, a percentage coupon gives the least of that
  // percentage, the amount and its cap (a cap of zero is none), a fixed one the least of its
  // value and the amount, and any other one nothing.
  lemma DiscountIsLeast(c: Coupon, now: int, amount: real, items: seq<Item>)
    requires amount >= 0.0
    ensures var d := DiscountOf(c, now, amount, items);
            var given := c.active && c.used < c.total && c.validFrom <= now <= c.validUntil
                         && InScope(c, items) && amount >= c.minOrder;
            var cap := if c.maxDiscount == Some(0.0) then None else c.maxDiscount;
            if !given || c.kind == Shipping || c.kind == OtherType then d == 0.0
            else if c.kind == FixedAmount then d <= c.value && d <= amount && (d == c.value || d == amount)
            else
              && 100.0 * d <= amount * c.value && d <= amount && (cap.Some? ==> d <= cap.value)
              && (100.0 * d == amount * c.value || d == amount || Some(d) == cap)
  {
    assert 100.0 * PercentOf(amount, c.value) == amount * c.value;
  }

  // Above the minimum, a larger order never costs less.
  lemma PayableMonotone(c: Coupon, now: int, a: real, b: real, items: seq<Item>)
    requires WellPriced(c) && c.minOrder <= a <= b
    ensures Payable(c, now, a, items) <= Payable(c, now, b, items)
  {
    RawGrowth(c, a, b);
  }

  // By its columns the coupon takes nothing off at its minimum.
  predicate NothingAtMinimum(c: Coupon) {
    c.minOrder == 0.0 || c.value == 0.0 || c.kind == Shipping || c.kind == OtherType || NegativeCap(c)
  }

  lemma DiscountAtMinimum(c: Coupon, now: int, items: seq<Item>)
    requires WellPriced(c)
    ensures DiscountOf(c, now, c.minOrder, items) > 0.0 <==> Applies(c, now, items) && !NothingAtMinimum(c)
  {
    if c.kind == Percentage && c.value > 0.0 && c.minOrder > 0.0 {
      assert c.minOrder * c.value > 0.0;
      assert PercentOf(c.minOrder, c.value) > 0.0;
    } else if c.kind == Percentage {
      assert PercentOf(c.minOrder, c.value) == 0.0;
    }
  }

  // Over all amounts a larger order never costs less exactly when the coupon does not apply
  // or gives nothing at its minimum: otherwise reaching the minimum is cheaper than staying
  // just below it.
  lemma PayableMonotoneIff(c: Coupon, now: int, items: seq<Item>)
    requires WellPriced(c)
    ensures (forall a: real, b: real :: 0.0 <= a <= b ==> Payable(c, now, a, items) <= Payable(c, now, b, items))
            <==> !Applies(c, now, items) || NothingAtMinimum(c)
  {
    var d := DiscountOf(c, now, c.minOrder, items);
    DiscountAtMinimum(c, now, items);
    DiscountBounds(c, now, items);
    if d <= 0.0 {
      forall a: real, b: real | 0.0 <= a <= b ensures Payable(c, now, a, items) <= Payable(c, now, b, items) {
        if a >= c.minOrder {
          PayableMonotone(c, now, a, b, items);
        } else if b >= c.minOrder {
          PayableMonotone(c, now, c.minOrder, b, items);
        }
      }
    } else {
      var a := c.minOrder - d / 2.0;
      assert 0.0 <= a < c.minOrder && DiscountOf(c, now, a, items) == 0.0;
      assert Payable(c, now, a, items) > Payable(c, now, c.minOrder, items);
    }
  }

  // 50 off from 100 on: an order for 99 costs 99, one for 100 costs 50.
  lemma LargerOrderIsCheaper(c: Coupon, now: int, items: seq<Item>)
    requires c.kind == FixedAmount && c.value == 50.0 && c.minOrder == 100.0 && Applies(c, now, items)
    ensures Payable(c, now, 99.0, items) == 99.0 && Payable(c, now, 100.0, items) == 50.0
  {
  }

  // Ten percent off, with a cap of -5: an order for 100 costs 105.
  lemma NegativeCapExample()
    ensures var c := Coupon(Percentage, 10.0, Some(-5.0), 0.0, AllItems, [], 1, 0, 1, true, 0, 0);
            DiscountOf(c, 0, 100.0, []) == -5.0 && Payable(c, 0, 100.0, []) == 105.0
  {
  }
}
