// Payment transactions: refunds against what was paid.

module Payments {
  import opened Wrappers
  import opened Sums

  datatype RequestStatus = Waiting | Approved | Rejected | Completed

  datatype Request = Request(amount: real, status: RequestStatus)

  datatype PaymentStatus = Pending | Paid | Failed | Refunded | Voided

  // One transaction with its refund requests.
  datatype Payment = Payment(amount: real, refunded: real, status: PaymentStatus, requests: seq<Request>)

  function CompletedAmount(r: Request): real {
    if r.status == Completed then r.amount else 0.0
  }

  function CompletedSum(requests: seq<Request>): real {
    SumReal(requests, CompletedAmount)
  }

  // The books of a transaction are right.
  ghost predicate LedgerOk(p: Payment) {
    && p.amount > 0.0
    && (forall i :: 0 <= i < |p.requests| ==> p.requests[i].amount > 0.0)
    && p.refunded == CompletedSum(p.requests)
    && 0.0 <= p.refunded <= p.amount
    && (p.status == Refunded <==> p.refunded == p.amount)
  }

  function Booked(p: Payment, amount: real): Payment {
    p.(refunded := p.refunded + amount, status := if p.refunded + amount == p.amount then Refunded else p.status)
  }

  // `gateway` is whether the payment service accepts the refund. A requested amount that
  // is missing or the number zero is falsy (None).
  datatype RefundStep =
    | RefundNow(requested: Option<real>, gateway: bool)
    | Ask(amount: real)
    | Approve(index: nat, gateway: bool)
    | Reject(index: nat)
    | Callback

  predicate RefundRefused(p: Payment, requested: Option<real>) {
    requested.None? || requested.value > p.amount - p.refunded
  }

  function RefundApply(p: Payment, step: RefundStep): Payment {
    match step
    case RefundNow(requested, gateway) =>
      if RefundRefused(p, requested) || !gateway then p
      else Booked(p, requested.value).(requests := p.requests + [Request(requested.value, Completed)])
    case Ask(amount) =>
      if amount < 0.01 then p else p.(requests := p.requests + [Request(amount, Waiting)])
    case Approve(i, gateway) =>
      if i >= |p.requests| then p
      else if !gateway then p.(requests := p.requests[i := p.requests[i].(status := Approved)])
      else Booked(p, p.requests[i].amount).(requests := p.requests[i := p.requests[i].(status := Completed)])
    case Reject(i) =>
      if i >= |p.requests| then p else p.(requests := p.requests[i := p.requests[i].(status := Rejected)])
    case Callback => p.(status := Paid)
  }

  function RefundRun(p: Payment, steps: seq<RefundStep>): Payment
    decreases |steps|
  {
    if steps == [] then p else RefundRun(RefundApply(p, steps[0]), steps[1..])
  }

  // What a step needs and the code checks only in part: approving looks neither at the
  // balance nor at whether the request was completed before, rejecting forgets a
  // completed refund, a refund that is not positive passes the balance check, and a callback after a
  // full refund says "paid" again.
  predicate Proper(p: Payment, step: RefundStep) {
    match step
    case RefundNow(requested, gateway) => RefundRefused(p, requested) || !gateway || requested.value > 0.0
    case Ask(amount) => true
    case Approve(i, gateway) =>
      i < |p.requests| ==>
        p.requests[i].status != Completed && (gateway ==> p.requests[i].amount <= p.amount - p.refunded)
    case Reject(i) => i < |p.requests| ==> p.requests[i].status != Completed
    case Callback => p.refunded != p.amount
  }

  // Changing the status of request `i`.
  lemma ChangedSum(requests: seq<Request>, i: nat, status: RequestStatus)
    requires i < |requests|
    ensures CompletedSum(requests[i := requests[i].(status := status)])
         == CompletedSum(requests) - CompletedAmount(requests[i])
            + (if status == Completed then requests[i].amount else 0.0)
  {
    var r := requests[i].(status := status);
    SumRealReplace(requests, i, [r], CompletedAmount, CompletedAmount);
    SumRealOne(r, CompletedAmount);
    assert requests[i := r] == requests[..i] + [r] + requests[i + 1..];
  }

  lemma AppendedSum(requests: seq<Request>, r: Request)
    ensures CompletedSum(requests + [r]) == CompletedSum(requests) + CompletedAmount(r)
  {
    SumRealConcat(requests, [r], CompletedAmount);
    SumRealOne(r, CompletedAmount);
  }

  // A step keeps the books right if and only if it is proper.
  lemma LedgerKeptIffProper(p: Payment, step: RefundStep)
    requires LedgerOk(p)
    ensures LedgerOk(RefundApply(p, step)) <==> Proper(p, step)
  {
    match step
    case RefundNow(requested, gateway) => RefundNowKept(p, requested, gateway);
    case Ask(amount) => AppendedSum(p.requests, Request(amount, Waiting));
    case Approve(i, gateway) =>
      if i < |p.requests| {
        ApproveKept(p, i, gateway);
      }
    case Reject(i) =>
      if i < |p.requests| {
        ChangedSum(p.requests, i, Rejected);
      }
    case Callback =>
  }

  lemma RefundNowKept(p: Payment, requested: Option<real>, gateway: bool)
    requires LedgerOk(p)
    ensures LedgerOk(RefundApply(p, RefundNow(requested, gateway))) <==> Proper(p, RefundNow(requested, gateway))
  {
    if !RefundRefused(p, requested) && gateway {
      var after, amount := RefundApply(p, RefundNow(requested, gateway)), requested.value;
      AppendedSum(p.requests, Request(amount, Completed));
      if amount <= 0.0 {
        assert after.requests[|p.requests|].amount <= 0.0;
      }
    }
  }

  lemma ApproveKept(p: Payment, i: nat, gateway: bool)
    requires LedgerOk(p) && i < |p.requests|
    ensures LedgerOk(RefundApply(p, Approve(i, gateway))) <==> Proper(p, Approve(i, gateway))
  {
    ChangedSum(p.requests, i, if gateway then Completed else Approved);
    assert p.requests[i].amount > 0.0;
  }

  // Approving a completed request books it a second time, here beyond what was paid.
  lemma ApprovedTwice(p: Payment, i: nat)
    requires LedgerOk(p) && i < |p.requests| && p.requests[i].status == Completed && p.status == Refunded
    ensures RefundApply(p, Approve(i, true)).refunded > p.amount
    ensures RefundApply(p, Approve(i, true)).status == Refunded
  {
  }

  ghost predicate ProperRun(p: Payment, steps: seq<RefundStep>)
    decreases |steps|
  {
    steps != [] ==> Proper(p, steps[0]) && ProperRun(RefundApply(p, steps[0]), steps[1..])
  }

  // The books are right after every step of a run exactly when every step is proper.
  lemma {:induction false} LedgerKeptByRunIff(p: Payment, steps: seq<RefundStep>)
    requires LedgerOk(p)
    ensures (forall n :: 0 <= n <= |steps| ==> LedgerOk(RefundRun(p, steps[..n]))) <==> ProperRun(p, steps)
    decreases |steps|
  {
    if steps == [] {
      assert forall n :: 0 <= n <= |steps| ==> steps[..n] == [];
    } else {
      var next, rest := RefundApply(p, steps[0]), steps[1..];
      LedgerKeptIffProper(p, steps[0]);
      assert steps[..0] == [] && rest[..0] == [];
      forall n | 0 < n <= |steps| ensures RefundRun(p, steps[..n]) == RefundRun(next, rest[..n - 1]) {
        assert steps[..n][1..] == rest[..n - 1];
      }
      if LedgerOk(next) {
        LedgerKeptByRunIff(next, rest);
        if forall n :: 0 <= n <= |steps| ==> LedgerOk(RefundRun(p, steps[..n])) {
          forall n | 0 <= n <= |rest| ensures LedgerOk(RefundRun(next, rest[..n])) {
            assert LedgerOk(RefundRun(p, steps[..n + 1]));
          }
        }
      } else {
        assert !LedgerOk(RefundRun(p, steps[..1]));
      }
    }
  }

  function Amounts(requests: seq<Request>): seq<real> {
    if requests == [] then [] else [requests[0].amount] + Amounts(requests[1..])
  }

  // What the gateway pays out in a run, read off the steps: refunds within the balance, and
  // approved requests whatever the balance.
  function PaidOut(amount: real, refunded: real, asked: seq<real>, steps: seq<RefundStep>): real
    decreases |steps|
  {
    if steps == [] then 0.0
    else match steps[0]
      case RefundNow(Some(x), true) =>
        if x <= amount - refunded then x + PaidOut(amount, refunded + x, asked + [x], steps[1..])
        else PaidOut(amount, refunded, asked, steps[1..])
      case Ask(x) => PaidOut(amount, refunded, if x < 0.01 then asked else asked + [x], steps[1..])
      case Approve(i, true) =>
        if i < |asked| then asked[i] + PaidOut(amount, refunded + asked[i], asked, steps[1..])
        else PaidOut(amount, refunded, asked, steps[1..])
      case _ => PaidOut(amount, refunded, asked, steps[1..])
  }

  lemma {:induction false} AmountsOf(requests: seq<Request>)
    ensures |Amounts(requests)| == |requests|
    ensures forall i :: 0 <= i < |requests| ==> Amounts(requests)[i] == requests[i].amount
  {
    if requests != [] {
      AmountsOf(requests[1..]);
    }
  }

  // In every run exactly that is booked as refunded.
  lemma {:induction false} RefundsBooked(p: Payment, steps: seq<RefundStep>)
    ensures RefundRun(p, steps).amount == p.amount
    ensures RefundRun(p, steps).refunded
         == p.refunded + PaidOut(p.amount, p.refunded, Amounts(p.requests), steps)
    decreases |steps|
  {
    if steps != [] {
      var next := RefundApply(p, steps[0]);
      RefundsBooked(next, steps[1..]);
      AmountsOf(p.requests);
      AmountsOf(next.requests);
      if |next.requests| == |p.requests| {
        assert Amounts(next.requests) == Amounts(p.requests);
      } else {
        assert Amounts(next.requests) == Amounts(p.requests) + [next.requests[|p.requests|].amount];
      }
    }
  }

  function Attempts(i: nat, n: nat): seq<RefundStep>
    decreases n
  {
    if n == 0 then [] else [Approve(i, false)] + Attempts(i, n - 1)
  }

  lemma {:induction false} FailedAttempts(p: Payment, i: nat, n: nat)
    requires i < |p.requests|
    ensures var q := RefundRun(p, Attempts(i, n));
      && q == p.(requests := q.requests) && |q.requests| == |p.requests|
      && q.requests[i := p.requests[i].(status := Completed)] == p.requests[i := p.requests[i].(status := Completed)]
      && q.requests[i].amount == p.requests[i].amount
    decreases n
  {
    if n > 0 {
      assert Attempts(i, n)[1..] == Attempts(i, n - 1);
      FailedAttempts(RefundApply(p, Approve(i, false)), i, n - 1);
    }
  }

  // Gateway failures move no money, and a retry that succeeds after any number of them
  // ends where a first success would have.
  lemma RetryIsSafe(p: Payment, i: nat, n: nat)
    requires i < |p.requests|
    ensures RefundRun(p, Attempts(i, n)).refunded == p.refunded
    ensures RefundRun(p, Attempts(i, n)).status == p.status
    ensures RefundApply(RefundRun(p, Attempts(i, n)), Approve(i, true)) == RefundApply(p, Approve(i, true))
  {
    FailedAttempts(p, i, n);
    var q := RefundRun(p, Attempts(i, n));
    assert q.requests[i].(status := Completed) == p.requests[i].(status := Completed);
  }

  // ---------- the refund service ----------

  class Transaction {
    const amount: real
    var refunded: real
    var status: PaymentStatus
    var requests: seq<Request>

    ghost function State(): Payment
      reads this
    {
      Payment(amount, refunded, status, requests)
    }

    constructor (amount: real)
      ensures State() == Payment(amount, 0.0, Pending, [])
      ensures amount > 0.0 ==> LedgerOk(State())
    {
      this.amount := amount;
      refunded, status, requests := 0.0, Pending, [];
    }

    method BookRefund(value: real)
      modifies this
      ensures State() == Booked(old(State()), value)
    {
      refunded := refunded + value;
      if refunded == amount {
        status := Refunded;
      }
    }

    method Refund(requested: Option<real>, gateway: bool) returns (ok: bool)
      modifies this
      ensures ok <==> !RefundRefused(old(State()), requested) && gateway
      ensures State() == RefundApply(old(State()), RefundNow(requested, gateway))
    {
      if requested.None? {
        return false;
      }
      if requested.value > amount - refunded {
        return false;
      }
      if !gateway {
        return false;
      }
      BookRefund(requested.value);
      requests := requests + [Request(requested.value, Completed)];
      ok := true;
    }

    method ApproveRequest(i: nat, gateway: bool) returns (ok: bool)
      requires i < |requests|
      modifies this
      ensures ok == gateway
      ensures State() == RefundApply(old(State()), Approve(i, gateway))
    {
      requests := requests[i := requests[i].(status := Approved)];
      if !gateway {
        return false;
      }
      requests := requests[i := requests[i].(status := Completed)];
      BookRefund(requests[i].amount);
      assert requests == old(requests)[i := old(requests)[i].(status := Completed)];
      ok := true;
    }

    method RejectRequest(i: nat)
      requires i < |requests|
      modifies this
      ensures State() == RefundApply(old(State()), Reject(i))
    {
      requests := requests[i := requests[i].(status := Rejected)];
    }
  }
}
