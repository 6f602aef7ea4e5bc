/** Incoming payments: each deposit is credited at most once, however often it is reported. */
module Deposits {
  import opened Common
  import opened Money
  import opened Sums
  import opened Tables
  import opened Services
  import opened Books
  import opened Safety

  // ----------------------------------------------------------- exactly once

  /** The ledger entries written in the name of deposit i. */
  function Mentions(i: nat): Entry -> int
  {
    (e: Entry) => if e.source == FromDeposit(i) then 1 else 0
  }

  /** What such an entry hands to a user, spendable or locked. */
  function Worth(i: nat): Entry -> int
  {
    (e: Entry) => if e.source == FromDeposit(i) then e.amountDelta + e.lockedDelta else 0
  }

  predicate PaidRow(w: World, i: nat)
  {
    i < |w.deposits| && w.deposits[i].status.Paid?
  }

  /** An unpaid deposit has credited nothing; a paid one has credited once, and exactly its amount. */
  ghost predicate CreditedOnce(w: World, i: nat)
  {
    && 0 <= Sum(w.ledger, Mentions(i)) <= 1
    && (!PaidRow(w, i) ==> Sum(w.ledger, Mentions(i)) == 0 && Sum(w.ledger, Worth(i)) == 0)
    && (PaidRow(w, i) && !w.deposits[i].purpose.DealTopup? ==> Sum(w.ledger, Worth(i)) == w.deposits[i].amount)
  }

  /** What an effect adds to a sum over the ledger. */
  function Added(w: World, e: Effect, f: Entry -> int): int
  {
    EntryChange(w.balances, e.first, f) + EntryChange(PostBalance(w.balances, e.first), e.second, f)
    + TrustChange(w.users, e.trust, f)
  }

  function TrustChange(users: map<nat, User>, t: TrustCredit, f: Entry -> int): int
  {
    var l := TrustLedger(users, [], t);
    if l == [] then 0 else f(l[0])
  }

  lemma PaymentsExact(w: World, e: Event, plan: Plan)
    requires OnDeposit(e) && plan == PlanOf(w, e) && plan.Ok? && plan.value.deposit.Put?
    ensures Pays(plan, plan.value.deposit.at)
  {
  }

  lemma QuietAdds(w: World, i: nat, plan: Plan)
    requires PaysNothing(w, plan) && plan.Ok?
    ensures Added(w, plan.value, Mentions(i)) == 0 && Added(w, plan.value, Worth(i)) == 0
  {
  }

  /** A payment adds entries only in the name of the deposit it marks paid, and at most one. */
  lemma PaymentAdds(w: World, i: nat, plan: Plan)
    requires PaysOnce(w, plan) && Ordinary(plan) && plan.Ok? && DepositsOk(w)
    requires plan.value.deposit.Put? ==> Pays(plan, plan.value.deposit.at)
    ensures var e := plan.value;
            if e.deposit.Put? && e.deposit.at == i && e.deposit.row.status.Paid? then
              && 0 <= Added(w, e, Mentions(i)) <= 1
              && (!e.deposit.row.purpose.DealTopup? ==> Added(w, e, Worth(i)) == e.deposit.row.amount)
            else Added(w, e, Mentions(i)) == 0 && Added(w, e, Worth(i)) == 0
  {
    var e := plan.value;
    if e.deposit.Put? {
      assert DepositOk(w, w.deposits[e.deposit.at]);
    }
  }

  /** The row of deposit i after an effect. */
  lemma RowAfter(w: World, e: Effect, i: nat, after: World)
    requires after == Apply(w, e)
    requires e.deposit.Put? ==> e.deposit.at < |w.deposits|
    requires e.invoice.Put? ==> e.invoice.row.status.Pending? && e.invoice.at == |w.deposits|
    ensures if e.deposit.Put? && e.deposit.at == i then i < |after.deposits| && after.deposits[i] == e.deposit.row
            else if i < |w.deposits| then i < |after.deposits| && after.deposits[i] == w.deposits[i]
            else !PaidRow(after, i)
  {
  }

  lemma LedgerAfter(w: World, e: Effect, f: Entry -> int, after: World)
    requires after == Apply(w, e)
    ensures Sum(after.ledger, f) == Sum(w.ledger, f) + Added(w, e, f)
  {
    ApplyLedgerSum(w, e, f);
  }

  lemma QuietCreditsOnce(w: World, i: nat, plan: Plan, after: World)
    requires CreditedOnce(w, i) && PaysNothing(w, plan) && plan.Ok? && after == Apply(w, plan.value)
    ensures CreditedOnce(after, i)
  {
    LedgerAfter(w, plan.value, Mentions(i), after);
    LedgerAfter(w, plan.value, Worth(i), after);
    RowAfter(w, plan.value, i, after);
    QuietAdds(w, i, plan);
  }

  lemma PaymentCreditsOnce(w: World, i: nat, plan: Plan, after: World)
    requires CreditedOnce(w, i) && PaysOnce(w, plan) && Ordinary(plan) && plan.Ok? && DepositsOk(w)
    requires plan.value.deposit.Put? ==> Pays(plan, plan.value.deposit.at)
    requires after == Apply(w, plan.value)
    ensures CreditedOnce(after, i)
  {
    LedgerAfter(w, plan.value, Mentions(i), after);
    LedgerAfter(w, plan.value, Worth(i), after);
    RowAfter(w, plan.value, i, after);
    PaymentAdds(w, i, plan);
  }

  lemma StepCreditsOnce(w: World, e: Event, i: nat, plan: Plan, after: World)
    requires Valid(w) && CreditedOnce(w, i) && plan == PlanOf(w, e) && plan.Ok? && after == Apply(w, plan.value)
    ensures CreditedOnce(after, i)
  {
    if OnDeposit(e) {
      if plan.value.deposit.Put? { PaymentsExact(w, e, plan); }
      PaymentCreditsOnce(w, i, plan, after);
    } else {
      QuietCreditsOnce(w, i, plan, after);
    }
  }

  /** In every run, whatever mix of notices, polls and sweeps arrives, a deposit is credited at most once. */
  lemma {:induction false} CreditedAtMostOnce(w: World, events: seq<Event>, i: nat)
    requires Fresh(w) && Fair(w, events)
    ensures CreditedOnce(Run(w, events), i)
  {
    if events != [] {
      var n := |events| - 1;
      var before := Run(w, events[..n]);
      CreditedAtMostOnce(w, events[..n], i);
      BooksAlwaysBalance(w, events[..n]);
      if PlanOf(before, events[n]).Ok? {
        StepCreditsOnce(before, events[n], i, PlanOf(before, events[n]), Run(w, events));
      }
    }
  }

  /** A paid deposit is never written again. */
  lemma StepKeepsPaid(w: World, e: Event, i: nat)
    requires PaidRow(w, i)
    ensures PaidRow(Step(w, e), i) && Step(w, e).deposits[i] == w.deposits[i]
  {
    var plan := PlanOf(w, e);
    if plan.Ok? {
      RowAfter(w, plan.value, i, Step(w, e));
    }
  }

  lemma {:induction false} PaidIsForever(w: World, events: seq<Event>, i: nat)
    requires PaidRow(w, i)
    ensures PaidRow(Run(w, events), i) && Run(w, events).deposits[i] == w.deposits[i]
  {
    if events != [] {
      var n := |events| - 1;
      PaidIsForever(w, events[..n], i);
      StepKeepsPaid(Run(w, events[..n]), events[n], i);
    }
  }
}
