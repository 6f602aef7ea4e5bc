/** A deal that waits for its top-up and its one outstanding invoice name each other. */
module Topups {
  import opened Common
  import opened Money
  import opened Sums
  import opened Tables
  import opened Services
  import opened Books
  import opened Safety
  import opened Deposits
  import opened Settlement

  // -------------------------------------------------------------- pairing

  predicate LinkedTo(p: Deposit, j: nat)
  {
    p.deal == Some(j)
  }

  /** Every invoice of deal j other than `t` has been paid. */
  ghost predicate OthersPaid(w: World, j: nat, t: nat)
  {
    forall i :: 0 <= i < |w.deposits| && i != t && LinkedTo(w.deposits[i], j) ==> w.deposits[i].status.Paid?
  }

  ghost predicate AllPaid(w: World, j: nat)
  {
    forall i :: 0 <= i < |w.deposits| && LinkedTo(w.deposits[i], j) ==> w.deposits[i].status.Paid?
  }

  /** A waiting deal and its outstanding invoice name each other; an activated one has none outstanding. */
  ghost predicate Paired(w: World, j: nat)
  {
    IsTopup(w, j) ==>
      var d := w.deals[j];
      && (d.status.PendingTopup? ==>
            && d.topup.Some? && d.topup.value < |w.deposits| && LinkedTo(w.deposits[d.topup.value], j)
            && OthersPaid(w, j, d.topup.value))
      && (Sum(w.ledger, LockedForDeal(j)) != 0 ==> AllPaid(w, j))
  }

  /** No invoice of a deal exists before the deal. */
  lemma NoEarlyInvoice(w: World, j: nat)
    requires DepositsOk(w) && j >= |w.deals|
    ensures forall i :: 0 <= i < |w.deposits| ==> !LinkedTo(w.deposits[i], j)
  {
    forall i | 0 <= i < |w.deposits| ensures !LinkedTo(w.deposits[i], j) {
      assert DepositOk(w, w.deposits[i]);
    }
  }

  /** The links and payments after a call that pays in nothing: one unpaid invoice may be new. */
  lemma QuietLinks(w: World, e: Effect, after: World)
    requires PaysNothing(w, Ok(e)) && after == Apply(w, e)
    ensures |after.deposits| == |w.deposits| + (if e.invoice.Put? then 1 else 0)
    ensures forall i :: 0 <= i < |w.deposits| ==>
                          && after.deposits[i].deal == w.deposits[i].deal
                          && (after.deposits[i].status.Paid? <==> w.deposits[i].status.Paid?)
    ensures e.invoice.Put? ==> after.deposits[|w.deposits|] == e.invoice.row
  {
  }

  lemma QuietPairsOld(w: World, j: nat, e: Effect, after: World)
    requires Paired(w, j) && j < |w.deals| && PaysNothing(w, Ok(e)) && after == Apply(w, e)
    requires Sum(after.ledger, LockedForDeal(j)) == Sum(w.ledger, LockedForDeal(j))
    ensures Paired(after, j)
  {
    QuietLinks(w, e, after);
    QuietDeals(w, j, Ok(e), after);
    if e.invoice.Put? {
      assert !LinkedTo(e.invoice.row, j);
    }
    assert AllPaid(w, j) ==> AllPaid(after, j);
    if IsTopup(after, j) && after.deals[j].status.PendingTopup? {
      assert after.deals[j].topup == w.deals[j].topup;
      assert OthersPaid(after, j, w.deals[j].topup.value);
    }
  }

  lemma QuietPairsNew(w: World, j: nat, e: Effect, after: World)
    requires DepositsOk(w) && j >= |w.deals| && PaysNothing(w, Ok(e)) && after == Apply(w, e)
    requires Sum(after.ledger, LockedForDeal(j)) == 0
    ensures Paired(after, j)
  {
    QuietLinks(w, e, after);
    NoEarlyInvoice(w, j);
    if IsTopup(after, j) {
      assert OthersPaid(after, j, |w.deposits|);
    }
  }

  lemma LockSumQuiet(w: World, j: nat, plan: Plan, after: World)
    requires PaysNothing(w, plan) && plan.Ok? && after == Apply(w, plan.value)
    ensures Sum(after.ledger, LockedForDeal(j)) == Sum(w.ledger, LockedForDeal(j))
  {
    QuietSums(w, j, plan);
    LedgerAfter(w, plan.value, LockedForDeal(j), after);
  }

  lemma NoLockYet(w: World, j: nat)
    requires Settled(w, j) && j >= |w.deals|
    ensures Sum(w.ledger, LockedForDeal(j)) == 0
  {
  }

  lemma QuietPairs(w: World, j: nat, plan: Plan, after: World)
    requires DepositsOk(w) && Settled(w, j) && Paired(w, j) && PaysNothing(w, plan) && plan.Ok?
    requires after == Apply(w, plan.value)
    ensures Paired(after, j)
  {
    LockSumQuiet(w, j, plan, after);
    if j < |w.deals| {
      QuietPairsOld(w, j, plan.value, after);
    } else {
      NoLockYet(w, j);
      QuietPairsNew(w, j, plan.value, after);
    }
  }

  /** The links and payments after a call on one deposit. */
  lemma PayingLinks(w: World, e: Effect, after: World)
    requires PaysOnce(w, Ok(e)) && after == Apply(w, e)
    ensures |after.deposits| == |w.deposits| + (if e.invoice.Put? then 1 else 0)
    ensures forall i :: 0 <= i < |w.deposits| ==>
                          && after.deposits[i].deal == w.deposits[i].deal
                          && (w.deposits[i].status.Paid? ==> after.deposits[i].status.Paid?)
    ensures e.deposit.Put? ==> e.deposit.at < |w.deposits| && after.deposits[e.deposit.at] == e.deposit.row
    ensures e.invoice.Put? ==> after.deposits[|w.deposits|] == e.invoice.row
  {
  }

  lemma ElsewhereLinks(w: World, j: nat, e: Effect, after: World)
    requires Paired(w, j) && j < |w.deals| && PaysOnce(w, Ok(e)) && after == Apply(w, e)
    requires !(e.deposit.Put? && e.deposit.row.deal == Some(j))
    requires Sum(after.ledger, LockedForDeal(j)) == Sum(w.ledger, LockedForDeal(j))
    ensures Paired(after, j)
  {
    PayingLinks(w, e, after);
    DealRowAfter(w, j, e, after);
    assert AllPaid(w, j) ==> AllPaid(after, j);
    if IsTopup(after, j) && after.deals[j].status.PendingTopup? {
      assert OthersPaid(after, j, w.deals[j].topup.value);
    }
  }

  lemma ElsewherePairs(w: World, j: nat, plan: Plan, after: World)
    requires DepositsOk(w) && Paired(w, j) && PaysOnce(w, plan) && Ordinary(plan) && plan.Ok?
    requires !(plan.value.deposit.Put? && plan.value.deposit.row.deal == Some(j)) && after == Apply(w, plan.value)
    ensures Paired(after, j)
  {
    SumsAfter(w, plan.value, j, after);
    PayingElsewhere(w, j, plan);
    if j < |w.deals| {
      ElsewhereLinks(w, j, plan.value, after);
    }
  }

  /** The invoice that is paid while the deal waits is the outstanding one. */
  lemma OutstandingOnly(w: World, j: nat, at: nat)
    requires Paired(w, j) && IsTopup(w, j) && w.deals[j].status.PendingTopup?
    requires at < |w.deposits| && LinkedTo(w.deposits[at], j) && !w.deposits[at].status.Paid?
    ensures w.deals[j].topup == Some(at)
  {
  }

  lemma PayingPairs(w: World, j: nat, plan: Plan, after: World)
    requires Valid(w) && Settled(w, j) && Paired(w, j) && PaysOnce(w, plan) && Ordinary(plan) && plan.Ok?
    requires Honest(w, plan.value)
    requires plan.value.deposit.Put? && plan.value.deposit.row.deal == Some(j) && after == Apply(w, plan.value)
    ensures Paired(after, j)
  {
    var e := plan.value;
    SumsAfter(w, e, j, after);
    PayingDeal(w, j, plan);
    PayingLinks(w, e, after);
    DealRowAfter(w, j, e, after);
    assert DealOk(w, w.deals[j]);
    if w.deals[j].status.PendingTopup? {
      OutstandingOnly(w, j, e.deposit.at);
      WaitingPairs(w, j, e, after);
    } else {
      assert AllPaid(w, j) ==> AllPaid(after, j);
    }
  }

  lemma WaitingPairs(w: World, j: nat, e: Effect, after: World)
    requires PaysOnce(w, Ok(e)) && after == Apply(w, e) && IsTopup(w, j) && w.deals[j].status.PendingTopup?
    requires e.deposit.Put? && e.deposit.row.deal == Some(j) && w.deals[j].topup == Some(e.deposit.at)
    requires OthersPaid(w, j, e.deposit.at)
    requires (e.deposit.row.status.Paid? ==> !Holding(after.deals[j].status) || e.invoice.Keep?)
    requires Sum(after.ledger, LockedForDeal(j)) != 0 ==> Holding(after.deals[j].status) && e.deposit.row.status.Paid?
    ensures Paired(after, j)
  {
    PayingLinks(w, e, after);
    DealRowAfter(w, j, e, after);
    if after.deals[j].status.PendingTopup? {
      assert OthersPaid(after, j, after.deals[j].topup.value);
    }
    if e.invoice.Keep? && e.deposit.row.status.Paid? {
      assert AllPaid(after, j);
    }
  }

  lemma StepPairs(w: World, e: Event, j: nat, plan: Plan, after: World)
    requires Valid(w) && Assumed(w, e) && Settled(w, j) && Paired(w, j)
    requires plan == PlanOf(w, e) && plan.Ok? && after == Apply(w, plan.value)
    ensures Paired(after, j)
  {
    if !OnDeposit(e) {
      QuietPairs(w, j, plan, after);
    } else if plan.value.deposit.Put? && plan.value.deposit.row.deal == Some(j) {
      EveryCallHonest(w, e);
      PayingPairs(w, j, plan, after);
    } else {
      ElsewherePairs(w, j, plan, after);
    }
  }

  /** Deals and their invoices stay paired in every run. */
  lemma {:induction false} DealsStayPaired(w: World, events: seq<Event>, j: nat)
    requires Fresh(w) && Fair(w, events)
    ensures Paired(Run(w, events), j)
  {
    if events != [] {
      var n := |events| - 1;
      var before := Run(w, events[..n]);
      DealsStayPaired(w, events[..n], j);
      PaymentsAreSettled(w, events[..n], j);
      BooksAlwaysBalance(w, events[..n]);
      if PlanOf(before, events[n]).Ok? {
        StepPairs(before, events[n], j, PlanOf(before, events[n]), Run(w, events));
      }
    }
  }
}
