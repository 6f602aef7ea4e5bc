/** Over any sequence of payments, what was paid for a deal is credited to its buyer or taken as its commission. */
module Settlement {
  import opened Common
  import opened Money
  import opened Sums
  import opened Tables
  import opened Services
  import opened Books
  import opened Safety
  import opened Deposits

  /** What has been paid on the invoices of deal j. */
  function PaidFor(j: nat): Deposit -> int
  {
    (p: Deposit) => if p.deal == Some(j) then Collected(p) else 0
  }

  /** What top-up entries have handed to the buyer of deal j, spendable or locked. */
  function CreditedFor(j: nat): Entry -> int
  {
    (e: Entry) => if e.deal == Some(j) then e.amountDelta + e.lockedDelta else 0
  }

  function LockedForDeal(j: nat): Entry -> int
  {
    (e: Entry) => if e.deal == Some(j) then e.lockedDelta else 0
  }

  predicate IsTopup(w: World, j: nat)
  {
    j < |w.deals| && w.deals[j].origin.TopupFunded?
  }

  /** The accounts of one top-up deal. */
  ghost predicate Settled(w: World, j: nat)
  {
    var paid, credited := Sum(w.deposits, PaidFor(j)), Sum(w.ledger, CreditedFor(j));
    var locked := Sum(w.ledger, LockedForDeal(j));
    if IsTopup(w, j) then
      var d := w.deals[j];
      && paid == credited + (if d.commissionPaid then d.commission else 0)
      && (locked == 0 || locked == d.amount)
      && (d.status.PendingTopup? ==> locked == 0)
      && (Activated(d.status) ==> locked == d.amount)
    else paid == 0 && credited == 0 && locked == 0
  }

  /** Deal j after a call that pays in nothing. */
  ghost predicate Undisturbed(w: World, j: nat, after: World)
  {
    if j < |w.deals| then
      && j < |after.deals|
      && var d, d1 := w.deals[j], after.deals[j];
         && d1.amount == d.amount && d1.commission == d.commission && d1.origin == d.origin
         && d.commissionPaid == d1.commissionPaid
         && (d1.status.PendingTopup? ==> d.status.PendingTopup?)
         && (Activated(d1.status) ==> Activated(d.status))
    else IsTopup(after, j) ==> after.deals[j].status.PendingTopup? && !after.deals[j].commissionPaid
  }

  lemma QuietDeals(w: World, j: nat, plan: Plan, after: World)
    requires PaysNothing(w, plan) && plan.Ok? && after == Apply(w, plan.value)
    ensures Undisturbed(w, j, after)
  {
  }

  /** What an effect adds to the payments for deal j. */
  function PaidAdded(w: World, e: Effect, j: nat): int
  {
    Change(w.deposits, e.deposit, PaidFor(j)) + Change(Written(w.deposits, e.deposit), e.invoice, PaidFor(j))
  }

  lemma SumsAfter(w: World, e: Effect, j: nat, after: World)
    requires after == Apply(w, e)
    ensures Sum(after.deposits, PaidFor(j)) == Sum(w.deposits, PaidFor(j)) + PaidAdded(w, e, j)
    ensures Sum(after.ledger, CreditedFor(j)) == Sum(w.ledger, CreditedFor(j)) + Added(w, e, CreditedFor(j))
    ensures Sum(after.ledger, LockedForDeal(j)) == Sum(w.ledger, LockedForDeal(j)) + Added(w, e, LockedForDeal(j))
  {
    SumWritten(w.deposits, e.deposit, PaidFor(j));
    SumWritten(Written(w.deposits, e.deposit), e.invoice, PaidFor(j));
    LedgerAfter(w, e, CreditedFor(j), after);
    LedgerAfter(w, e, LockedForDeal(j), after);
  }

  lemma QuietSums(w: World, j: nat, plan: Plan)
    requires PaysNothing(w, plan) && plan.Ok?
    ensures PaidAdded(w, plan.value, j) == 0
    ensures Added(w, plan.value, CreditedFor(j)) == 0 && Added(w, plan.value, LockedForDeal(j)) == 0
  {
  }

  /** The row of deal j after an effect. */
  function DealAfter(w: World, e: Effect, j: nat): Deal
    requires j < |w.deals|
  {
    if e.deal.Put? && e.deal.at == j then e.deal.row else w.deals[j]
  }

  /** A payment that concerns another deal, or none. */
  lemma PayingElsewhere(w: World, j: nat, plan: Plan)
    requires PaysOnce(w, plan) && Ordinary(plan) && plan.Ok? && DepositsOk(w)
    requires !(plan.value.deposit.Put? && plan.value.deposit.row.deal == Some(j))
    ensures PaidAdded(w, plan.value, j) == 0
    ensures Added(w, plan.value, CreditedFor(j)) == 0 && Added(w, plan.value, LockedForDeal(j)) == 0
    ensures plan.value.deal.Put? ==> plan.value.deal.at != j && plan.value.deal.at < |w.deals|
  {
    if plan.value.deposit.Put? {
      assert DepositOk(w, w.deposits[plan.value.deposit.at]);
    }
  }

  /** A payment on an invoice of deal j: what is paid is credited or taken, and the lock follows the status. */
  lemma PayingDeal(w: World, j: nat, plan: Plan)
    requires Valid(w) && PaysOnce(w, plan) && Ordinary(plan) && plan.Ok? && Honest(w, plan.value)
    requires plan.value.deposit.Put? && plan.value.deposit.row.deal == Some(j)
    ensures IsTopup(w, j)
    ensures PaidAdded(w, plan.value, j)
         == Added(w, plan.value, CreditedFor(j))
             + CommissionTaken(DealAfter(w, plan.value, j)) - CommissionTaken(w.deals[j])
    ensures Added(w, plan.value, LockedForDeal(j))
         == (if Holding(DealAfter(w, plan.value, j).status) && !Holding(w.deals[j].status) then w.deals[j].amount
             else 0)
  {
    var e := plan.value;
    var p := w.deposits[e.deposit.at];
    assert DepositOk(w, p);
    assert Fits(w, e, Key(p.user, p.currency));
    if e.first.Posting? {
      assert Fits(w, e, e.first.key);
    }
  }

  lemma QuietSettles(w: World, j: nat, plan: Plan, after: World)
    requires Settled(w, j) && PaysNothing(w, plan) && plan.Ok? && after == Apply(w, plan.value)
    ensures Settled(after, j)
  {
    QuietSumsStay(w, j, plan, after);
    QuietDeals(w, j, plan, after);
    UndisturbedSettles(w, j, after);
  }

  /** The payments and the entries for deal j add up to the same. */
  ghost predicate SameSums(w: World, j: nat, after: World)
  {
    && Sum(after.deposits, PaidFor(j)) == Sum(w.deposits, PaidFor(j))
    && Sum(after.ledger, CreditedFor(j)) == Sum(w.ledger, CreditedFor(j))
    && Sum(after.ledger, LockedForDeal(j)) == Sum(w.ledger, LockedForDeal(j))
  }

  lemma QuietSumsStay(w: World, j: nat, plan: Plan, after: World)
    requires PaysNothing(w, plan) && plan.Ok? && after == Apply(w, plan.value)
    ensures SameSums(w, j, after)
  {
    SumsAfter(w, plan.value, j, after);
    QuietSums(w, j, plan);
  }

  lemma UndisturbedSettles(w: World, j: nat, after: World)
    requires Settled(w, j) && Undisturbed(w, j, after) && SameSums(w, j, after)
    ensures Settled(after, j)
  {
  }

  lemma ElsewhereSettles(w: World, j: nat, plan: Plan, after: World)
    requires Settled(w, j) && PaysOnce(w, plan) && Ordinary(plan) && plan.Ok? && DepositsOk(w)
    requires !(plan.value.deposit.Put? && plan.value.deposit.row.deal == Some(j)) && after == Apply(w, plan.value)
    ensures Settled(after, j)
  {
    PayingElsewhere(w, j, plan);
    ElsewhereSumsStay(w, j, plan, after);
  }

  lemma ElsewhereSumsStay(w: World, j: nat, plan: Plan, after: World)
    requires PaysOnce(w, plan) && Ordinary(plan) && plan.Ok? && DepositsOk(w)
    requires !(plan.value.deposit.Put? && plan.value.deposit.row.deal == Some(j)) && after == Apply(w, plan.value)
    ensures SameSums(w, j, after)
  {
    SumsAfter(w, plan.value, j, after);
    PayingElsewhere(w, j, plan);
  }

  lemma PayingSettles(w: World, j: nat, plan: Plan, after: World)
    requires Valid(w) && Settled(w, j) && PaysOnce(w, plan) && Ordinary(plan) && plan.Ok? && Honest(w, plan.value)
    requires plan.value.deposit.Put? && plan.value.deposit.row.deal == Some(j) && after == Apply(w, plan.value)
    ensures Settled(after, j)
  {
    SumsAfter(w, plan.value, j, after);
    PayingDeal(w, j, plan);
    DealRowAfter(w, j, plan.value, after);
  }

  lemma DealRowAfter(w: World, j: nat, e: Effect, after: World)
    requires j < |w.deals| && after == Apply(w, e) && PaysOnce(w, Ok(e))
    ensures j < |after.deals| && after.deals[j] == DealAfter(w, e, j)
  {
  }

  lemma StepSettles(w: World, e: Event, j: nat, plan: Plan, after: World)
    requires Valid(w) && Assumed(w, e) && Settled(w, j) && plan == PlanOf(w, e) && plan.Ok?
    requires after == Apply(w, plan.value)
    ensures Settled(after, j)
  {
    if !OnDeposit(e) {
      QuietSettles(w, j, plan, after);
    } else if plan.value.deposit.Put? && plan.value.deposit.row.deal == Some(j) {
      EveryCallHonest(w, e);
      PayingSettles(w, j, plan, after);
    } else {
      ElsewhereSettles(w, j, plan, after);
    }
  }

  /**
    For every deal, after any run: the payments on its invoices are what its buyer was
    credited plus the commission if that is marked paid, and the principal was locked once
    or not yet.
   */
  lemma {:induction false} PaymentsAreSettled(w: World, events: seq<Event>, j: nat)
    requires Fresh(w) && Fair(w, events)
    ensures Settled(Run(w, events), j)
  {
    if events != [] {
      var n := |events| - 1;
      var before := Run(w, events[..n]);
      PaymentsAreSettled(w, events[..n], j);
      BooksAlwaysBalance(w, events[..n]);
      if PlanOf(before, events[n]).Ok? {
        StepSettles(before, events[n], j, PlanOf(before, events[n]), Run(w, events));
      }
    }
  }
}
