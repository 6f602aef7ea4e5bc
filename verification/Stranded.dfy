/**
  Waiting deals that no payment can activate any more. A Crystalpay invoice that has expired
  takes no notice and no poll, and nothing replaces it, so its deal can only be closed.
 */
module Stranded {
  import opened Common
  import opened Money
  import opened Sums
  import opened Tables
  import opened Services
  import opened Books
  import opened Safety
  import opened Deposits
  import opened Settlement
  import opened Topups
  import opened Grid
  import opened Progress
  import opened OffGrid

  // ------------------------------------------------------------- beyond payment

  /** No call will pay the row: it has been paid, or it is a Crystalpay invoice that has expired. */
  predicate Beyond(p: Deposit)
  {
    p.status.Paid? || (p.status.Expired? && p.provider.Crystalpay?)
  }

  lemma NoPaymentWrites(w: World, e: Event, i: nat, plan: Plan)
    requires OnDeposit(e) && plan == DepositPlan(w, e) && plan.Ok? && i < |w.deposits| && Beyond(w.deposits[i])
    ensures plan.value.deposit.Put? ==> plan.value.deposit.at != i
  {
  }

  /** No call of any kind writes such a row. */
  lemma NoCallWrites(w: World, e: Event, i: nat, plan: Plan)
    requires plan == PlanOf(w, e) && plan.Ok? && i < |w.deposits| && Beyond(w.deposits[i])
    ensures plan.value.deposit.Put? ==> plan.value.deposit.at < |w.deposits| && plan.value.deposit.at != i
    ensures plan.value.invoice.Put? ==> plan.value.invoice.row.status.Pending? && plan.value.invoice.at == |w.deposits|
  {
    if OnDeposit(e) {
      NoPaymentWrites(w, e, i, plan);
    }
  }

  lemma StepKeepsBeyond(w: World, e: Event, i: nat)
    requires i < |w.deposits| && Beyond(w.deposits[i])
    ensures i < |Step(w, e).deposits| && Step(w, e).deposits[i] == w.deposits[i]
  {
    var plan := PlanOf(w, e);
    if plan.Ok? {
      NoCallWrites(w, e, i, plan);
      RowAfter(w, plan.value, i, Step(w, e));
    }
  }

  /** Such a row never changes, whatever happens. */
  lemma {:induction false} BeyondIsForever(w: World, events: seq<Event>, i: nat)
    requires i < |w.deposits| && Beyond(w.deposits[i])
    ensures i < |Run(w, events).deposits| && Run(w, events).deposits[i] == w.deposits[i]
  {
    if events != [] {
      var n := |events| - 1;
      BeyondIsForever(w, events[..n], i);
      StepKeepsBeyond(Run(w, events[..n]), events[n], i);
    }
  }

  // ------------------------------------------------------------------ dead deals

  /** A top-up deal that was never activated, with every one of its invoices beyond payment. */
  ghost predicate Dead(w: World, j: nat)
  {
    && IsTopup(w, j) && !Activated(w.deals[j].status)
    && forall i :: 0 <= i < |w.deposits| && LinkedTo(w.deposits[i], j) ==> Beyond(w.deposits[i])
  }

  lemma QuietKeepsDead(w: World, j: nat, plan: Plan, after: World)
    requires Dead(w, j) && PaysNothing(w, plan) && plan.Ok? && after == Apply(w, plan.value)
    ensures Dead(after, j)
  {
    QuietDeals(w, j, plan, after);
    forall i | 0 <= i < |after.deposits| && LinkedTo(after.deposits[i], j) ensures Beyond(after.deposits[i]) {
      RowAfter(w, plan.value, i, after);
    }
  }

  lemma PayingKeepsDead(w: World, e: Event, j: nat, plan: Plan, after: World)
    requires Dead(w, j) && OnDeposit(e) && plan == DepositPlan(w, e) && plan.Ok? && after == Apply(w, plan.value)
    ensures Dead(after, j)
  {
    var eff := plan.value;
    if eff.deposit.Put? && LinkedTo(w.deposits[eff.deposit.at], j) {
      NoPaymentWrites(w, e, eff.deposit.at, plan);
    }
    DealRowAfter(w, j, eff, after);
    PayingLinks(w, eff, after);
    forall i | 0 <= i < |after.deposits| && LinkedTo(after.deposits[i], j) ensures Beyond(after.deposits[i]) {
      RowAfter(w, eff, i, after);
    }
  }

  lemma StepKeepsDead(w: World, e: Event, j: nat)
    requires Dead(w, j)
    ensures Dead(Step(w, e), j)
  {
    var plan := PlanOf(w, e);
    if plan.Ok? {
      if OnDeposit(e) {
        PayingKeepsDead(w, e, j, plan, Step(w, e));
      } else {
        QuietKeepsDead(w, j, plan, Step(w, e));
      }
    }
  }

  /** A dead deal stays dead: no call whatever activates it, or issues another invoice for it. */
  lemma {:induction false} DeadIsForever(w: World, events: seq<Event>, j: nat)
    requires Dead(w, j)
    ensures Dead(Run(w, events), j)
  {
    if events != [] {
      var n := |events| - 1;
      DeadIsForever(w, events[..n], j);
      StepKeepsDead(Run(w, events[..n]), events[n], j);
    }
  }

  // --------------------------------------------------------- the exact condition

  /** The events fairly lead to a state in which deal j has been activated. */
  ghost predicate Activates(w: World, more: seq<Event>, j: nat)
  {
    Fair(w, more) && j < |Run(w, more).deals| && Activated(Run(w, more).deals[j].status)
  }

  /** A notice of the provider of deposit t that `sum` has been paid. */
  function Payment(w: World, t: nat, sum: nat): Event
    requires t < |w.deposits|
  {
    var p, reported := w.deposits[t], Reported.Reported(Raw(sum, 1));
    match p.provider
    case CryptoBot => EvInvoicePaid(true, Some(p.invoice), reported, None)
    case Crystalpay => EvCrystalpayNotice(Some(p.invoice), Payed, reported, None)
  }

  /** Commission and principal together are enough, whatever the balance. */
  lemma EnoughPaid(w: World, j: nat, t: nat, sum: nat)
    requires Valid(w) && WaitsFor(w, j, t) && sum == Due(w.deals[j]) + w.deals[j].amount
    ensures PaysFor(w, t, Payment(w, t, sum)) && PaidBy(w, t, Payment(w, t, sum)) == sum
    ensures Enough(w, w.deals[j], sum)
  {
    var d, step := w.deals[j], GridOf(w, w.deposits[t].currency);
    assert DealOk(w, d);
    assert Balanced(w, BuyerKey(d));
    MultipleOnGrid(0, step);
    GridClosed(Due(d), d.amount, step);
    QuantizeIdempotent(Raw(0, 1), sum, step);
  }

  lemma PaymentShown(w: World, j: nat, t: nat, sum: nat)
    requires Valid(w) && WaitsFor(w, j, t) && !Beyond(w.deposits[t])
    requires sum == Due(w.deals[j]) + w.deals[j].amount
    ensures Activates(w, [Payment(w, t, sum)], j)
  {
    var e := Payment(w, t, sum);
    EnoughPaid(w, j, t, sum);
    PaymentActivatesIff(w, j, t, e);
    RunOne(w, e);
  }

  lemma BeyondIsDead(w: World, j: nat)
    requires Paired(w, j) && IsTopup(w, j) && w.deals[j].status.PendingTopup?
    requires Beyond(w.deposits[w.deals[j].topup.value])
    ensures Dead(w, j)
  {
  }

  /** A waiting deal can still be activated exactly when its latest invoice is not beyond payment. */
  lemma {:induction false} CanActivateIff(w: World, j: nat)
    requires Valid(w) && Paired(w, j) && IsTopup(w, j) && w.deals[j].status.PendingTopup?
    ensures (exists more :: Activates(w, more, j)) <==> !Beyond(w.deposits[w.deals[j].topup.value])
  {
    var d, t := w.deals[j], w.deals[j].topup.value;
    if Beyond(w.deposits[t]) {
      BeyondIsDead(w, j);
      forall more: seq<Event> ensures !Activates(w, more, j) {
        DeadIsForever(w, more, j);
      }
    } else {
      assert DealOk(w, d);
      assert DepositOk(w, w.deposits[t]);
      PaymentShown(w, j, t, Due(d) + d.amount);
    }
  }

  /** The same in every state of every run. */
  lemma WaitingDealCanActivateIff(w: World, events: seq<Event>, j: nat)
    requires Fresh(w) && Fair(w, events)
    requires IsTopup(Run(w, events), j) && Run(w, events).deals[j].status.PendingTopup?
    ensures var now := Run(w, events);
            && now.deals[j].topup.Some? && now.deals[j].topup.value < |now.deposits|
            && ((exists more :: Activates(now, more, j)) <==> !Beyond(now.deposits[now.deals[j].topup.value]))
  {
    BooksAlwaysBalance(w, events);
    DealsStayPaired(w, events, j);
    CanActivateIff(Run(w, events), j);
  }

  // ----------------------------------------------------------------- a full payment

  /** The buyer is invoiced for everything, and the sweep expires the invoice. */
  const INVOICE_EXPIRED: seq<Event> := [
    EvCreateDealWithTopup(OFFER.(provider := Crystalpay), Terms(5000, -1), Some(0)), EvExpireDeposit(0)]

  /** Then the full payment is reported. */
  const LATE_NOTICE := EvCrystalpayNotice(Some(0), Payed, Reported.Reported(Raw(30, 1)), Some(1))

  const UNPAID := Deposit(1, 0, 30, Crystalpay, 0, Pending, DealTopup, None, Some(0), 0)
  const WAITING := Deal(1, 2, 0, 20, 10, PendingTopup, Crystalpay, false, TopupFunded, Some(0), false, None, None)

  lemma WaitingPlanned()
    ensures CreateDealWithTopup(START, OFFER.(provider := Crystalpay), Terms(5000, -1), Some(0))
         == Ok(NOTHING.(first := Posting(Key(1, 0), 0, 0, DealLock, FromDeal(None), None, true),
                        deal := Put.Put(0, WAITING), invoice := Put.Put(0, UNPAID)))
  {
    StepSize(START);
    assert FindDeposit(START.deposits, Crystalpay, 0).None?;
    assert Commission(20, 5000, 10) == 10;
  }

  lemma DealWaits(w: World)
    requires w == Step(START, INVOICE_EXPIRED[0])
    ensures Looks(w, Balance(0, 0), [WAITING], [UNPAID])
  {
    WaitingPlanned();
  }

  lemma InvoiceExpires(w: World)
    requires Looks(w, Balance(0, 0), [WAITING], [UNPAID])
    ensures Looks(Step(w, INVOICE_EXPIRED[1]), Balance(0, 0), [WAITING], [UNPAID.(status := Expired)])
  {
  }

  lemma FullPaymentRefused(w: World)
    requires Looks(w, Balance(0, 0), [WAITING], [UNPAID.(status := Expired)])
    ensures WaitsFor(w, 0, 0) && Invoiced(w, 0) && Dead(w, 0)
    ensures PaysInFull(w, 0, LATE_NOTICE) && PlanOf(w, LATE_NOTICE) == Err(NotPending)
  {
    StepSize(w);
    assert FindDeposit(w.deposits, Crystalpay, 0) == Some(0);
    assert Quantize(Raw(30, 1), 10) == 30;
  }

  lemma ExpiredState(now: World)
    requires now == Run(START, INVOICE_EXPIRED)
    ensures Looks(now, Balance(0, 0), [WAITING], [UNPAID.(status := Expired)]) && Fair(START, INVOICE_EXPIRED)
  {
    RunTwo(START, INVOICE_EXPIRED[0], INVOICE_EXPIRED[1]);
    DealWaits(Step(START, INVOICE_EXPIRED[0]));
    InvoiceExpires(Step(START, INVOICE_EXPIRED[0]));
  }

  /**
    A reachable grid state whose waiting deal has its exact invoice, and a report of that full
    amount, which is refused; whatever follows, the deal is never activated.
   */
  lemma FullPaymentComesTooLate(now: World, more: seq<Event>)
    requires now == Run(START, INVOICE_EXPIRED)
    ensures Fresh(START) && Fair(START, INVOICE_EXPIRED) && GridRun(START, INVOICE_EXPIRED)
    ensures Looks(now, Balance(0, 0), [WAITING], [UNPAID.(status := Expired)])
    ensures WaitsFor(now, 0, 0) && Invoiced(now, 0) && Assumed(now, LATE_NOTICE) && PaysInFull(now, 0, LATE_NOTICE)
    ensures PlanOf(now, LATE_NOTICE) == Err(NotPending) && !Activates(now, more, 0)
  {
    StartIsFresh();
    ExpiredState(now);
    FullPaymentRefused(now);
    DeadIsForever(now, more, 0);
  }

  /** The deal off the grid, too, waits for ever: its one invoice has been paid. */
  lemma OffGridDealIsDead(now: World, more: seq<Event>)
    requires now == Run(START, STORY)
    ensures Dead(now, 0) && !Activates(now, more, 0)
  {
    LastState(now);
    DeadIsForever(now, more, 0);
  }
}
