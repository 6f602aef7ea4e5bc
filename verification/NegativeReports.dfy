/**
  The handlers of paid invoices accept any finite amount, also a negative one. This is the
  input that the runs of the other modules assume away, and exactly what it can do.
 */
module NegativeReports {
  import opened Common
  import opened Money
  import opened Sums
  import opened Tables
  import opened Services
  import opened Books
  import opened Safety
  import opened OffGrid

  /** The event is a provider's notice that the unpaid deposit `at` has been paid, with the reported amount. */
  ghost predicate Reports(w: World, e: Event, at: nat, reported: Reported)
  {
    && at < |w.deposits| && !w.deposits[at].status.Paid?
    && var p := w.deposits[at];
       match p.provider
       case CryptoBot => e.EvInvoicePaid? && e.statusPaid && e.invoice == Some(p.invoice) && e.reported == reported
       case Crystalpay =>
         e.EvCrystalpayNotice? && e.state.Payed? && e.invoice == Some(p.invoice) && e.reported == reported
  }

  /** Both webhooks come down to the same call. */
  lemma ReportPlan(w: World, e: Event, at: nat, reported: Reported, plan: Plan)
    requires InvoicesDistinct(w.deposits) && Reports(w, e, at, reported) && plan == PlanOf(w, e) && plan.Ok?
    ensures plan == CreditReported(w, at, reported, e.issued)
  {
    InvoiceFound(w.deposits, at);
  }

  /** The plan for a payment of `sum` on deal j, negative or not. */
  ghost predicate Credits(w: World, sum: int, j: nat, plan: Plan)
  {
    && plan.Ok? && j < |w.deals|
    && var e := plan.value;
       && e.first.Posting? && e.first.key == BuyerKey(w.deals[j]) && e.second.NoPosting?
       && (sum < 0 ==> e.first.amount == sum)
       && (sum >= 0 ==> Bal(w, e.first.key).amount + e.first.amount >= 0)
  }

  /** Attaching a new invoice changes no posting. */
  lemma ReplacementCredits(w: World, e: Effect, balance: int, step: nat, reissued: Option<nat>, plan: Plan)
    requires step > 0 && e.deal.Put? && plan == WithReplacement(w, e, balance, step, reissued) && plan.Ok?
    ensures plan.value.first == e.first && plan.value.second == e.second
  {
  }

  /** On a waiting deal a negative sum is below what is due, so all of it is credited. */
  lemma BelowDueCredits(w: World, at: nat, sum: int, j: nat, step: nat, reissued: Option<nat>, plan: Plan)
    requires at < |w.deposits| && w.deposits[at].purpose.DealTopup? && !w.deposits[at].status.Paid? && step > 0
    requires w.deposits[at].deal == Some(j) && j < |w.deals| && w.deals[j].status.PendingTopup?
    requires sum < DueOf(w.deals[j], step) && Bal(w, BuyerKey(w.deals[j])).amount >= 0
    requires plan == SettlePending(w, at, sum, j, step, reissued) && plan.Ok?
    ensures Credits(w, sum, j, plan)
  {
    var e := PartialEffect(w, at, sum, sum, j, w.deals[j]);
    ReplacementCredits(w, e, Bal(w, BuyerKey(w.deals[j])).amount + sum, step, reissued, plan);
  }

  lemma AboveDueCredits(w: World, at: nat, sum: int, credit: int, j: nat, step: nat, reissued: Option<nat>, plan: Plan)
    requires at < |w.deposits| && w.deposits[at].purpose.DealTopup? && !w.deposits[at].status.Paid? && step > 0
    requires w.deposits[at].deal == Some(j) && j < |w.deals| && w.deals[j].status.PendingTopup?
    requires sum >= DueOf(w.deals[j], step) >= 0 && Bal(w, BuyerKey(w.deals[j])).amount >= 0
    requires credit == Q(sum - DueOf(w.deals[j], step), step) && credit >= 0
    requires plan == SettlePending(w, at, sum, j, step, reissued) && plan.Ok?
    ensures Credits(w, sum, j, plan)
  {
    var d, balance := w.deals[j], Bal(w, BuyerKey(w.deals[j])).amount;
    if balance + credit < Q(d.amount, step) {
      ReplacementCredits(w, PartialEffect(w, at, sum, credit, j, Marked(d, DueOf(d, step) > 0)), balance + credit, step,
                         reissued, plan);
    }
  }

  lemma PendingCredits(w: World, at: nat, sum: int, j: nat, reissued: Option<nat>, plan: Plan)
    requires Valid(w) && at < |w.deposits| && w.deposits[at].purpose.DealTopup? && !w.deposits[at].status.Paid?
    requires w.deposits[at].deal == Some(j) && j < |w.deals| && w.deals[j].status.PendingTopup?
    requires DealOk(w, w.deals[j]) && plan.Ok?
    requires plan == SettlePending(w, at, sum, j, GridOf(w, w.deals[j].currency), reissued)
    ensures Credits(w, sum, j, plan)
  {
    var d, step := w.deals[j], GridOf(w, w.deals[j].currency);
    assert Balanced(w, BuyerKey(d));
    QuantizeNonNegative(Raw(d.commission, 1), step);
    if sum < DueOf(d, step) {
      BelowDueCredits(w, at, sum, j, step, reissued, plan);
    } else {
      QuantizeNonNegative(Raw(sum - DueOf(d, step), 1), step);
      AboveDueCredits(w, at, sum, Q(sum - DueOf(d, step), step), j, step, reissued, plan);
    }
  }

  lemma SettleCredits(w: World, at: nat, sum: int, j: nat, paid: Raw, reissued: Option<nat>, plan: Plan)
    requires Valid(w) && at < |w.deposits| && w.deposits[at].purpose.DealTopup? && !w.deposits[at].status.Paid?
    requires w.deposits[at].deal == Some(j) && j < |w.deals| && DealOk(w, w.deals[j])
    requires sum == Quantize(paid, GridOf(w, w.deals[j].currency))
    requires plan == SettleTopup(w, at, Some(paid), reissued) && plan.Ok?
    ensures Credits(w, sum, j, plan)
  {
    if w.deals[j].status.PendingTopup? {
      PendingCredits(w, at, sum, j, reissued, plan);
    } else {
      assert Balanced(w, BuyerKey(w.deals[j]));
    }
  }

  /** The deal of an unpaid top-up deposit. */
  lemma TopupDeal(w: World, at: nat)
    requires Valid(w) && at < |w.deposits| && w.deposits[at].purpose.DealTopup?
    ensures w.deposits[at].deal.Some? && w.deposits[at].deal.value < |w.deals|
    ensures DealOk(w, w.deals[w.deposits[at].deal.value])
  {
    assert DepositOk(w, w.deposits[at]);
  }

  /** What a payment of `paid` for deal d is worth on its grid. */
  function Worth(w: World, d: Deal, paid: Raw): int
  {
    if d.currency in w.currencies then Quantize(paid, GridOf(w, d.currency)) else 0
  }

  /**
    Whether the deal of a top-up deposit still waits or not, and whichever provider reports:
    an accepted report overdraws exactly the buyer, and exactly when it takes away more than
    the balance holds.
   */
  lemma {:induction false} NegativeReportIff(w: World, e: Event, at: nat, paid: Raw, k: Key)
    requires Valid(w) && Reports(w, e, at, Reported.Reported(paid)) && w.deposits[at].purpose.DealTopup?
    ensures w.deposits[at].deal.Some? && w.deposits[at].deal.value < |w.deals|
    ensures var d := w.deals[w.deposits[at].deal.value];
            Bal(Step(w, e), k).amount < 0
            <==> k == BuyerKey(d) && PlanOf(w, e).Ok? && Bal(w, k).amount + Worth(w, d, paid) < 0
  {
    TopupDeal(w, at);
    assert Balanced(w, k);
    var plan, j := PlanOf(w, e), w.deposits[at].deal.value;
    if plan.Ok? {
      ReportPlan(w, e, at, Reported.Reported(paid), plan);
      SettleCredits(w, at, Worth(w, w.deals[j], paid), j, paid, e.issued, plan);
      CreditedBalance(w, Worth(w, w.deals[j], paid), j, plan, k, Step(w, e));
    }
  }

  lemma CreditedBalance(w: World, sum: int, j: nat, plan: Plan, k: Key, after: World)
    requires Credits(w, sum, j, plan) && after == Apply(w, plan.value) && Bal(w, k).amount >= 0
    ensures Bal(after, k).amount < 0 <==> k == BuyerKey(w.deals[j]) && Bal(w, k).amount + sum < 0
  {
    ApplyMovesBalance(w, plan.value, k);
  }

  // ------------------------------------------------------ the rest of the books

  /** On a wallet or trust deposit no report overdraws anyone: what is credited is at least the invoiced amount. */
  lemma WalletReportsOverdrawNobody(w: World, e: Event, at: nat, reported: Reported, k: Key)
    requires Valid(w) && Reports(w, e, at, reported) && !w.deposits[at].purpose.DealTopup?
    ensures Bal(Step(w, e), k).amount >= 0
  {
    assert Balanced(w, k) && DepositOk(w, w.deposits[at]);
    var plan := PlanOf(w, e);
    if plan.Ok? {
      ReportPlan(w, e, at, reported, plan);
      WalletCredits(w, at, reported, e.issued, plan);
      ApplyMovesBalance(w, plan.value, k);
    }
  }

  lemma WalletCredits(w: World, at: nat, reported: Reported, issued: Option<nat>, plan: Plan)
    requires at < |w.deposits| && DepositOk(w, w.deposits[at]) && !w.deposits[at].purpose.DealTopup?
    requires plan == CreditReported(w, at, reported, issued) && plan.Ok?
    ensures plan.value.second.NoPosting? && (plan.value.first.Posting? ==> plan.value.first.amount >= 0)
  {
    QuantizeIdempotent(Raw(0, 1), w.deposits[at].amount, GridOf(w, w.deposits[at].currency));
  }

  /** A negative payment that the balance covers keeps every account balanced, on a deal that waits or not. */
  lemma CoveredFits(w: World, at: nat, sum: int, j: nat, e: Effect, k: Key)
    requires Valid(w) && at < |w.deposits| && w.deposits[at].purpose.DealTopup? && !w.deposits[at].status.Paid?
    requires w.deposits[at].deal == Some(j) && j < |w.deals| && Bal(w, BuyerKey(w.deals[j])).amount + sum >= 0
    requires if w.deals[j].status.PendingTopup? then e == PartialEffect(w, at, sum, sum, j, w.deals[j])
             else e == LateEffect(w, at, sum, j)
    ensures Fits(w, e, k)
  {
    assert DepositOk(w, w.deposits[at]) && DealOk(w, w.deals[j]);
    CreditFits(w, at, e, k);
  }

  /** The replacement invoice posts nothing. */
  lemma ReplacementBalances(w: World, e: Effect, balance: int, step: nat, reissued: Option<nat>, plan: Plan, k: Key)
    requires Balanced(w, k) && Fits(w, e, k) && step > 0 && e.deal.Put? && e.invoice.Keep?
    requires e.deal.at < |w.deals| && e.deposit.Put? && e.deposit.at < |w.deposits|
    requires plan == WithReplacement(w, e, balance, step, reissued) && plan.Ok?
    ensures Fits(w, plan.value, k)
  {
  }

  lemma NegativeBalances(w: World, at: nat, sum: int, j: nat, paid: Raw, reissued: Option<nat>, plan: Plan, k: Key)
    requires Valid(w) && at < |w.deposits| && w.deposits[at].purpose.DealTopup? && !w.deposits[at].status.Paid?
    requires w.deposits[at].deal == Some(j) && j < |w.deals| && DealOk(w, w.deals[j])
    requires sum == Quantize(paid, GridOf(w, w.deals[j].currency)) && sum < 0
    requires Bal(w, BuyerKey(w.deals[j])).amount + sum >= 0
    requires plan == SettleTopup(w, at, Some(paid), reissued) && plan.Ok?
    ensures Balanced(Apply(w, plan.value), k)
  {
    var d, step := w.deals[j], GridOf(w, w.deals[j].currency);
    var e := if d.status.PendingTopup? then PartialEffect(w, at, sum, sum, j, d) else LateEffect(w, at, sum, j);
    assert Balanced(w, k);
    CoveredFits(w, at, sum, j, e, k);
    if d.status.PendingTopup? {
      QuantizeNonNegative(Raw(d.commission, 1), step);
      ReplacementBalances(w, e, Bal(w, BuyerKey(d)).amount + sum, step, reissued, plan, k);
    }
    FittingKeepsBalance(w, plan.value, k);
  }

  /** A payment that is not negative keeps everything, whatever was reported. */
  lemma NonNegativeHonest(w: World, at: nat, sum: int, j: nat, paid: Raw, reissued: Option<nat>, plan: Plan)
    requires Valid(w) && at < |w.deposits| && w.deposits[at].purpose.DealTopup? && !w.deposits[at].status.Paid?
    requires w.deposits[at].deal == Some(j) && j < |w.deals| && DealOk(w, w.deals[j])
    requires sum == Quantize(paid, GridOf(w, w.deals[j].currency)) && sum >= 0
    requires plan == SettleTopup(w, at, Some(paid), reissued) && plan.Ok?
    ensures Valid(Apply(w, plan.value))
  {
    assert DepositOk(w, w.deposits[at]);
    assert Balanced(w, BuyerKey(w.deals[j]));
    QuantizeIdempotent(paid, 0, GridOf(w, w.deals[j].currency));
    if w.deals[j].status.PendingTopup? {
      SettlePendingHonest(w, at, sum, j, reissued, plan);
    } else {
      CreditHonest(w, at, LateEffect(w, at, sum, j));
    }
    FittingKeepsValid(w, plan.value);
  }

  /** The row that a settled report writes. */
  lemma SettledAmount(w: World, at: nat, sum: int, j: nat, paid: Raw, reissued: Option<nat>, plan: Plan)
    requires at < |w.deposits| && w.deposits[at].purpose.DealTopup? && !w.deposits[at].status.Paid?
    requires w.deposits[at].deal == Some(j) && j < |w.deals| && w.deals[j].currency in w.currencies
    requires sum == Quantize(paid, GridOf(w, w.deals[j].currency))
    requires plan == SettleTopup(w, at, Some(paid), reissued) && plan.Ok?
    ensures plan.value.deposit == Put.Put(at, w.deposits[at].(status := Paid, paidAmount := Some(sum)))
    ensures plan.value.invoice.Put? ==> plan.value.invoice.at == |w.deposits|
  {
  }

  lemma SettledRowAfter(w: World, at: nat, e: Effect, row: Deposit, after: World)
    requires at < |w.deposits| && e.deposit == Put.Put(at, row) && after == Apply(w, e)
    requires e.invoice.Put? ==> e.invoice.at == |w.deposits|
    ensures at < |after.deposits| && after.deposits[at] == row
  {
  }

  /**
    The accounts stay balanced exactly when the balance covers the report, and the whole
    invariant holds exactly when the report is not negative on the grid: a covered negative
    report breaks nothing but the sign of the paid amount in its own row.
   */
  lemma {:induction false} ReportKeepsBooksIff(w: World, e: Event, at: nat, paid: Raw)
    requires Valid(w) && Reports(w, e, at, Reported.Reported(paid)) && w.deposits[at].purpose.DealTopup?
    requires PlanOf(w, e).Ok?
    ensures w.deposits[at].deal.Some? && w.deposits[at].deal.value < |w.deals|
    ensures var d := w.deals[w.deposits[at].deal.value];
            && ((forall k :: Balanced(Step(w, e), k)) <==> Bal(w, BuyerKey(d)).amount + Worth(w, d, paid) >= 0)
            && (Valid(Step(w, e)) <==> Worth(w, d, paid) >= 0)
  {
    TopupDeal(w, at);
    var plan, j := PlanOf(w, e), w.deposits[at].deal.value;
    var d, sum := w.deals[j], Worth(w, w.deals[j], paid);
    assert Balanced(w, BuyerKey(d));
    ReportPlan(w, e, at, Reported.Reported(paid), plan);
    SettledAmount(w, at, sum, j, paid, e.issued, plan);
    if sum >= 0 {
      NonNegativeHonest(w, at, sum, j, paid, e.issued, plan);
    } else {
      SettledRowAfter(w, at, plan.value, plan.value.deposit.row, Step(w, e));
      assert !DepositOk(Step(w, e), Step(w, e).deposits[at]);
      NegativeReportIff(w, e, at, paid, BuyerKey(d));
      if Bal(w, BuyerKey(d)).amount + sum >= 0 {
        forall k ensures Balanced(Step(w, e), k) {
          NegativeBalances(w, at, sum, j, paid, e.issued, plan, k);
        }
      } else {
        assert !Balanced(Step(w, e), BuyerKey(d));
      }
    }
  }

  // ---------------------------------------------------------- a reachable input

  /** A deal that waits for all of its principal, and a report of minus ten on its invoice. */
  const OVERDRAWN: seq<Event> := [
    EvCreateDealWithTopup(OFFER, Terms(0, -1), Some(0)),
    EvInvoicePaid(true, Some(0), Reported.Reported(Raw(-10, 1)), Some(1))]

  const UNPAID := Deposit(1, 0, 20, CryptoBot, 0, Pending, DealTopup, None, Some(0), 0)
  const WAITING := Deal(1, 2, 0, 20, 0, PendingTopup, CryptoBot, false, TopupFunded, Some(0), false, None, None)

  lemma WaitingPlanned()
    ensures CreateDealWithTopup(START, OFFER, Terms(0, -1), Some(0))
         == Ok(NOTHING.(first := Posting(Key(1, 0), 0, 0, DealLock, FromDeal(None), None, true),
                        deal := Put.Put(0, WAITING), invoice := Put.Put(0, UNPAID)))
  {
    StepSize(START);
    assert FindDeposit(START.deposits, CryptoBot, 0).None?;
    assert Commission(20, 0, 10) == 0;
  }

  lemma DealWaits(w: World)
    requires w == Step(START, OVERDRAWN[0])
    ensures Looks(w, Balance(0, 0), [WAITING], [UNPAID])
  {
    WaitingPlanned();
  }

  lemma ReportAccepted(w: World)
    requires Looks(w, Balance(0, 0), [WAITING], [UNPAID])
    ensures PlanOf(w, OVERDRAWN[1]).Ok? && PlanOf(w, OVERDRAWN[1]).value.second.NoPosting?
    ensures PlanOf(w, OVERDRAWN[1]).value.first
         == Posting(Key(1, 0), -10, 0, TopupPartialCredit, FromDeposit(0), Some(0), true)
  {
    StepSize(w);
    assert FindDeposit(w.deposits, CryptoBot, 0) == Some(0);
    assert FindDeposit(w.deposits, CryptoBot, 1).None?;
    assert Quantize(Raw(-10, 1), 10) == -10;
    assert Remaining(WAITING, -10, 10) == 30;
  }

  lemma ReportTaken(w: World, plan: Plan, after: World)
    requires Looks(w, Balance(0, 0), [WAITING], [UNPAID])
    requires plan == PlanOf(w, OVERDRAWN[1]) && after == Step(w, OVERDRAWN[1])
    ensures Bal(after, Key(1, 0)).amount == -10
  {
    ReportAccepted(w);
    ApplyMovesBalance(w, plan.value, Key(1, 0));
  }

  /** One fair call and one negative report: the buyer's balance is minus ten. */
  lemma ReportOverdraws(now: World)
    requires now == Run(START, OVERDRAWN)
    ensures Fresh(START) && Fair(START, [OVERDRAWN[0]]) && Bal(now, Key(1, 0)).amount == -10
  {
    RunOne(START, OVERDRAWN[0]);
    RunTwo(START, OVERDRAWN[0], OVERDRAWN[1]);
    StartIsFresh();
    StepsOverdraw(Step(START, OVERDRAWN[0]), now);
  }

  lemma StepsOverdraw(w: World, now: World)
    requires w == Step(START, OVERDRAWN[0]) && now == Step(w, OVERDRAWN[1])
    ensures Bal(now, Key(1, 0)).amount == -10
  {
    DealWaits(w);
    ReportTaken(w, PlanOf(w, OVERDRAWN[1]), now);
  }
}
