/**
  On grid balances every waiting deal has an exact invoice; what a payment on it does, and
  when it activates the deal.
 */
module Progress {
  import opened Common
  import opened Money
  import opened Sums
  import opened Tables
  import opened Services
  import opened Books
  import opened Safety
  import opened Deposits
  import opened Settlement
  import opened Topups
  import opened Grid

  /** What deal d needs on top of a balance: the principal gap and the commission still due. */
  function Outstanding(d: Deal, balance: int): int
  {
    Max(0, d.amount - balance) + Due(d)
  }

  lemma RoundsToZero(x: int, step: nat)
    requires step > 0 && x >= 0
    ensures Q(x, step) <= 0 <==> 2 * x <= step
  {
    var q := HalfEven(x, step);
    QuantizeNonNegative(Raw(x, 1), step);
    HalfEvenUnique(x, step, 0);
    if q >= 1 {
      TimesMonotone(1, q, step);
    }
  }

  lemma RemainingOnGrid(w: World, d: Deal, balance: int)
    requires DealOk(w, d) && OnGrid(balance, GridOf(w, d.currency))
    ensures Remaining(d, balance, GridOf(w, d.currency)) == Outstanding(d, balance)
  {
    var step := GridOf(w, d.currency);
    MultipleOnGrid(0, step);
    GridClosed(d.amount, balance, step);
    GridClosed(Max(0, d.amount - balance), Due(d), step);
    QuantizeIdempotent(Raw(0, 1), d.amount, step);
    QuantizeIdempotent(Raw(0, 1), d.commission, step);
    QuantizeIdempotent(Raw(0, 1), Outstanding(d, balance), step);
  }

  predicate Enough(w: World, d: Deal, sum: int)
  {
    sum >= Due(d) && Spendable(w, d) + (sum - Due(d)) >= d.amount
  }

  function CreditOf(d: Deal, sum: int): int
  {
    if sum < Due(d) then sum else sum - Due(d)
  }

  /** What is outstanding after a payment that does not suffice. */
  lemma OutstandingAfter(w: World, j: nat, sum: int)
    requires j < |w.deals| && DealOk(w, w.deals[j]) && sum >= 0 && !Enough(w, w.deals[j], sum)
    ensures var d := w.deals[j];
            var before, gap := Outstanding(d, Spendable(w, d)), Max(0, d.amount - Spendable(w, d));
            var after := Outstanding(Marked(d, 0 < Due(d) <= sum), Spendable(w, d) + CreditOf(d, sum));
            after > 0 && after == before - (if sum < Due(d) then Min(sum, gap) else sum)
  {
  }

  /** Attaching an invoice for a positive remainder fails only if the provider or its id does. */
  lemma ReplacementPlan(w: World, e: Effect, balance: int, step: nat, reissued: Option<nat>, plan: Plan)
    requires step > 0 && e.deal.Put? && Remaining(e.deal.row, balance, step) > 0
    requires plan == WithReplacement(w, e, balance, step, reissued)
    ensures plan.Ok? <==> reissued.Some? && FindDeposit(w.deposits, e.deal.row.provider, reissued.value).None?
    ensures plan.Ok? ==>
              && plan.value.first == e.first && plan.value.deal.Put?
              && plan.value.deal.row == e.deal.row.(topup := Some(|w.deposits|))
              && plan.value.invoice.Put? && plan.value.invoice.row.status.Pending?
              && plan.value.invoice.row.deal == Some(e.deal.at) && plan.value.invoice.row.seen == balance
              && plan.value.invoice.row.amount == Remaining(e.deal.row, balance, step)
  {
  }

  /**
    What follows a payment that leaves deal j short: a non-empty invoice for exactly what is
    still outstanding, unless the provider or its invoice id prevents it.
   */
  ghost predicate Reinvoices(w: World, j: nat, sum: int, reissued: Option<nat>, plan: Plan)
    requires j < |w.deals|
  {
    var d := w.deals[j];
    var before, gap := Outstanding(d, Spendable(w, d)), Max(0, d.amount - Spendable(w, d));
    && (plan.Ok? <==> reissued.Some? && FindDeposit(w.deposits, d.provider, reissued.value).None?)
    && (plan.Ok? ==>
          var e := plan.value;
          && e.deal.Put? && e.deal.row == Marked(d, 0 < Due(d) <= sum).(topup := Some(|w.deposits|)) && e.first.Posting?
          && e.invoice.Put? && e.invoice.row.status.Pending? && e.invoice.row.deal == Some(j)
          && e.invoice.row.amount > 0
          && e.invoice.row.amount == before - (if sum < Due(d) then Min(sum, gap) else sum)
          && e.invoice.row.amount == Outstanding(e.deal.row, e.invoice.row.seen)
          && e.invoice.row.seen == Spendable(w, d) + e.first.amount)
  }

  /** A payment that leaves the deal short, on a grid balance, is followed by an exact new invoice. */
  lemma ShortPaymentReinvoices(w: World, at: nat, sum: int, j: nat, reissued: Option<nat>, plan: Plan)
    requires Valid(w) && Settles(w, at, sum, j, reissued, plan) && !Enough(w, w.deals[j], sum)
    requires GridBalance(w, BuyerKey(w.deals[j]))
    ensures Reinvoices(w, j, sum, reissued, plan)
  {
    if sum < Due(w.deals[j]) {
      BelowFeeReinvoices(w, at, sum, j, reissued, plan);
    } else {
      FeeTakenReinvoices(w, at, sum, j, reissued, plan);
    }
  }

  lemma BelowFeeReinvoices(w: World, at: nat, sum: int, j: nat, reissued: Option<nat>, plan: Plan)
    requires Valid(w) && Settles(w, at, sum, j, reissued, plan) && GridBalance(w, BuyerKey(w.deals[j]))
    requires sum < Due(w.deals[j])
    ensures Reinvoices(w, j, sum, reissued, plan)
  {
    var d := w.deals[j];
    var e, balance := PartialEffect(w, at, sum, sum, j, d), Spendable(w, d) + sum;
    SettleBelowFee(w, at, sum, j, e, balance, GridOf(w, d.currency), reissued, plan);
    ShortReplaced(w, at, sum, j, e, balance, GridOf(w, d.currency), reissued, plan);
  }

  lemma FeeTakenReinvoices(w: World, at: nat, sum: int, j: nat, reissued: Option<nat>, plan: Plan)
    requires Valid(w) && Settles(w, at, sum, j, reissued, plan) && GridBalance(w, BuyerKey(w.deals[j]))
    requires sum >= Due(w.deals[j]) && !Enough(w, w.deals[j], sum)
    ensures Reinvoices(w, j, sum, reissued, plan)
  {
    var d := w.deals[j];
    var e, balance := PartialEffect(w, at, sum, sum - Due(d), j, Marked(d, Due(d) > 0)),
        Spendable(w, d) + (sum - Due(d));
    SettleShort(w, at, sum, j, e, balance, GridOf(w, d.currency), reissued, plan);
    ShortReplaced(w, at, sum, j, e, balance, GridOf(w, d.currency), reissued, plan);
  }

  /** The same from the plan alone: e is the payment, `balance` what the buyer then has. */
  lemma ShortReplaced(w: World, at: nat, sum: int, j: nat, e: Effect, balance: int, step: nat, reissued: Option<nat>,
                      plan: Plan)
    requires at < |w.deposits| && j < |w.deals| && DealOk(w, w.deals[j]) && sum >= 0 && !Enough(w, w.deals[j], sum)
    requires step == GridOf(w, w.deals[j].currency) && OnGrid(sum, step) && GridBalance(w, BuyerKey(w.deals[j]))
    requires balance == Spendable(w, w.deals[j]) + CreditOf(w.deals[j], sum)
    requires e.deal.Put? && e.deal.at == j && e.deal.row == Marked(w.deals[j], 0 < Due(w.deals[j]) <= sum)
    requires e.first.Posting? && e.first.amount == CreditOf(w.deals[j], sum)
    requires plan == WithReplacement(w, e, balance, step, reissued)
    ensures Reinvoices(w, j, sum, reissued, plan)
  {
    CreditStaysOnGrid(w, j, sum);
    RemainingOnGrid(w, e.deal.row, balance);
    OutstandingAfter(w, j, sum);
    ReplacementPlan(w, e, balance, step, reissued, plan);
  }

  lemma CreditStaysOnGrid(w: World, j: nat, sum: int)
    requires j < |w.deals| && DealOk(w, w.deals[j]) && GridBalance(w, BuyerKey(w.deals[j]))
    requires OnGrid(sum, GridOf(w, w.deals[j].currency))
    ensures var d := w.deals[j]; OnGrid(Spendable(w, d) + CreditOf(d, sum), GridOf(w, d.currency))
  {
    var d, step := w.deals[j], GridOf(w, w.deals[j].currency);
    GridClosed(sum, d.commission, step);
    GridClosed(Spendable(w, d), CreditOf(d, sum), step);
  }

  /**
    Without the grid the replacement can be missing: exactly when the commission is covered
    and the principal gap rounds to nothing.
   */
  lemma NoReplacementIff(w: World, at: nat, sum: int, j: nat, reissued: Option<nat>, plan: Plan)
    requires Valid(w) && Settles(w, at, sum, j, reissued, plan) && !Enough(w, w.deals[j], sum)
    ensures var d := w.deals[j];
            plan.Ok? && plan.value.invoice.Keep? <==>
              sum >= Due(d) && 2 * (d.amount - (Spendable(w, d) + sum - Due(d))) <= GridOf(w, d.currency)
  {
    if sum < Due(w.deals[j]) {
      BelowFeeReplaced(w, at, sum, j, reissued, plan);
    } else {
      FeeTakenReplacedIff(w, at, sum, j, reissued, plan);
    }
  }

  lemma BelowFeeReplaced(w: World, at: nat, sum: int, j: nat, reissued: Option<nat>, plan: Plan)
    requires Valid(w) && Settles(w, at, sum, j, reissued, plan) && sum < Due(w.deals[j])
    ensures !(plan.Ok? && plan.value.invoice.Keep?)
  {
    var d, step := w.deals[j], GridOf(w, w.deals[j].currency);
    var e, balance := PartialEffect(w, at, sum, sum, j, d), Spendable(w, d) + sum;
    SettleBelowFee(w, at, sum, j, e, balance, step, reissued, plan);
    NotReplacedIff(w, e, balance, step, reissued, plan);
    StoredOnGrid(w, j);
    NothingRemainsIff(d, balance, step);
  }

  lemma FeeTakenReplacedIff(w: World, at: nat, sum: int, j: nat, reissued: Option<nat>, plan: Plan)
    requires Valid(w) && Settles(w, at, sum, j, reissued, plan) && sum >= Due(w.deals[j]) && !Enough(w, w.deals[j], sum)
    ensures var d := w.deals[j];
            plan.Ok? && plan.value.invoice.Keep? <==>
              2 * (d.amount - (Spendable(w, d) + sum - Due(d))) <= GridOf(w, d.currency)
  {
    var d, step := w.deals[j], GridOf(w, w.deals[j].currency);
    var d1, balance := Marked(d, Due(d) > 0), Spendable(w, d) + (sum - Due(d));
    var e := PartialEffect(w, at, sum, sum - Due(d), j, d1);
    SettleShort(w, at, sum, j, e, balance, step, reissued, plan);
    NotReplacedIff(w, e, balance, step, reissued, plan);
    StoredOnGrid(w, j);
    NothingRemainsIff(d1, balance, step);
  }

  lemma NotReplacedIff(w: World, e: Effect, balance: int, step: nat, reissued: Option<nat>, plan: Plan)
    requires step > 0 && e.deal.Put? && e.invoice.Keep? && plan == WithReplacement(w, e, balance, step, reissued)
    ensures plan.Ok? && plan.value.invoice.Keep? <==> Remaining(e.deal.row, balance, step) <= 0
  {
  }

  /** Nothing remains to be invoiced exactly when no commission is due and the gap rounds to nothing. */
  lemma NothingRemainsIff(d: Deal, balance: int, step: nat)
    requires step > 0 && Q(d.amount, step) == d.amount && Q(d.commission, step) == d.commission && d.commission >= 0
    ensures Remaining(d, balance, step) <= 0 <==> Due(d) == 0 && 2 * Max(0, d.amount - balance) <= step
  {
    var gap := Max(0, d.amount - balance);
    RoundsToZero(gap, step);
    QuantizeNearAndMonotone(Raw(d.commission, 1), Raw(gap + d.commission, 1), step);
  }

  lemma PriceIsZeroIff(gap: int, fee: int, step: nat)
    requires step > 0 && gap >= 0 && fee >= 0 && OnGrid(fee, step)
    ensures Q(Q(gap, step) + fee, step) <= 0 <==> fee == 0 && 2 * gap <= step
  {
    var q := Q(gap, step);
    RoundsToZero(gap, step);
    QuantizeNonNegative(Raw(gap, 1), step);
    QuantizeIdempotent(Raw(gap, 1), fee, step);
    QuantizeNearAndMonotone(Raw(fee, 1), Raw(q + fee, 1), step);
  }

  /** The invoice price of a new deal is refused as too small exactly when it rounds to nothing. */
  lemma TooSmallIff(w: World, o: Offer, terms: Terms, issued: Option<nat>)
    requires Principal(w, o).Ok?
    ensures var amount := Principal(w, o).value;
            var fee, short := Fee(w, o, terms, amount), amount - Bal(w, Key(o.buyer, o.currency)).amount;
            CreateDealWithTopup(w, o, terms, issued) == Err(CommissionTooSmall) <==>
              fee == 0 && 0 < 2 * short <= GridOf(w, o.currency)
  {
    var amount, step := Principal(w, o).value, GridOf(w, o.currency);
    var fee := Fee(w, o, terms, amount);
    var short := amount - Bal(w, Key(o.buyer, o.currency)).amount;
    PriceOnGrid(w, o, terms);
    var needed, total := Q(amount + fee, step), Q(Q(Max(0, short), step) + fee, step);
    PricedPlan(w, o, terms, issued, amount, fee, needed, total);
    PriceIsZeroIff(Max(0, short), fee, step);
    TooSmallPlan(w, o, amount, fee, needed, total, issued);
  }

  lemma TooSmallPlan(w: World, o: Offer, amount: int, fee: int, needed: int, total: int, issued: Option<nat>)
    ensures OpenPriced(w, o, amount, fee, needed, total, issued) == Err(CommissionTooSmall) <==>
              Bal(w, Key(o.buyer, o.currency)).amount < needed && total <= 0
  {
  }

  // ------------------------------------------------- every payment is a settlement

  /** The call that a paid notice or a poll ends in. */
  lemma CreditingCall(w: World, e: Event, plan: Plan) returns (at: nat, paid: Option<Raw>, reissued: Option<nat>)
    requires OnDeposit(e) && Assumed(w, e) && plan == PlanOf(w, e) && plan.Ok?
    requires plan.value.deposit.Put? && plan.value.deposit.row.status.Paid?
    ensures at < |w.deposits| && plan == CreditDeposit(w, at, paid, reissued)
    ensures plan.value.deposit.at == at && NotNegative(paid)
  {
    match e
    case EvInvoicePaid(_, n, r, i) =>
      at, reissued := FindDeposit(w.deposits, CryptoBot, n.value).value, i;
      paid := if r.Reported? then Some(r.value) else None;
    case EvCrystalpayNotice(n, _, r, i) =>
      at, reissued := FindDeposit(w.deposits, Crystalpay, n.value).value, i;
      paid := if r.Reported? then Some(r.value) else None;
    case EvPollPaid(p, i) =>
      at, paid, reissued := p, None, i;
    case EvInvoiceExpired(n) => assert false;
    case EvExpireDeposit(p) => assert false;
  }

  lemma CreditSettles(w: World, at: nat, paid: Option<Raw>, j: nat, reissued: Option<nat>, plan: Plan)
    requires Valid(w) && at < |w.deposits| && LinkedTo(w.deposits[at], j) && !w.deposits[at].status.Paid?
    requires NotNegative(paid) && plan == CreditDeposit(w, at, paid, reissued)
    requires j < |w.deals| && w.deals[j].status.PendingTopup?
    ensures w.deposits[at].currency in w.currencies && Settles(w, at, PaidSum(w, at, paid), j, reissued, plan)
  {
    PaidSumFacts(w, at, paid);
    assert DealOk(w, w.deals[j]);
  }

  // ------------------------------------------------------- the invoice is exact

  /** The invoice of a waiting deal is unpaid and asks for exactly what was outstanding when it was issued. */
  ghost predicate Invoiced(w: World, j: nat)
  {
    IsTopup(w, j) && w.deals[j].status.PendingTopup? ==>
      var d := w.deals[j];
      && d.topup.Some? && d.topup.value < |w.deposits|
      && var p := w.deposits[d.topup.value];
         !p.status.Paid? && p.amount == Outstanding(d, p.seen)
  }

  lemma QuietInvoiced(w: World, j: nat, e: Effect, after: World)
    requires Invoiced(w, j) && j < |w.deals| && PaysNothing(w, Ok(e)) && after == Apply(w, e)
    ensures Invoiced(after, j)
  {
    QuietDeals(w, j, Ok(e), after);
    if IsTopup(after, j) && after.deals[j].status.PendingTopup? {
      var t := w.deals[j].topup.value;
      assert after.deals[j].topup == w.deals[j].topup;
      QuietLinks(w, e, after);
      assert after.deposits[t].amount == w.deposits[t].amount && after.deposits[t].seen == w.deposits[t].seen;
    }
  }

  lemma NewInvoiced(w: World, j: nat, e: Event, plan: Plan, after: World)
    requires Valid(w) && j >= |w.deals| && plan == PlanOf(w, e) && plan.Ok? && after == Apply(w, plan.value)
    requires PaysNothing(w, plan) && forall k :: GridBalance(w, k)
    ensures Invoiced(after, j)
  {
    var eff := plan.value;
    if eff.deal.Put? && eff.deal.at == j && eff.deal.row.origin.TopupFunded? {
      OnlyTopupOpens(w, e, plan);
      OpeningInvoiced(w, e.offer, e.terms, e.issued, eff, after);
    }
  }

  lemma OnlyTopupOpens(w: World, e: Event, plan: Plan)
    requires Valid(w) && plan == PlanOf(w, e) && plan.Ok? && PaysNothing(w, plan)
    requires plan.value.deal.Put? && plan.value.deal.at >= |w.deals| && plan.value.deal.row.origin.TopupFunded?
    ensures e.EvCreateDealWithTopup? && plan == CreateDealWithTopup(w, e.offer, e.terms, e.issued)
    ensures plan.value.invoice.Put?
  {
  }

  lemma OpeningInvoiced(w: World, o: Offer, terms: Terms, issued: Option<nat>, e: Effect, after: World)
    requires Valid(w) && CreateDealWithTopup(w, o, terms, issued) == Ok(e) && e.invoice.Put? && after == Apply(w, e)
    requires GridBalance(w, Key(o.buyer, o.currency))
    ensures Invoiced(after, |w.deals|)
  {
    CreatedIsPriced(w, o, terms, issued);
    PriceOnGrid(w, o, terms);
    var amount := Principal(w, o).value;
    var fee := Fee(w, o, terms, amount);
    var total := PriceOf(w, o, amount, fee);
    CreateWaitingPlan(w, o, terms, issued, amount, fee, total, e);
    PriceExact(amount, Bal(w, Key(o.buyer, o.currency)).amount, fee, GridOf(w, o.currency));
    OpenedInvoiced(w, o, amount, fee, total, e, after);
  }

  lemma OpenedInvoiced(w: World, o: Offer, amount: int, fee: int, total: int, e: Effect, after: World)
    requires e.deal == Put(|w.deals|, WaitingDeal(w, o, fee, amount)) && e.invoice.Put? && e.invoice.at == |w.deposits|
    requires e.deposit.Keep? && e.invoice.row.status.Pending? && e.invoice.row.amount == total
    requires e.invoice.row.seen == Bal(w, Key(o.buyer, o.currency)).amount
    requires total == Outstanding(e.deal.row, e.invoice.row.seen) && after == Apply(w, e)
    ensures Invoiced(after, |w.deals|)
  {
  }

  /** On the grid an invoice asks for the gap and the fee, to the quantum. */
  lemma PriceExact(amount: int, balance: int, fee: int, step: nat)
    requires step > 0 && OnGrid(amount, step) && OnGrid(balance, step) && OnGrid(fee, step)
    ensures Q(Q(Max(0, amount - balance), step) + fee, step) == Max(0, amount - balance) + fee
  {
    MultipleOnGrid(0, step);
    GridClosed(amount, balance, step);
    GridClosed(Max(0, amount - balance), fee, step);
    QuantizeIdempotent(Raw(0, 1), Max(0, amount - balance), step);
    QuantizeIdempotent(Raw(0, 1), Max(0, amount - balance) + fee, step);
  }

  lemma ElsewhereInvoiced(w: World, j: nat, e: Effect, after: World)
    requires Paired(w, j) && Invoiced(w, j) && PaysOnce(w, Ok(e)) && after == Apply(w, e)
    requires !(e.deposit.Put? && e.deposit.row.deal == Some(j))
    ensures Invoiced(after, j)
  {
    if j < |w.deals| {
      DealRowAfter(w, j, e, after);
      PayingLinks(w, e, after);
      if IsTopup(w, j) && w.deals[j].status.PendingTopup? {
        var t := w.deals[j].topup.value;
        assert LinkedTo(w.deposits[t], j);
        assert after.deposits[t] == w.deposits[t];
      }
    }
  }

  lemma PayingInvoiced(w: World, j: nat, e: Event, plan: Plan, after: World)
    requires Valid(w) && Assumed(w, e) && Paired(w, j) && Invoiced(w, j) && GridWithdrawals(w)
    requires OnDeposit(e) && plan == PlanOf(w, e) && plan.Ok? && after == Apply(w, plan.value)
    requires plan.value.deposit.Put? && plan.value.deposit.row.deal == Some(j)
    ensures Invoiced(after, j)
  {
    var eff := plan.value;
    var at := eff.deposit.at;
    assert DepositOk(w, w.deposits[at]);
    DealRowAfter(w, j, eff, after);
    PayingLinks(w, eff, after);
    if w.deals[j].status.PendingTopup? {
      OutstandingOnly(w, j, at);
      if eff.deposit.row.status.Paid? {
        PaidInvoiced(w, j, e, plan, after);
      }
    }
  }

  /** The outstanding invoice of a waiting deal is paid. */
  lemma PaidInvoiced(w: World, j: nat, e: Event, plan: Plan, after: World)
    requires Valid(w) && Assumed(w, e) && GridWithdrawals(w) && OnDeposit(e) && plan == PlanOf(w, e) && plan.Ok?
    requires after == Apply(w, plan.value) && plan.value.deposit.Put? && plan.value.deposit.row.status.Paid?
    requires j < |w.deals| && w.deals[j].status.PendingTopup?
    requires plan.value.deposit.at < |w.deposits| && !w.deposits[plan.value.deposit.at].status.Paid?
    requires LinkedTo(w.deposits[plan.value.deposit.at], j)
    ensures Invoiced(after, j)
  {
    var at, paid, reissued := CreditingCall(w, e, plan);
    CreditSettles(w, at, paid, j, reissued, plan);
    SettlingInvoiced(w, at, PaidSum(w, at, paid), j, reissued, plan, after);
  }

  lemma SettlingInvoiced(w: World, at: nat, sum: int, j: nat, reissued: Option<nat>, plan: Plan, after: World)
    requires Valid(w) && Settles(w, at, sum, j, reissued, plan) && GridWithdrawals(w)
    requires plan.Ok? && after == Apply(w, plan.value)
    ensures Invoiced(after, j)
  {
    if Enough(w, w.deals[j], sum) {
      SettleEnough(w, at, sum, j, reissued, plan);
    } else {
      BalancesOnGrid(w, BuyerKey(w.deals[j]));
      ShortPaymentReinvoices(w, at, sum, j, reissued, plan);
    }
  }

  lemma StepInvoiced(w: World, e: Event, j: nat, plan: Plan, after: World)
    requires Valid(w) && Assumed(w, e) && Paired(w, j) && Invoiced(w, j) && GridWithdrawals(w)
    requires plan == PlanOf(w, e) && plan.Ok? && after == Apply(w, plan.value)
    ensures Invoiced(after, j)
  {
    if OnDeposit(e) {
      if plan.value.deposit.Put? && plan.value.deposit.row.deal == Some(j) {
        PayingInvoiced(w, j, e, plan, after);
      } else {
        ElsewhereInvoiced(w, j, plan.value, after);
      }
    } else if j < |w.deals| {
      QuietInvoiced(w, j, plan.value, after);
    } else {
      forall k ensures GridBalance(w, k) {
        BalancesOnGrid(w, k);
      }
      NewInvoiced(w, j, e, plan, after);
    }
  }

  /** In every state of a run on the grid, each waiting deal has one unpaid invoice, for the exact amount. */
  lemma {:induction false} InvoicesAreExact(w: World, events: seq<Event>, j: nat)
    requires Fresh(w) && Fair(w, events) && GridRun(w, events)
    ensures Invoiced(Run(w, events), j)
  {
    if events != [] {
      var n := |events| - 1;
      var before := Run(w, events[..n]);
      InvoicesAreExact(w, events[..n], j);
      DealsStayPaired(w, events[..n], j);
      BooksAlwaysBalance(w, events[..n]);
      GridKept(w, events[..n]);
      if PlanOf(before, events[n]).Ok? {
        StepInvoiced(before, events[n], j, PlanOf(before, events[n]), Run(w, events));
      }
    }
  }

  // ------------------------------------------------------------------ progress

  /** The call says that deposit t has been paid; a notice whose amount is not a finite number aborts. */
  predicate PaysFor(w: World, t: nat, e: Event)
    requires t < |w.deposits|
  {
    var p := w.deposits[t];
    match e
    case EvInvoicePaid(paid, n, r, _) => paid && p.provider.CryptoBot? && n == Some(p.invoice) && !r.NonFinite?
    case EvCrystalpayNotice(n, s, r, _) =>
      s.Payed? && p.provider.Crystalpay? && n == Some(p.invoice) && !r.NonFinite?
    case EvPollPaid(at, _) => at == t
    case _ => false
  }

  /** The sum it counts for: a poll, or a notice with an unreadable amount, counts as the invoiced amount. */
  function PaidBy(w: World, t: nat, e: Event): int
    requires t < |w.deposits| && w.deposits[t].currency in w.currencies && PaysFor(w, t, e)
  {
    if !e.EvPollPaid? && e.reported.Reported? then Quantize(e.reported.value, GridOf(w, w.deposits[t].currency))
    else w.deposits[t].amount
  }

  predicate PaysInFull(w: World, t: nat, e: Event)
    requires t < |w.deposits| && w.deposits[t].currency in w.currencies
  {
    PaysFor(w, t, e) && PaidBy(w, t, e) >= w.deposits[t].amount
  }

  /** A CryptoBot notice is taken in any unpaid status; Crystalpay notices and polls only while the row is pending. */
  predicate Admits(w: World, t: nat, e: Event)
    requires t < |w.deposits|
  {
    e.EvInvoicePaid? || w.deposits[t].status.Pending?
  }

  /** A call that is let through reaches credit_deposit with the sum it counts for. */
  lemma AdmittedCall(w: World, t: nat, e: Event, plan: Plan) returns (paid: Option<Raw>, reissued: Option<nat>)
    requires Assumed(w, e) && t < |w.deposits| && DepositOk(w, w.deposits[t]) && InvoicesDistinct(w.deposits)
    requires w.deposits[t].purpose.DealTopup? && !w.deposits[t].status.Paid?
    requires PaysFor(w, t, e) && Admits(w, t, e) && plan == PlanOf(w, e)
    ensures plan == CreditDeposit(w, t, paid, reissued) && NotNegative(paid)
    ensures PaidSum(w, t, paid) == PaidBy(w, t, e)
  {
    InvoiceFound(w.deposits, t);
    QuantizeIdempotent(Raw(0, 1), w.deposits[t].amount, GridOf(w, w.deposits[t].currency));
    match e
    case EvInvoicePaid(_, _, r, i) =>
      paid, reissued := if r.Reported? then Some(r.value) else None, i;
    case EvCrystalpayNotice(_, _, r, i) =>
      paid, reissued := if r.Reported? then Some(r.value) else None, i;
    case EvPollPaid(_, i) =>
      paid, reissued := None, i;
  }

  /** A call that is not let through changes nothing. */
  lemma RefusedCall(w: World, t: nat, e: Event)
    requires t < |w.deposits| && InvoicesDistinct(w.deposits) && PaysFor(w, t, e) && !Admits(w, t, e)
    ensures Step(w, e) == w
  {
    InvoiceFound(w.deposits, t);
    assert Apply(w, NOTHING) == w;
  }

  lemma FullIsEnough(w: World, d: Deal, sum: int, seen: int)
    requires DealOk(w, d) && sum >= Outstanding(d, seen) && Spendable(w, d) >= seen
    ensures Enough(w, d, sum)
  {
  }

  /** What activation does to the deal, the invoice and the buyer's balance. */
  ghost predicate ActivatedBy(w: World, j: nat, t: nat, sum: int, after: World)
    requires j < |w.deals| && t < |w.deposits|
  {
    var d := w.deals[j];
    var b := Bal(w, BuyerKey(d));
    && |after.deals| == |w.deals| && |after.deposits| == |w.deposits|
    && after.deals[j] == d.(status := PendingConfirmation, commissionPaid := true)
    && after.deposits[t] == w.deposits[t].(status := Paid, paidAmount := Some(sum))
    && Bal(after, BuyerKey(d)) == Balance(b.amount + sum - Due(d) - d.amount, b.locked + d.amount)
  }

  lemma EnoughActivates(w: World, t: nat, sum: int, j: nat, after: World)
    requires t < |w.deposits| && j < |w.deals|
    requires after == Apply(w, ActivateEffect(w, t, sum, sum - Due(w.deals[j]), w.deals[j].amount, j))
    ensures ActivatedBy(w, j, t, sum, after)
  {
    ApplyMovesBalance(w, ActivateEffect(w, t, sum, sum - Due(w.deals[j]), w.deals[j].amount, j), BuyerKey(w.deals[j]));
  }

  lemma ReplacementWaits(w: World, e: Effect, balance: int, step: nat, reissued: Option<nat>, plan: Plan)
    requires step > 0 && e.deal.Put? && plan == WithReplacement(w, e, balance, step, reissued) && plan.Ok?
    ensures plan.value.deal.Put? && plan.value.deal.at == e.deal.at
    ensures plan.value.deal.row.status == e.deal.row.status
  {
  }

  /** A payment that does not suffice leaves the deal waiting. */
  lemma ShortWaits(w: World, at: nat, sum: int, j: nat, reissued: Option<nat>, plan: Plan)
    requires Valid(w) && Settles(w, at, sum, j, reissued, plan) && !Enough(w, w.deals[j], sum) && plan.Ok?
    ensures plan.value.deal.Put? && plan.value.deal.at == j && plan.value.deal.row.status.PendingTopup?
  {
    var d, step := w.deals[j], GridOf(w, w.deals[j].currency);
    if sum < Due(d) {
      var e, balance := PartialEffect(w, at, sum, sum, j, d), Spendable(w, d) + sum;
      SettleBelowFee(w, at, sum, j, e, balance, step, reissued, plan);
      ReplacementWaits(w, e, balance, step, reissued, plan);
    } else {
      var e, balance := PartialEffect(w, at, sum, sum - Due(d), j, Marked(d, Due(d) > 0)),
          Spendable(w, d) + (sum - Due(d));
      SettleShort(w, at, sum, j, e, balance, step, reissued, plan);
      ReplacementWaits(w, e, balance, step, reissued, plan);
    }
  }

  /** A deal that waits for deposit t, its outstanding invoice. */
  ghost predicate WaitsFor(w: World, j: nat, t: nat)
  {
    && IsTopup(w, j) && w.deals[j].status.PendingTopup? && w.deals[j].topup == Some(t) && t < |w.deposits|
    && LinkedTo(w.deposits[t], j) && !w.deposits[t].status.Paid? && DepositOk(w, w.deposits[t])
  }

  lemma AdmittedSettles(w: World, j: nat, t: nat, e: Event, plan: Plan) returns (reissued: Option<nat>)
    requires Valid(w) && Assumed(w, e) && WaitsFor(w, j, t) && PaysFor(w, t, e) && Admits(w, t, e)
    requires plan == PlanOf(w, e)
    ensures Settles(w, t, PaidBy(w, t, e), j, reissued, plan)
  {
    var paid, r := AdmittedCall(w, t, e, plan);
    CreditSettles(w, t, paid, j, r, plan);
    reissued := r;
  }

  /**
    A call that reports a payment on the outstanding invoice of a waiting deal activates it
    exactly when it is let through and its sum suffices; one that is refused changes nothing.
   */
  lemma PaymentActivatesIff(w: World, j: nat, t: nat, e: Event)
    requires Valid(w) && Assumed(w, e) && WaitsFor(w, j, t) && PaysFor(w, t, e)
    ensures ActivatedBy(w, j, t, PaidBy(w, t, e), Step(w, e))
            <==> Admits(w, t, e) && Enough(w, w.deals[j], PaidBy(w, t, e))
    ensures !Admits(w, t, e) ==> Step(w, e) == w
  {
    if Admits(w, t, e) {
      var plan, sum := PlanOf(w, e), PaidBy(w, t, e);
      var reissued := AdmittedSettles(w, j, t, e, plan);
      AdmittedActivatesIff(w, j, t, sum, reissued, plan, Step(w, e));
    } else {
      RefusedCall(w, t, e);
    }
  }

  lemma AdmittedActivatesIff(w: World, j: nat, t: nat, sum: int, reissued: Option<nat>, plan: Plan, after: World)
    requires Valid(w) && Settles(w, t, sum, j, reissued, plan)
    requires after == if plan.Ok? then Apply(w, plan.value) else w
    ensures ActivatedBy(w, j, t, sum, after) <==> Enough(w, w.deals[j], sum)
  {
    if Enough(w, w.deals[j], sum) {
      SettleEnough(w, t, sum, j, reissued, plan);
      EnoughActivates(w, t, sum, j, after);
    } else if plan.Ok? {
      ShortWaits(w, t, sum, j, reissued, plan);
    }
  }

  /**
    Paying the outstanding invoice in full, with the balance not below what it was computed
    from, activates the deal exactly when the call is let through, and else changes nothing.
   */
  lemma FullPaymentActivatesIff(w: World, j: nat, t: nat, e: Event)
    requires Valid(w) && Assumed(w, e) && WaitsFor(w, j, t) && Invoiced(w, j) && PaysInFull(w, t, e)
    requires Spendable(w, w.deals[j]) >= w.deposits[t].seen
    ensures ActivatedBy(w, j, t, PaidBy(w, t, e), Step(w, e)) <==> Admits(w, t, e)
    ensures !Admits(w, t, e) ==> Step(w, e) == w
  {
    assert DealOk(w, w.deals[j]);
    FullIsEnough(w, w.deals[j], PaidBy(w, t, e), w.deposits[t].seen);
    PaymentActivatesIff(w, j, t, e);
  }

  /**
    In every state of a run on the grid, every waiting deal has its outstanding invoice, and
    paying it does what that says.
   */
  lemma FullPaymentsOnGrid(w: World, events: seq<Event>, j: nat, e: Event)
    requires Fresh(w) && Fair(w, events) && GridRun(w, events) && Assumed(Run(w, events), e)
    requires IsTopup(Run(w, events), j) && Run(w, events).deals[j].status.PendingTopup?
    ensures var now := Run(w, events);
            var d := now.deals[j];
            && d.topup.Some? && WaitsFor(now, j, d.topup.value)
            && (PaysInFull(now, d.topup.value, e) && Spendable(now, d) >= now.deposits[d.topup.value].seen ==>
                  if Admits(now, d.topup.value, e)
                  then ActivatedBy(now, j, d.topup.value, PaidBy(now, d.topup.value, e), Step(now, e))
                  else Step(now, e) == now)
  {
    var now := Run(w, events);
    BooksAlwaysBalance(w, events);
    DealsStayPaired(w, events, j);
    InvoicesAreExact(w, events, j);
    var t := now.deals[j].topup.value;
    assert DepositOk(now, now.deposits[t]);
    if PaysInFull(now, t, e) && Spendable(now, now.deals[j]) >= now.deposits[t].seen {
      FullPaymentActivatesIff(now, j, t, e);
    }
  }
}
