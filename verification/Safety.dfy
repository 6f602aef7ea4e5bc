/** Every service call keeps the books, so they hold in every reachable state. */
module Safety {
  import opened Common
  import opened Money
  import opened Sums
  import opened Tables
  import opened Services
  import opened Books

  /** The effect writes valid rows and posts exactly what they say. */
  ghost predicate Honest(w: World, e: Effect)
  {
    RowsFit(w, e) && forall k :: Fits(w, e, k)
  }

  function Spendable(w: World, d: Deal): int
  {
    Bal(w, BuyerKey(d)).amount
  }

  /** Quantising a stored principal or commission gives it back. */
  lemma StoredOnGrid(w: World, deal: nat)
    requires Valid(w) && deal < |w.deals|
    ensures DealOk(w, w.deals[deal])
    ensures Q(w.deals[deal].amount, GridOf(w, w.deals[deal].currency)) == w.deals[deal].amount
    ensures Q(w.deals[deal].commission, GridOf(w, w.deals[deal].currency)) == w.deals[deal].commission
  {
    var d := w.deals[deal];
    assert DealOk(w, d);
    QuantizeIdempotent(Raw(0, 1), d.amount, GridOf(w, d.currency));
    QuantizeIdempotent(Raw(0, 1), d.commission, GridOf(w, d.currency));
  }

  lemma RefundFits(w: World, deal: nat, closed: DealStatus, bump: Bump, k: Key)
    requires Valid(w) && deal < |w.deals| && Holding(w.deals[deal].status) && !Holding(closed) && !PaidOut(closed)
    requires !closed.PendingTopup?
    ensures Refund(w, deal, closed, bump).Ok? && Fits(w, Refund(w, deal, closed, bump).value, k)
  {
    StoredOnGrid(w, deal);
    LockCoversDeal(w, deal);
    assert Balanced(w, k);
  }

  lemma RefundHonest(w: World, deal: nat, closed: DealStatus, bump: Bump)
    requires Valid(w) && deal < |w.deals| && Holding(w.deals[deal].status)
    requires if w.deals[deal].status.Arbitration? then closed.ResolvedForBuyer?
             else closed.Cancelled? || closed.CancelledForInactivity?
    ensures Refund(w, deal, closed, bump).Ok? && Honest(w, Refund(w, deal, closed, bump).value)
  {
    var plan := Refund(w, deal, closed, bump);
    assert DealOk(w, w.deals[deal]);
    RefundRowFits(w, deal, closed, bump, plan.value);
    forall k ensures Fits(w, plan.value, k) {
      RefundFits(w, deal, closed, bump, k);
    }
  }

  lemma RefundRowFits(w: World, deal: nat, closed: DealStatus, bump: Bump, e: Effect)
    requires deal < |w.deals| && Holding(w.deals[deal].status) && DealOk(w, w.deals[deal])
    requires if w.deals[deal].status.Arbitration? then closed.ResolvedForBuyer?
             else closed.Cancelled? || closed.CancelledForInactivity?
    requires Refund(w, deal, closed, bump) == Ok(e)
    ensures RowsFit(w, e)
  {
    ApplyKeepsUsers(w, e);
    ClosedRowOk(w, Apply(w, e), w.deals[deal], closed);
  }

  /** Closing a held deal, with its refund or its release, leaves its row valid. */
  lemma ClosedRowOk(w: World, after: World, d: Deal, closed: DealStatus)
    requires DealOk(w, d) && Holding(d.status)
    requires if d.status.Arbitration? then Resolved(closed)
             else closed.Cancelled? || closed.CancelledForInactivity? || (closed.Completed? && d.status.InProgress?)
    requires after.currencies == w.currencies && after.users.Keys == w.users.Keys && |after.deposits| == |w.deposits|
    ensures DealOk(after, d.(status := closed))
  {
  }

  lemma ReleaseFits(w: World, deal: nat, closed: DealStatus, bump: Bump, k: Key)
    requires Valid(w) && deal < |w.deals| && Holding(w.deals[deal].status) && PaidOut(closed)
    ensures Release(w, deal, closed, bump).Ok? && Fits(w, Release(w, deal, closed, bump).value, k)
  {
    StoredOnGrid(w, deal);
    LockCoversDeal(w, deal);
    assert Balanced(w, k);
  }

  lemma ReleaseHonest(w: World, deal: nat, closed: DealStatus, bump: Bump)
    requires Valid(w) && deal < |w.deals|
    requires (closed.Completed? && w.deals[deal].status.InProgress?)
          || (closed.ResolvedForSeller? && w.deals[deal].status.Arbitration?)
    ensures Release(w, deal, closed, bump).Ok? && Honest(w, Release(w, deal, closed, bump).value)
  {
    var plan := Release(w, deal, closed, bump);
    assert DealOk(w, w.deals[deal]);
    ApplyKeepsUsers(w, plan.value);
    ClosedRowOk(w, Apply(w, plan.value), w.deals[deal], closed);
    forall k ensures Fits(w, plan.value, k) {
      ReleaseFits(w, deal, closed, bump, k);
    }
  }

  /** A call that moves no money and rewrites one deal row. */
  lemma QuietDealHonest(w: World, e: Effect)
    requires Valid(w) && e.first.NoPosting? && e.second.NoPosting? && e.withdrawal.Keep? && e.invoice.Keep?
    requires e.deal.Put? && e.deal.at < |w.deals| && SameTerms(w.deals[e.deal.at], e.deal.row)
    requires DealOk(Apply(w, e), e.deal.row)
    requires Holding(e.deal.row.status) == Holding(w.deals[e.deal.at].status)
    requires !PaidOut(e.deal.row.status) && !PaidOut(w.deals[e.deal.at].status)
    requires e.deal.row.commissionPaid == w.deals[e.deal.at].commissionPaid
    requires e.deposit.Put? ==>
               && e.deposit.at < |w.deposits| && w.deposits[e.deposit.at].status.Pending?
               && e.deposit.row == w.deposits[e.deposit.at].(status := Expired)
    ensures Honest(w, e)
  {
    ApplyKeepsUsers(w, e);
    assert e.deposit.Put? ==> DepositOk(w, w.deposits[e.deposit.at]);
    forall k ensures Fits(w, e, k) {
      assert Balanced(w, k);
    }
  }

  lemma TopupCancelHonest(w: World, e: Event)
    requires Valid(w) && PlanOf(w, e).Ok? && (e.EvCancelPendingTopup? || e.EvExpirePendingTopup?)
    ensures Honest(w, PlanOf(w, e).value)
  {
    assert DealOk(w, w.deals[e.deal]);
    ApplyKeepsUsers(w, PlanOf(w, e).value);
    QuietDealHonest(w, PlanOf(w, e).value);
  }

  lemma LifecycleHonest(w: World, e: Event, plan: Plan)
    requires Valid(w) && (e.EvAccept? || e.EvRequestCancel? || e.EvRevokeCancel? || e.EvStartArbitration?)
    requires plan == DealPlan(w, e) && plan.Ok?
    ensures Honest(w, plan.value)
  {
    assert DealOk(w, w.deals[e.deal]);
    ApplyKeepsUsers(w, plan.value);
    QuietDealHonest(w, plan.value);
  }

  lemma RefundingHonest(w: World, deal: nat, closed: DealStatus, plan: Plan)
    requires Valid(w) && deal < |w.deals| && Holding(w.deals[deal].status) && !w.deals[deal].status.Arbitration?
    requires (closed.Cancelled? || closed.CancelledForInactivity?) && plan == Refund(w, deal, closed, NoBump)
    ensures plan.Ok? && Honest(w, plan.value)
  {
    RefundHonest(w, deal, closed, NoBump);
  }

  lemma ResolvingHonest(w: World, deal: nat, entitled: bool, verdict: Verdict, plan: Plan)
    requires Valid(w) && plan == ResolveArbitration(w, deal, entitled, verdict) && plan.Ok?
    ensures Honest(w, plan.value)
  {
    var d, won, lost := w.deals[deal], Tally(0, 0, 1, 0), Tally(0, 0, 0, 1);
    if verdict.ForBuyer? {
      RefundHonest(w, deal, ResolvedForBuyer, Bump(d.buyer, won, d.seller, lost));
    } else {
      ReleaseHonest(w, deal, ResolvedForSeller, Bump(d.buyer, lost, d.seller, won));
    }
  }

  lemma FinishingHonest(w: World, deal: nat, user: nat, plan: Plan)
    requires Valid(w) && plan == FinishDeal(w, deal, user) && plan.Ok?
    ensures Honest(w, plan.value)
  {
    ReleaseHonest(w, deal, Completed, Both(w.deals[deal], Tally(0, 0, 1, 0)));
  }

  /** Declining, agreeing to cancel and the inactivity sweep all refund. */
  lemma RefundingPlan(w: World, e: Event, plan: Plan) returns (closed: DealStatus)
    requires (e.EvDecline? || e.EvAcceptCancel? || e.EvRefundInactive?) && plan == DealPlan(w, e) && plan.Ok?
    ensures e.deal < |w.deals| && Holding(w.deals[e.deal].status) && !w.deals[e.deal].status.Arbitration?
    ensures (closed.Cancelled? || closed.CancelledForInactivity?) && plan == Refund(w, e.deal, closed, NoBump)
  {
    closed := if e.EvRefundInactive? && w.deals[e.deal].status.PendingConfirmation? then CancelledForInactivity
              else Cancelled;
  }

  lemma ClosingHonest(w: World, e: Event, plan: Plan)
    requires e.EvDecline? || e.EvFinish? || e.EvAcceptCancel? || e.EvResolveArbitration? || e.EvRefundInactive?
    requires Valid(w) && plan == DealPlan(w, e) && plan.Ok?
    ensures Honest(w, plan.value)
  {
    if e.EvFinish? {
      FinishingHonest(w, e.deal, e.user, plan);
    } else if e.EvResolveArbitration? {
      ResolvingHonest(w, e.deal, e.entitled, e.verdict, plan);
    } else {
      var closed := RefundingPlan(w, e, plan);
      RefundingHonest(w, e.deal, closed, plan);
    }
  }

  /** An offer that passes the checks has a positive principal and a fee, both on the grid. */
  lemma PriceOnGrid(w: World, o: Offer, terms: Terms)
    requires Principal(w, o).Ok?
    ensures var amount, step := Principal(w, o).value, GridOf(w, o.currency);
            && amount > 0 && OnGrid(amount, step)
            && Fee(w, o, terms, amount) >= 0 && OnGrid(Fee(w, o, terms, amount), step)
            && Q(amount + Fee(w, o, terms, amount), step) == amount + Fee(w, o, terms, amount)
  {
    var amount, step := Principal(w, o).value, GridOf(w, o.currency);
    var rate := Rate(terms, w.users[o.buyer], w.users[o.seller]);
    QuantizeIdempotent(o.amount.value, 0, step);
    QuantizeIdempotent(Raw(amount * rate, 10000), 0, step);
    CommissionBounds(amount, rate, step);
    NeededIsExact(amount, rate, step);
  }

  lemma CreateDealHonest(w: World, o: Offer, terms: Terms)
    requires Valid(w) && CreateDeal(w, o, terms).Ok?
    ensures Honest(w, CreateDeal(w, o, terms).value)
  {
    PriceOnGrid(w, o, terms);
    var e := CreateDeal(w, o, terms).value;
    ApplyKeepsUsers(w, e);
    forall k ensures Fits(w, e, k) {
      assert Balanced(w, k);
    }
  }

  lemma CreateFundedHonest(w: World, o: Offer, terms: Terms, issued: Option<nat>)
    requires Valid(w) && CreateDealWithTopup(w, o, terms, issued).Ok?
    requires CreateDealWithTopup(w, o, terms, issued).value.invoice.Keep?
    ensures Honest(w, CreateDealWithTopup(w, o, terms, issued).value)
  {
    PriceOnGrid(w, o, terms);
    var e := CreateDealWithTopup(w, o, terms, issued).value;
    var amount := Principal(w, o).value;
    CreateFundedPlan(w, o, terms, issued, e);
    FundedHonest(w, o, amount, Fee(w, o, terms, amount), e);
  }

  /** A deal that the balance of its buyer pays for. */
  function FundedDeal(o: Offer, fee: int, amount: int): Deal
  {
    Deal(o.buyer, o.seller, o.currency, amount, fee, PendingConfirmation, o.provider, true, BalanceFunded, None, false,
         None, None)
  }

  function FundedEffect(w: World, o: Offer, fee: int, amount: int): Effect
  {
    NOTHING.(first := Posting(Key(o.buyer, o.currency), -(amount + fee), amount, DealCreateBalanceFunded,
                              FromDeal(Some(|w.deals|)), None, true),
             deal := Put(|w.deals|, FundedDeal(o, fee, amount)))
  }

  lemma CreateFundedPlan(w: World, o: Offer, terms: Terms, issued: Option<nat>, e: Effect)
    requires CreateDealWithTopup(w, o, terms, issued) == Ok(e) && e.invoice.Keep?
    requires var amount := Principal(w, o).value;
             Q(amount + Fee(w, o, terms, amount), GridOf(w, o.currency)) == amount + Fee(w, o, terms, amount)
    ensures var amount := Principal(w, o).value;
            var fee := Fee(w, o, terms, amount);
            e == FundedEffect(w, o, fee, amount) && Bal(w, Key(o.buyer, o.currency)).amount >= amount + fee
  {
    var amount, step := Principal(w, o).value, GridOf(w, o.currency);
    var fee, gap := Fee(w, o, terms, amount), Max(0, amount - Bal(w, Key(o.buyer, o.currency)).amount);
    PricedPlan(w, o, terms, issued, amount, fee, Q(amount + fee, step), Q(Q(gap, step) + fee, step));
  }

  lemma FundedHonest(w: World, o: Offer, amount: int, fee: int, e: Effect)
    requires Valid(w) && Principal(w, o) == Ok(amount) && e == FundedEffect(w, o, fee, amount)
    requires OnGrid(amount, GridOf(w, o.currency)) && fee >= 0 && OnGrid(fee, GridOf(w, o.currency))
    requires Bal(w, Key(o.buyer, o.currency)).amount >= amount + fee
    ensures Honest(w, e)
  {
    ApplyKeepsUsers(w, e);
    assert DealOk(w, e.deal.row);
    forall k ensures Fits(w, e, k) {
      assert Balanced(w, k);
    }
  }

  /** The deal row and the first invoice of a deal that its buyer cannot pay from the balance. */
  function WaitingDeal(w: World, o: Offer, fee: int, amount: int): Deal
  {
    Deal(o.buyer, o.seller, o.currency, amount, fee, PendingTopup, o.provider, false, TopupFunded,
         Some(|w.deposits|), false, None, None)
  }

  lemma PricedPlan(w: World, o: Offer, terms: Terms, issued: Option<nat>, amount: int, fee: int, needed: int,
                   total: int)
    requires Principal(w, o) == Ok(amount) && fee == Fee(w, o, terms, amount)
    requires needed == Q(amount + fee, GridOf(w, o.currency))
    requires var gap := Max(0, amount - Bal(w, Key(o.buyer, o.currency)).amount);
             total == Q(Q(gap, GridOf(w, o.currency)) + fee, GridOf(w, o.currency))
    ensures CreateDealWithTopup(w, o, terms, issued) == OpenPriced(w, o, amount, fee, needed, total, issued)
  {
  }

  lemma OpenWaitingPlan(w: World, o: Offer, amount: int, fee: int, needed: int, total: int, issued: Option<nat>,
                        e: Effect)
    requires OpenPriced(w, o, amount, fee, needed, total, issued) == Ok(e) && e.invoice.Put?
    ensures issued.Some? && FindDeposit(w.deposits, o.provider, issued.value).None?
    ensures var d, balance := WaitingDeal(w, o, fee, amount), Bal(w, Key(o.buyer, o.currency)).amount;
            && total > 0 && balance < needed
            && e == NOTHING.(first := Posting(Key(o.buyer, o.currency), 0, 0, DealLock, FromDeal(None), None, true),
                             deal := Put(|w.deals|, d),
                             invoice := Put(|w.deposits|,
                                            TopupRow(d, |w.deals|, total, balance).(invoice := issued.value)))
  {
  }

  lemma CreatedIsPriced(w: World, o: Offer, terms: Terms, issued: Option<nat>)
    requires CreateDealWithTopup(w, o, terms, issued).Ok?
    ensures Principal(w, o).Ok?
  {
  }

  /** What the invoice of a new deal asks for. */
  function PriceOf(w: World, o: Offer, amount: int, fee: int): int
    requires o.currency in w.currencies
  {
    var gap := Max(0, amount - Bal(w, Key(o.buyer, o.currency)).amount);
    Q(Q(gap, GridOf(w, o.currency)) + fee, GridOf(w, o.currency))
  }

  lemma CreateWaitingPlan(w: World, o: Offer, terms: Terms, issued: Option<nat>, amount: int, fee: int, total: int,
                          e: Effect)
    requires CreateDealWithTopup(w, o, terms, issued) == Ok(e) && e.invoice.Put?
    requires Principal(w, o) == Ok(amount) && fee == Fee(w, o, terms, amount) && total == PriceOf(w, o, amount, fee)
    ensures issued.Some? && FindDeposit(w.deposits, o.provider, issued.value).None?
    ensures var d, balance := WaitingDeal(w, o, fee, amount), Bal(w, Key(o.buyer, o.currency)).amount;
            && total > 0
            && e == NOTHING.(first := Posting(Key(o.buyer, o.currency), 0, 0, DealLock, FromDeal(None), None, true),
                             deal := Put(|w.deals|, d),
                             invoice := Put(|w.deposits|,
                                            TopupRow(d, |w.deals|, total, balance).(invoice := issued.value)))
  {
    var needed := Q(amount + fee, GridOf(w, o.currency));
    PricedPlan(w, o, terms, issued, amount, fee, needed, total);
    OpenWaitingPlan(w, o, amount, fee, needed, total, issued, e);
  }

  lemma CreateWaitingHonest(w: World, o: Offer, terms: Terms, issued: Option<nat>, e: Effect)
    requires Valid(w) && CreateDealWithTopup(w, o, terms, issued) == Ok(e) && e.invoice.Put?
    ensures Honest(w, e)
  {
    CreatedIsPriced(w, o, terms, issued);
    PriceOnGrid(w, o, terms);
    var amount := Principal(w, o).value;
    var fee := Fee(w, o, terms, amount);
    CreateWaitingPlan(w, o, terms, issued, amount, fee, PriceOf(w, o, amount, fee), e);
    WaitingRowsOk(w, o, amount, fee, PriceOf(w, o, amount, fee), e);
    WaitingDealHonest(w, e);
  }

  /** The deal and the invoice of a new deal that waits are valid rows. */
  lemma WaitingRowsOk(w: World, o: Offer, amount: int, fee: int, total: int, e: Effect)
    requires Principal(w, o) == Ok(amount) && OnGrid(amount, GridOf(w, o.currency))
    requires fee >= 0 && OnGrid(fee, GridOf(w, o.currency)) && total == PriceOf(w, o, amount, fee) > 0
    requires e.deal == Put(|w.deals|, WaitingDeal(w, o, fee, amount)) && e.deposit.Keep? && e.invoice.Put?
    requires e.invoice.at == |w.deposits| && e.invoice.row.user == o.buyer && e.invoice.row.currency == o.currency
    requires e.invoice.row.amount == total && e.invoice.row.status.Pending? && e.invoice.row.purpose.DealTopup?
    requires e.invoice.row.deal == Some(|w.deals|)
    ensures DealOk(Apply(w, e), e.deal.row) && DepositOk(Apply(w, e), e.invoice.row)
  {
    ApplyKeepsUsers(w, e);
    var gap := Max(0, amount - Bal(w, Key(o.buyer, o.currency)).amount);
    QuantizeIdempotent(Raw(Q(gap, GridOf(w, o.currency)) + fee, 1), 0, GridOf(w, o.currency));
  }

  lemma WaitingDealHonest(w: World, e: Effect)
    requires Valid(w) && e.deal.Put? && e.invoice.Put?
    requires e == NOTHING.(first := e.first, deal := e.deal, invoice := e.invoice)
    requires e.first.Posting? && e.first.amount == 0 && e.first.locked == 0
    requires e.deal.at == |w.deals| && DealOk(Apply(w, e), e.deal.row) && e.deal.row.status.PendingTopup?
    requires !e.deal.row.commissionPaid
    requires e.invoice.at == |w.deposits| && DepositOk(Apply(w, e), e.invoice.row) && e.invoice.row.status.Pending?
    requires FindDeposit(w.deposits, e.invoice.row.provider, e.invoice.row.invoice).None?
    ensures Honest(w, e)
  {
    forall k ensures Fits(w, e, k) {
      assert Balanced(w, k);
    }
  }

  // --------------------------------------------------------------- deposits

  /** The payment counted for a top-up deposit, in quanta. */
  function PaidSum(w: World, at: nat, paid: Option<Raw>): int
    requires at < |w.deposits| && w.deposits[at].currency in w.currencies
  {
    var step := GridOf(w, w.deposits[at].currency);
    if paid.Some? then Quantize(paid.value, step) else Q(w.deposits[at].amount, step)
  }

  ghost predicate NotNegative(paid: Option<Raw>)
  {
    paid.Some? ==> paid.value.num >= 0
  }

  lemma PaidSumFacts(w: World, at: nat, paid: Option<Raw>)
    requires Valid(w) && at < |w.deposits| && NotNegative(paid)
    ensures DepositOk(w, w.deposits[at])
    ensures PaidSum(w, at, paid) >= 0
    ensures OnGrid(PaidSum(w, at, paid), GridOf(w, w.deposits[at].currency))
    ensures paid.None? ==> PaidSum(w, at, paid) == w.deposits[at].amount
  {
    var p := w.deposits[at];
    assert DepositOk(w, p);
    var v := if paid.Some? then paid.value else Raw(p.amount, 1);
    QuantizeIdempotent(v, p.amount, GridOf(w, p.currency));
    QuantizeNonNegative(v, GridOf(w, p.currency));
  }

  /** The new invoice for what a waiting deal still needs. */
  lemma ReplacementRow(w: World, d: Deal, deal: nat, balance: int, step: nat, issued: nat)
    requires DealOk(w, d) && step == GridOf(w, d.currency) && deal < |w.deals| && Remaining(d, balance, step) > 0
    requires w.deals[deal].buyer == d.buyer && w.deals[deal].currency == d.currency && w.deals[deal].origin.TopupFunded?
    ensures DepositOk(w, TopupRow(d, deal, Remaining(d, balance, step), balance).(invoice := issued))
  {
    QuantizeIdempotent(Raw(Max(0, Q(d.amount, step) - balance) + DueOf(d, step), 1), 0, step);
  }

  /** The effect e with a new invoice attached to the deal it leaves waiting. */
  ghost predicate Attaches(w: World, e: Effect, e1: Effect)
  {
    && e.deal.Put? && e.deal.at < |w.deals| && SameTerms(w.deals[e.deal.at], e.deal.row)
    && e.deal.row.status.PendingTopup? && w.deals[e.deal.at].status.PendingTopup? && DealOk(w, e.deal.row)
    && e.invoice.Keep? && e1.invoice.Put? && e1.invoice.at == |w.deposits|
    && e1 == e.(deal := Put(e.deal.at, e.deal.row.(topup := Some(|w.deposits|))), invoice := e1.invoice)
    && FindDeposit(w.deposits, e1.invoice.row.provider, e1.invoice.row.invoice).None?
    && e1.invoice.row.status.Pending? && DepositOk(w, e1.invoice.row)
  }

  lemma AttachedRowsFit(w: World, e: Effect, e1: Effect)
    requires Attaches(w, e, e1) && RowsFit(w, e)
    ensures RowsFit(w, e1)
  {
    ApplyKeepsUsers(w, e);
    ApplyKeepsUsers(w, e1);
  }

  lemma AttachedFits(w: World, e: Effect, e1: Effect, k: Key)
    requires Attaches(w, e, e1) && Fits(w, e, k) && (e.deposit.Put? ==> e.deposit.at < |w.deposits|)
    ensures Fits(w, e1, k)
  {
  }

  /** Attaching a replacement invoice disturbs nothing else. */
  lemma ReplacementFits(w: World, e: Effect, balance: int, step: nat, reissued: Option<nat>, plan: Plan)
    requires Valid(w) && e.deal.Put? && e.deal.at < |w.deals| && SameTerms(w.deals[e.deal.at], e.deal.row)
    requires e.deal.row.status.PendingTopup? && w.deals[e.deal.at].status.PendingTopup? && DealOk(w, e.deal.row)
    requires step == GridOf(w, e.deal.row.currency) && e.invoice.Keep? && Honest(w, e)
    requires plan == WithReplacement(w, e, balance, step, reissued) && plan.Ok?
    ensures Honest(w, plan.value)
  {
    if Remaining(e.deal.row, balance, step) > 0 {
      ReplacementRow(w, e.deal.row, e.deal.at, balance, step, reissued.value);
      assert Attaches(w, e, plan.value);
      AttachedRowsFit(w, e, plan.value);
      forall k ensures Fits(w, plan.value, k) {
        AttachedFits(w, e, plan.value, k);
      }
    }
  }

  function Due(d: Deal): int
  {
    if d.commissionPaid then 0 else d.commission
  }

  /** A plan for a payment of deposit `at` on its waiting deal. */
  ghost predicate Settles(w: World, at: nat, sum: int, deal: nat, reissued: Option<nat>, plan: Plan)
  {
    && at < |w.deposits| && deal < |w.deals| && !w.deposits[at].status.Paid? && w.deposits[at].deal == Some(deal)
    && w.deposits[at].purpose.DealTopup? && w.deals[deal].status.PendingTopup? && sum >= 0 && DealOk(w, w.deals[deal])
    && OnGrid(sum, GridOf(w, w.deals[deal].currency))
    && plan == SettlePending(w, at, sum, deal, GridOf(w, w.deals[deal].currency), reissued)
  }

  /** The payment is below the commission: all of it goes to the balance. */
  lemma SettleBelowFee(w: World, at: nat, sum: int, deal: nat, e: Effect, balance: int, step: nat,
                       reissued: Option<nat>, plan: Plan)
    requires Valid(w) && Settles(w, at, sum, deal, reissued, plan) && sum < Due(w.deals[deal])
    requires e == PartialEffect(w, at, sum, sum, deal, w.deals[deal])
    requires balance == Spendable(w, w.deals[deal]) + sum && step == GridOf(w, w.deals[deal].currency)
    ensures plan == WithReplacement(w, e, balance, step, reissued)
  {
    StoredOnGrid(w, deal);
  }

  lemma CreditOnGrid(w: World, deal: nat, sum: int)
    requires Valid(w) && deal < |w.deals| && DealOk(w, w.deals[deal]) && OnGrid(sum, GridOf(w, w.deals[deal].currency))
    ensures Q(sum - Due(w.deals[deal]), GridOf(w, w.deals[deal].currency)) == sum - Due(w.deals[deal])
  {
    var d, step := w.deals[deal], GridOf(w, w.deals[deal].currency);
    MultipleOnGrid(0, step);
    GridClosed(sum, Due(d), step);
    QuantizeIdempotent(Raw(0, 1), sum - Due(d), step);
  }

  /** The payment covers the commission but not the principal. */
  lemma SettleShort(w: World, at: nat, sum: int, deal: nat, e: Effect, balance: int, step: nat, reissued: Option<nat>,
                    plan: Plan)
    requires Valid(w) && Settles(w, at, sum, deal, reissued, plan) && sum >= Due(w.deals[deal])
    requires e == PartialEffect(w, at, sum, sum - Due(w.deals[deal]), deal,
                                Marked(w.deals[deal], Due(w.deals[deal]) > 0))
    requires balance == Spendable(w, w.deals[deal]) + (sum - Due(w.deals[deal])) < w.deals[deal].amount
    requires step == GridOf(w, w.deals[deal].currency)
    ensures plan == WithReplacement(w, e, balance, step, reissued)
  {
    StoredOnGrid(w, deal);
    CreditOnGrid(w, deal, sum);
  }

  /** The payment covers everything. */
  lemma SettleEnough(w: World, at: nat, sum: int, deal: nat, reissued: Option<nat>, plan: Plan)
    requires Valid(w) && Settles(w, at, sum, deal, reissued, plan)
    requires var d := w.deals[deal]; sum >= Due(d) && Spendable(w, d) + (sum - Due(d)) >= d.amount
    ensures plan == Ok(ActivateEffect(w, at, sum, sum - Due(w.deals[deal]), w.deals[deal].amount, deal))
  {
    StoredOnGrid(w, deal);
    CreditOnGrid(w, deal, sum);
  }

  /** The effect of a payment that leaves the deal waiting, before a new invoice is attached. */
  ghost predicate LeavesWaiting(w: World, at: nat, e: Effect, credit: int)
  {
    && at < |w.deposits| && !w.deposits[at].status.Paid? && w.deposits[at].deal.Some?
    && e.deal.Put? && e.deal.at == w.deposits[at].deal.value < |w.deals|
    && var d, d0 := e.deal.row, w.deals[e.deal.at];
       && d0.status.PendingTopup? && DealOk(w, d0) && d == d0.(commissionPaid := d.commissionPaid)
       && var sum := credit + CommissionTaken(d) - CommissionTaken(d0);
          sum >= 0 && credit >= 0 && OnGrid(sum, GridOf(w, d.currency))
              && e == PartialEffect(w, at, sum, credit, e.deal.at, d)
  }

  lemma ShortHonest(w: World, at: nat, e: Effect, credit: int, balance: int, step: nat, reissued: Option<nat>,
                    plan: Plan)
    requires Valid(w) && LeavesWaiting(w, at, e, credit) && plan.Ok?
    requires balance == Spendable(w, e.deal.row) + credit && step == GridOf(w, e.deal.row.currency)
    requires plan == WithReplacement(w, e, balance, step, reissued)
    ensures Honest(w, plan.value)
  {
    var d := e.deal.row;
    assert DepositOk(w, w.deposits[at]);
    assert Balanced(w, BuyerKey(d));
    assert DealOk(w, d);
    CreditHonest(w, at, e);
    ReplacementFits(w, e, balance, step, reissued, plan);
  }

  /** A payment that activates the deal. */
  lemma EnoughHonest(w: World, at: nat, sum: int, deal: nat)
    requires Valid(w) && at < |w.deposits| && !w.deposits[at].status.Paid? && w.deposits[at].deal == Some(deal)
    requires deal < |w.deals| && w.deals[deal].status.PendingTopup? && sum >= 0 && DealOk(w, w.deals[deal])
    requires OnGrid(sum, GridOf(w, w.deals[deal].currency))
    requires Spendable(w, w.deals[deal]) + (sum - Due(w.deals[deal])) >= w.deals[deal].amount
    ensures Honest(w, ActivateEffect(w, at, sum, sum - Due(w.deals[deal]), w.deals[deal].amount, deal))
  {
    assert DepositOk(w, w.deposits[at]);
    var e := ActivateEffect(w, at, sum, sum - Due(w.deals[deal]), w.deals[deal].amount, deal);
    assert DealOk(w, e.deal.row);
    CreditHonest(w, at, e);
  }

  lemma BelowFeeWaits(w: World, at: nat, sum: int, deal: nat, e: Effect)
    requires at < |w.deposits| && deal < |w.deals| && !w.deposits[at].status.Paid? && w.deposits[at].deal == Some(deal)
    requires w.deals[deal].status.PendingTopup? && DealOk(w, w.deals[deal]) && sum >= 0
    requires OnGrid(sum, GridOf(w, w.deals[deal].currency)) && e == PartialEffect(w, at, sum, sum, deal, w.deals[deal])
    ensures LeavesWaiting(w, at, e, sum)
  {
  }

  lemma FeeTakenWaits(w: World, at: nat, sum: int, deal: nat, e: Effect)
    requires at < |w.deposits| && deal < |w.deals| && !w.deposits[at].status.Paid? && w.deposits[at].deal == Some(deal)
    requires w.deals[deal].status.PendingTopup? && DealOk(w, w.deals[deal]) && sum >= Due(w.deals[deal])
    requires OnGrid(sum, GridOf(w, w.deals[deal].currency))
    requires e == PartialEffect(w, at, sum, sum - Due(w.deals[deal]), deal,
                                Marked(w.deals[deal], Due(w.deals[deal]) > 0))
    ensures LeavesWaiting(w, at, e, sum - Due(w.deals[deal]))
  {
  }

  lemma BelowFeeHonest(w: World, at: nat, sum: int, deal: nat, e: Effect, balance: int, step: nat,
                       reissued: Option<nat>, plan: Plan)
    requires Valid(w) && plan.Ok? && at < |w.deposits| && deal < |w.deals| && sum >= 0
    requires !w.deposits[at].status.Paid? && w.deposits[at].deal == Some(deal) && w.deals[deal].status.PendingTopup?
    requires DealOk(w, w.deals[deal]) && OnGrid(sum, GridOf(w, w.deals[deal].currency))
    requires e == PartialEffect(w, at, sum, sum, deal, w.deals[deal])
    requires balance == Spendable(w, e.deal.row) + sum && step == GridOf(w, e.deal.row.currency)
    requires plan == WithReplacement(w, e, balance, step, reissued)
    ensures Honest(w, plan.value)
  {
    BelowFeeWaits(w, at, sum, deal, e);
    ShortHonest(w, at, e, sum, balance, step, reissued, plan);
  }

  lemma FeeTakenHonest(w: World, at: nat, sum: int, deal: nat, e: Effect, balance: int, step: nat,
                       reissued: Option<nat>, plan: Plan)
    requires Valid(w) && plan.Ok? && at < |w.deposits| && deal < |w.deals| && sum >= Due(w.deals[deal])
    requires !w.deposits[at].status.Paid? && w.deposits[at].deal == Some(deal) && w.deals[deal].status.PendingTopup?
    requires DealOk(w, w.deals[deal]) && OnGrid(sum, GridOf(w, w.deals[deal].currency))
    requires e == PartialEffect(w, at, sum, sum - Due(w.deals[deal]), deal,
                                Marked(w.deals[deal], Due(w.deals[deal]) > 0))
    requires balance == Spendable(w, e.deal.row) + (sum - Due(w.deals[deal])) && step == GridOf(w, e.deal.row.currency)
    requires plan == WithReplacement(w, e, balance, step, reissued)
    ensures Honest(w, plan.value)
  {
    FeeTakenWaits(w, at, sum, deal, e);
    ShortHonest(w, at, e, sum - Due(w.deals[deal]), balance, step, reissued, plan);
  }

  lemma SettledBelowHonest(w: World, at: nat, sum: int, deal: nat, reissued: Option<nat>, plan: Plan)
    requires Valid(w) && Settles(w, at, sum, deal, reissued, plan) && plan.Ok? && sum < Due(w.deals[deal])
    ensures Honest(w, plan.value)
  {
    var d := w.deals[deal];
    var e, balance := PartialEffect(w, at, sum, sum, deal, d), Spendable(w, d) + sum;
    SettleBelowFee(w, at, sum, deal, e, balance, GridOf(w, d.currency), reissued, plan);
    BelowFeeHonest(w, at, sum, deal, e, balance, GridOf(w, d.currency), reissued, plan);
  }

  lemma SettledShortHonest(w: World, at: nat, sum: int, deal: nat, reissued: Option<nat>, plan: Plan)
    requires Valid(w) && Settles(w, at, sum, deal, reissued, plan) && plan.Ok?
    requires var d := w.deals[deal]; sum >= Due(d) && Spendable(w, d) + (sum - Due(d)) < d.amount
    ensures Honest(w, plan.value)
  {
    var d := w.deals[deal];
    var e, balance := PartialEffect(w, at, sum, sum - Due(d), deal, Marked(d, Due(d) > 0)),
        Spendable(w, d) + (sum - Due(d));
    SettleShort(w, at, sum, deal, e, balance, GridOf(w, d.currency), reissued, plan);
    FeeTakenHonest(w, at, sum, deal, e, balance, GridOf(w, d.currency), reissued, plan);
  }

  lemma SettledEnoughHonest(w: World, at: nat, sum: int, deal: nat, reissued: Option<nat>, plan: Plan)
    requires Valid(w) && Settles(w, at, sum, deal, reissued, plan) && plan.Ok?
    requires var d := w.deals[deal]; sum >= Due(d) && Spendable(w, d) + (sum - Due(d)) >= d.amount
    ensures Honest(w, plan.value)
  {
    SettleEnough(w, at, sum, deal, reissued, plan);
    EnoughHonest(w, at, sum, deal);
  }

  lemma SettlePendingHonest(w: World, at: nat, sum: int, deal: nat, reissued: Option<nat>, plan: Plan)
    requires Valid(w) && Settles(w, at, sum, deal, reissued, plan) && plan.Ok?
    ensures Honest(w, plan.value)
  {
    var d := w.deals[deal];
    if sum < Due(d) {
      SettledBelowHonest(w, at, sum, deal, reissued, plan);
    } else if Spendable(w, d) + (sum - Due(d)) < d.amount {
      SettledShortHonest(w, at, sum, deal, reissued, plan);
    } else {
      SettledEnoughHonest(w, at, sum, deal, reissued, plan);
    }
  }

  lemma SettleHonest(w: World, at: nat, paid: Option<Raw>, reissued: Option<nat>)
    requires Valid(w) && at < |w.deposits| && w.deposits[at].purpose.DealTopup? && NotNegative(paid)
    requires SettleTopup(w, at, paid, reissued).Ok?
    ensures Honest(w, SettleTopup(w, at, paid, reissued).value)
  {
    PaidSumFacts(w, at, paid);
    if w.deposits[at].status.Paid? {
      NothingHonest(w);
    } else {
      var deal, sum := w.deposits[at].deal.value, PaidSum(w, at, paid);
      assert DealOk(w, w.deals[deal]);
      if w.deals[deal].status.PendingTopup? {
        SettlePendingHonest(w, at, sum, deal, reissued, SettleTopup(w, at, paid, reissued));
      } else {
        assert Balanced(w, BuyerKey(w.deals[deal]));
        CreditHonest(w, at, LateEffect(w, at, sum, deal));
      }
    }
  }

  lemma NothingHonest(w: World)
    requires Valid(w)
    ensures Honest(w, NOTHING)
  {
    forall k ensures Fits(w, NOTHING, k) {
      assert Balanced(w, k);
    }
  }

  /** A payment of a top-up deposit, split between the buyer's account and the commission. */
  lemma CreditHonest(w: World, at: nat, e: Effect)
    requires Valid(w) && at < |w.deposits| && w.deposits[at].purpose.DealTopup? && !w.deposits[at].status.Paid?
    requires e.second.NoPosting? && e.withdrawal.Keep? && e.invoice.Keep? && e.deposit.Put? && e.deposit.at == at
    requires e.deposit.row.paidAmount.Some? && e.deposit.row.paidAmount.value >= 0
    requires w.deposits[at].currency in w.currencies
    requires OnGrid(e.deposit.row.paidAmount.value, GridOf(w, w.deposits[at].currency))
    requires e.deposit.row == w.deposits[at].(status := Paid, paidAmount := e.deposit.row.paidAmount)
    requires DepositOk(w, w.deposits[at])
    requires var d := w.deals[w.deposits[at].deal.value];
             && e.first.Posting? && e.first.key == BuyerKey(d)
             && Bal(w, BuyerKey(d)).amount + e.first.amount >= 0
             && (e.deal.Put? ==>
                   && e.deal.at == w.deposits[at].deal.value && SameTerms(d, e.deal.row) && DealOk(w, e.deal.row)
                   && d.status.PendingTopup? && !PaidOut(e.deal.row.status))
             && var d1 := if e.deal.Put? then e.deal.row else d;
             && e.first.amount + e.first.locked == e.deposit.row.paidAmount.value
                 + CommissionTaken(d) - CommissionTaken(d1)
             && e.first.locked == (if e.deal.Put? && Holding(d1.status) then d.amount else 0)
    ensures Honest(w, e)
  {
    ApplyKeepsUsers(w, e);
    forall k ensures Fits(w, e, k) {
      CreditFits(w, at, e, k);
    }
  }

  /** The accounts come out right even for a negative payment, as long as the balance covers it. */
  lemma CreditFits(w: World, at: nat, e: Effect, k: Key)
    requires Valid(w) && at < |w.deposits| && w.deposits[at].purpose.DealTopup? && !w.deposits[at].status.Paid?
    requires e.second.NoPosting? && e.withdrawal.Keep? && e.invoice.Keep? && e.deposit.Put? && e.deposit.at == at
    requires e.deposit.row.paidAmount.Some? && DepositOk(w, w.deposits[at])
    requires e.deposit.row == w.deposits[at].(status := Paid, paidAmount := e.deposit.row.paidAmount)
    requires var d := w.deals[w.deposits[at].deal.value];
             && e.first.Posting? && e.first.key == BuyerKey(d)
             && Bal(w, BuyerKey(d)).amount + e.first.amount >= 0
             && (e.deal.Put? ==>
                   && e.deal.at == w.deposits[at].deal.value && SameTerms(d, e.deal.row)
                   && d.status.PendingTopup? && !PaidOut(e.deal.row.status))
             && var d1 := if e.deal.Put? then e.deal.row else d;
             && e.first.amount + e.first.locked == e.deposit.row.paidAmount.value
                 + CommissionTaken(d) - CommissionTaken(d1)
             && e.first.locked == (if e.deal.Put? && Holding(d1.status) then d.amount else 0)
    ensures Fits(w, e, k)
  {
    assert Balanced(w, k);
  }

  lemma CreditDepositHonest(w: World, at: nat, paid: Option<Raw>, reissued: Option<nat>)
    requires Valid(w) && at < |w.deposits| && NotNegative(paid)
    requires CreditDeposit(w, at, paid, reissued).Ok?
    ensures Honest(w, CreditDeposit(w, at, paid, reissued).value)
  {
    PaidSumFacts(w, at, paid);
    PaidSumFacts(w, at, None);
    var p := w.deposits[at];
    if p.status.Paid? {
      NothingHonest(w);
    } else if p.purpose.DealTopup? {
      SettleHonest(w, at, paid, reissued);
    } else {
      var e := CreditDeposit(w, at, paid, reissued).value;
      ApplyKeepsUsers(w, e);
      assert DepositOk(Apply(w, e), e.deposit.row);
      forall k ensures Fits(w, e, k) {
        assert Balanced(w, k);
      }
    }
  }

  lemma ExpireHonest(w: World, at: nat)
    requires Valid(w) && at < |w.deposits|
    ensures Expire(w, at).Ok? && Honest(w, Expire(w, at).value)
  {
    var e := Expire(w, at).value;
    assert DepositOk(w, w.deposits[at]);
    ApplyKeepsUsers(w, e);
    forall k ensures Fits(w, e, k) {
      assert Balanced(w, k);
    }
  }

  lemma OpenDepositHonest(w: World, e: Event)
    requires Valid(w) && e.EvOpenDeposit? && PlanOf(w, e).Ok?
    ensures Honest(w, PlanOf(w, e).value)
  {
    var plan := PlanOf(w, e).value;
    QuantizeIdempotent(e.asked.value, 0, GridOf(w, e.currency));
    ApplyKeepsUsers(w, plan);
    forall k ensures Fits(w, plan, k) {
      assert Balanced(w, k);
    }
  }

  lemma DepositHonest(w: World, e: Event)
    requires Valid(w) && Assumed(w, e) && PlanOf(w, e).Ok?
    requires e.EvInvoicePaid? || e.EvInvoiceExpired? || e.EvCrystalpayNotice? || e.EvPollPaid? || e.EvExpireDeposit?
    ensures Honest(w, PlanOf(w, e).value)
  {
    NothingHonest(w);
    match e
    case EvInvoicePaid(_, n, r, i) =>
      var at := FindDeposit(w.deposits, CryptoBot, n.value).value;
      if !w.deposits[at].status.Paid? {
        CreditDepositHonest(w, at, if r.Reported? then Some(r.value) else None, i);
      }
    case EvInvoiceExpired(n) => ExpireHonest(w, FindDeposit(w.deposits, CryptoBot, n.value).value);
    case EvCrystalpayNotice(n, s, r, i) =>
      var at := FindDeposit(w.deposits, Crystalpay, n.value).value;
      ExpireHonest(w, at);
      if s.Payed? && w.deposits[at].status.Pending? {
        CreditDepositHonest(w, at, if r.Reported? then Some(r.value) else None, i);
      }
    case EvPollPaid(at, i) =>
      if w.deposits[at].status.Pending? {
        CreditDepositHonest(w, at, None, i);
      }
    case EvExpireDeposit(at) => ExpireHonest(w, at);
  }

  // ------------------------------------------------------------ withdrawals

  /** A call that only rewrites a withdrawal without settling it. */
  lemma QuietWithdrawalHonest(w: World, at: nat, x: Withdrawal)
    requires Valid(w) && at < |w.withdrawals| && WithdrawalOk(w, x)
    requires x.user == w.withdrawals[at].user && x.currency == w.withdrawals[at].currency
    requires x.amount == w.withdrawals[at].amount && x.status == w.withdrawals[at].status
    ensures Honest(w, Rewrite(w, at, x).value)
  {
    var e := Rewrite(w, at, x).value;
    forall k ensures Fits(w, e, k) {
      assert Balanced(w, k);
    }
  }

  /** What the provider's answer, or a step of the outside world, makes of a valid row. */
  ghost predicate Watches(w: World, at: nat, plan: Plan)
  {
    && at < |w.withdrawals| && plan.Ok? && plan.value.withdrawal.Put?
    && var x, y := w.withdrawals[at], plan.value.withdrawal.row;
       && plan == Rewrite(w, at, y) && WithdrawalOk(w, y)
       && y.user == x.user && y.currency == x.currency && y.amount == x.amount && y.status == x.status
  }

  lemma AskingWatches(w: World, at: nat, plan: Plan)
    requires at < |w.withdrawals| ==> WithdrawalOk(w, w.withdrawals[at])
    requires plan == AskProvider(w, at) && plan.Ok?
    ensures Watches(w, at, plan)
  {
  }

  lemma OutsideWatches(w: World, at: nat, o: Outside, plan: Plan)
    requires at < |w.withdrawals| ==> WithdrawalOk(w, w.withdrawals[at])
    requires plan == Happen(w, at, o) && plan.Ok? && Assumed(w, EvOutside(at, o))
    ensures Watches(w, at, plan)
  {
  }

  lemma WatchingHonest(w: World, e: Event, plan: Plan)
    requires Valid(w) && Assumed(w, e) && (e.EvAskProvider? || e.EvOutside?)
    requires plan == WithdrawalPlan(w, e) && plan.Ok?
    ensures Honest(w, plan.value)
  {
    if e.EvAskProvider? {
      AskingWatches(w, e.withdrawal, plan);
    } else {
      OutsideWatches(w, e.withdrawal, e.outside, plan);
    }
    QuietWithdrawalHonest(w, e.withdrawal, plan.value.withdrawal.row);
  }

  lemma RequestHonest(w: World, e: Event)
    requires Valid(w) && PlanOf(w, e).Ok? && e.EvRequestWithdrawal?
    ensures Honest(w, PlanOf(w, e).value)
  {
    var plan := PlanOf(w, e).value;
    ApplyKeepsUsers(w, plan);
    forall k ensures Fits(w, plan, k) {
      assert Balanced(w, k);
    }
  }

  /** The writes that settle an awaiting withdrawal, with or without a refund. */
  ghost predicate Settlement(w: World, at: nat, e: Effect)
  {
    && at < |w.withdrawals| && w.withdrawals[at].status.Awaiting?
    && e.withdrawal.Put? && e.withdrawal.at == at
    && e == NOTHING.(first := e.first, withdrawal := e.withdrawal) && e.first.Posting?
    && var x, y := w.withdrawals[at], e.withdrawal.row;
       && x.user == y.user && x.currency == y.currency && x.amount == y.amount && !y.status.Awaiting?
       && e.first.key == WithdrawalKey(x) && e.first.locked == -x.amount
       && (y.status.Rejected? ==> e.first.amount == x.amount) && (y.status.Sent? ==> e.first.amount == 0)
  }

  lemma SettlingFits(w: World, at: nat, e: Effect, k: Key)
    requires Settlement(w, at, e) && w.withdrawals[at].amount >= 0 && Bal(w, k).amount >= 0
    ensures Fits(w, e, k)
  {
  }

  lemma SettlingHonest(w: World, at: nat, e: Effect)
    requires Valid(w) && Settlement(w, at, e) && WithdrawalOk(w, e.withdrawal.row)
    ensures Honest(w, e)
  {
    assert WithdrawalOk(w, w.withdrawals[at]);
    forall k ensures Fits(w, e, k) {
      assert Balanced(w, k);
      SettlingFits(w, at, e, k);
    }
  }

  /** Each of the three settling steps is a settlement, given that the lock covers the amount. */
  lemma FinishSentSettles(w: World, at: nat, plan: Plan)
    requires plan == FinishSent(w, at) && plan.Ok? && w.withdrawals[at].status.Awaiting?
    requires Unlock(Bal(w, WithdrawalKey(w.withdrawals[at])), w.withdrawals[at].amount) == -w.withdrawals[at].amount
    requires WithdrawalOk(w, w.withdrawals[at])
    ensures Settlement(w, at, plan.value) && WithdrawalOk(w, plan.value.withdrawal.row)
  {
  }

  lemma FinishFailedSettles(w: World, at: nat, plan: Plan)
    requires plan == FinishFailed(w, at) && plan.Ok? && !w.withdrawals[at].admins
    requires Unlock(Bal(w, WithdrawalKey(w.withdrawals[at])), w.withdrawals[at].amount) == -w.withdrawals[at].amount
    requires WithdrawalOk(w, w.withdrawals[at])
    ensures Settlement(w, at, plan.value) && WithdrawalOk(w, plan.value.withdrawal.row)
  {
  }

  lemma ReconcileSettles(w: World, at: nat, matched: bool, plan: Plan)
    requires plan == Reconcile(w, at, matched) && plan.Ok? && w.withdrawals[at].status.Awaiting?
    requires Unlock(Bal(w, WithdrawalKey(w.withdrawals[at])), w.withdrawals[at].amount) == -w.withdrawals[at].amount
    requires WithdrawalOk(w, w.withdrawals[at])
    ensures Settlement(w, at, plan.value) && WithdrawalOk(w, plan.value.withdrawal.row)
  {
  }

  lemma FinishSentHonest(w: World, at: nat, plan: Plan)
    requires Valid(w) && plan == FinishSent(w, at) && plan.Ok?
    ensures Honest(w, plan.value)
  {
    var x := w.withdrawals[at];
    assert WithdrawalOk(w, x);
    if x.status.Awaiting? {
      LockCoversWithdrawal(w, at);
      FinishSentSettles(w, at, plan);
      SettlingHonest(w, at, plan.value);
    } else {
      QuietWithdrawalHonest(w, at, x.(worker := Gone));
    }
  }

  lemma FinishFailedHonest(w: World, at: nat, plan: Plan)
    requires Valid(w) && plan == FinishFailed(w, at) && plan.Ok?
    ensures Honest(w, plan.value)
  {
    var x := w.withdrawals[at];
    assert WithdrawalOk(w, x);
    if x.admins {
      QuietWithdrawalHonest(w, at, x.(worker := Gone));
    } else {
      LockCoversWithdrawal(w, at);
      FinishFailedSettles(w, at, plan);
      SettlingHonest(w, at, plan.value);
    }
  }

  lemma ReconcileHonest(w: World, at: nat, matched: bool, plan: Plan)
    requires Valid(w) && plan == Reconcile(w, at, matched) && plan.Ok?
    ensures Honest(w, plan.value)
  {
    var x := w.withdrawals[at];
    assert WithdrawalOk(w, x);
    if x.status.Awaiting? {
      LockCoversWithdrawal(w, at);
      ReconcileSettles(w, at, matched, plan);
      SettlingHonest(w, at, plan.value);
    } else {
      NothingHonest(w);
    }
  }

  // ------------------------------------------------------------------- runs

  lemma EveryCallHonest(w: World, e: Event)
    requires Valid(w) && Assumed(w, e) && PlanOf(w, e).Ok?
    ensures Honest(w, PlanOf(w, e).value)
  {
    match e
    case EvCreateDeal(o, t) => CreateDealHonest(w, o, t);
    case EvCreateDealWithTopup(o, t, i) =>
      if PlanOf(w, e).value.invoice.Keep? {
        CreateFundedHonest(w, o, t, i);
      } else {
        CreateWaitingHonest(w, o, t, i, PlanOf(w, e).value);
      }
    case EvCancelPendingTopup(_, _) => TopupCancelHonest(w, e);
    case EvExpirePendingTopup(_) => TopupCancelHonest(w, e);
    case EvAccept(_, _) => LifecycleHonest(w, e, PlanOf(w, e));
    case EvRequestCancel(_, _) => LifecycleHonest(w, e, PlanOf(w, e));
    case EvRevokeCancel(_, _) => LifecycleHonest(w, e, PlanOf(w, e));
    case EvStartArbitration(_, _, _) => LifecycleHonest(w, e, PlanOf(w, e));
    case EvDecline(_, _) => ClosingHonest(w, e, PlanOf(w, e));
    case EvFinish(_, _) => ClosingHonest(w, e, PlanOf(w, e));
    case EvAcceptCancel(_, _) => ClosingHonest(w, e, PlanOf(w, e));
    case EvResolveArbitration(_, _, _) => ClosingHonest(w, e, PlanOf(w, e));
    case EvRefundInactive(_) => ClosingHonest(w, e, PlanOf(w, e));
    case EvOpenDeposit(_, _, _, _, _, _) => OpenDepositHonest(w, e);
    case EvInvoicePaid(_, _, _, _) => DepositHonest(w, e);
    case EvInvoiceExpired(_) => DepositHonest(w, e);
    case EvCrystalpayNotice(_, _, _, _) => DepositHonest(w, e);
    case EvPollPaid(_, _) => DepositHonest(w, e);
    case EvExpireDeposit(_) => DepositHonest(w, e);
    case EvRequestWithdrawal(_, _, _, _, _, _) => RequestHonest(w, e);
    case EvFinishSent(x) => FinishSentHonest(w, x, PlanOf(w, e));
    case EvFinishFailed(x) => FinishFailedHonest(w, x, PlanOf(w, e));
    case EvAskProvider(_) => WatchingHonest(w, e, PlanOf(w, e));
    case EvReconcile(x, m) => ReconcileHonest(w, x, m, PlanOf(w, e));
    case EvOutside(_, _) => WatchingHonest(w, e, PlanOf(w, e));
  }

  /** Users and currencies exist; nothing has happened yet. */
  ghost predicate Fresh(w: World)
  {
    && w.balances == map[] && w.deals == [] && w.deposits == [] && w.withdrawals == [] && w.ledger == []
    && forall u :: u in w.users ==> w.users[u].trust == 0 && w.users[u].tally == Tally(0, 0, 0, 0)
  }

  /** Every event of the run keeps to the assumptions at the moment it happens. */
  ghost predicate Fair(w: World, events: seq<Event>)
  {
    events == [] ||
    (var n := |events| - 1; Fair(w, events[..n]) && Assumed(Run(w, events[..n]), events[n]))
  }

  /** One more event. */
  lemma RunAppend(w: World, events: seq<Event>, e: Event)
    ensures Run(w, events + [e]) == Step(Run(w, events), e)
    ensures Fair(w, events + [e]) <==> Fair(w, events) && Assumed(Run(w, events), e)
  {
    assert (events + [e])[..|events|] == events;
  }

  lemma RunOne(w: World, e: Event)
    ensures Run(w, [e]) == Step(w, e) && (Fair(w, [e]) <==> Assumed(w, e))
  {
    assert Run(w, []) == w && Fair(w, []);
    RunAppend(w, [], e);
    assert [] + [e] == [e];
  }

  lemma RunTwo(w: World, e: Event, f: Event)
    ensures Run(w, [e, f]) == Step(Step(w, e), f)
    ensures Fair(w, [e, f]) <==> Assumed(w, e) && Assumed(Step(w, e), f)
  {
    RunOne(w, e);
    RunAppend(w, [e], f);
    assert [e] + [f] == [e, f];
  }

  lemma FairPrefix(w: World, events: seq<Event>, i: nat)
    requires Fair(w, events) && i < |events|
    ensures Fair(w, events[..i]) && Assumed(Run(w, events[..i]), events[i])
    decreases |events|
  {
    var n := |events| - 1;
    if i < n {
      FairPrefix(w, events[..n], i);
      assert events[..n][..i] == events[..i];
    }
  }

  lemma StepKeepsValid(w: World, e: Event)
    requires Valid(w) && Assumed(w, e)
    ensures Valid(Step(w, e))
  {
    if PlanOf(w, e).Ok? {
      EveryCallHonest(w, e);
      FittingKeepsValid(w, PlanOf(w, e).value);
    }
  }

  /** The main invariant: it holds in every state of every run. */
  lemma {:induction false} BooksAlwaysBalance(w: World, events: seq<Event>)
    requires Fresh(w) && Fair(w, events)
    ensures Valid(Run(w, events))
  {
    if events == [] {
      forall k ensures Balanced(w, k) {
      }
    } else {
      var n := |events| - 1;
      BooksAlwaysBalance(w, events[..n]);
      StepKeepsValid(Run(w, events[..n]), events[n]);
    }
  }

  /** What the invariant says about one account, in every reachable state. */
  lemma EscrowBacking(w: World, events: seq<Event>, k: Key)
    requires Fresh(w) && Fair(w, events)
    ensures var now := Run(w, events);
            && Bal(now, k).locked == Sum(now.deals, HeldByDeal(k)) + Sum(now.withdrawals, HeldByWithdrawal(k))
            && Bal(now, k).amount + Bal(now, k).locked == Statement(now, k)
            && Bal(now, k).amount >= 0 && Bal(now, k).locked >= 0
  {
    var now := Run(w, events);
    BooksAlwaysBalance(w, events);
    assert Balanced(now, k);
    assert DealsOk(now) && WithdrawalsOk(now);
    SumNonNegative(now.deals, HeldByDeal(k));
    SumNonNegative(now.withdrawals, HeldByWithdrawal(k));
  }

  /** No max(0, ...) ever bites: in every reachable state the lock covers whatever may be released from it. */
  lemma ClampsNeverBite(w: World, events: seq<Event>, deal: nat, withdrawal: nat)
    requires Fresh(w) && Fair(w, events)
    ensures var now := Run(w, events);
            deal < |now.deals| && Holding(now.deals[deal].status) ==>
              Unlock(Bal(now, BuyerKey(now.deals[deal])), now.deals[deal].amount) == -now.deals[deal].amount
    ensures var now := Run(w, events);
            withdrawal < |now.withdrawals| && now.withdrawals[withdrawal].status.Awaiting? ==>
              var x := now.withdrawals[withdrawal];
              Unlock(Bal(now, WithdrawalKey(x)), x.amount) == -x.amount
  {
    var now := Run(w, events);
    BooksAlwaysBalance(w, events);
    if deal < |now.deals| && Holding(now.deals[deal].status) {
      LockCoversDeal(now, deal);
    }
    if withdrawal < |now.withdrawals| && now.withdrawals[withdrawal].status.Awaiting? {
      LockCoversWithdrawal(now, withdrawal);
    }
  }
}
