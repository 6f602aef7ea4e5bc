/**
  What each service call decides to write: a Plan, either the Effect of its transaction or
  the error it raises (and then nothing is written). One function per service function.
 */
module Services {
  import opened Common
  import opened Money
  import opened Sums
  import opened Tables

  datatype Error =
    | NotFound | SelfDeal | BadAmount | CurrencyVanished | BelowMinimum | WrongUser | WrongStatus | NoReason
    | NotEntitled | BadVerdict | InsufficientFunds(required: int, balance: int, deficit: int) | CommissionTooSmall
    | ProviderFailed | DuplicateInvoice | NotPaid | MissingInvoice | UnknownInvoice | AmountMismatch
    | Aborted | NotPending | NoDeliveryPath | NotPossible | TargetNotEmpty | BadCode | SelfTransfer | Referenced

  type Plan = Result<Effect, Error>

  /** The plan writes a ledger entry for every balance it changes. */
  predicate Logged(p: Plan)
  {
    p.Ok? ==>
      && (p.value.first.Posting? ==> p.value.first.recorded && !p.value.first.event.DepositTrustCredit?)
      && (p.value.second.Posting? ==> p.value.second.recorded && !p.value.second.event.DepositTrustCredit?)
  }

  /** The plan is logged and touches no withdrawal. */
  predicate Ordinary(p: Plan)
  {
    Logged(p) && (p.Ok? ==> p.value.withdrawal.Keep?)
  }

  /** A money argument as it arrives. */
  datatype Asked = NotFinite | Exact(value: Raw)

  /** The amount field of a provider notification. */
  datatype Reported = Missing | Unparseable | NonFinite | Reported(value: Raw)

  /** Commission rates in hundredths of a percent; a negative vipRate means no override. */
  datatype Terms' = Terms(rate: int, vipRate: int)
  type Terms = t: Terms' | 0 <= t.rate <= 10000 witness Terms(0, -1)

  datatype Offer = Offer(buyer: nat, seller: nat, currency: nat, amount: Asked, provider: Provider)

  datatype Verdict = ForBuyer | ForSeller | Unknown

  datatype CrystalState = Payed | Unavailable | Failed | OtherState

  /** A call that pays in nothing: it may at most close a pending invoice. */
  predicate PaysNothing(w: World, p: Plan)
  {
    p.Ok? ==>
      && p.value.trust.NoTrust?
      && (p.value.first.Posting? ==> p.value.first.deal.None? && !p.value.first.source.FromDeposit?)
      && (p.value.second.Posting? ==> p.value.second.deal.None? && !p.value.second.source.FromDeposit?)
      && (p.value.deposit.Put? ==>
            && p.value.deposit.at < |w.deposits| && w.deposits[p.value.deposit.at].status.Pending?
            && p.value.deposit.row == w.deposits[p.value.deposit.at].(status := Expired))
      && (p.value.invoice.Put? ==> p.value.invoice.row.status.Pending? && p.value.invoice.at == |w.deposits|)
      && QuietForTopups(w, p.value)
  }

  /** Statuses that a top-up deal reaches only by being activated. */
  predicate Activated(s: DealStatus)
  {
    !s.PendingTopup? && !s.Cancelled? && !s.CancelledForInactivity?
  }

  /** Such a call collects nothing for a deal, activates none, and opens a top-up deal together with its invoice. */
  predicate QuietForTopups(w: World, e: Effect)
  {
    && (e.deal.Put? && e.deal.at < |w.deals| ==>
          var d, d1 := w.deals[e.deal.at], e.deal.row;
          && d1.topup == d.topup && d1.commissionPaid == d.commissionPaid
          && d1.amount == d.amount && d1.commission == d.commission && d1.origin == d.origin
          && (d1.status.PendingTopup? ==> d.status.PendingTopup?) && (Activated(d1.status) ==> Activated(d.status)))
    && (e.deal.Put? && e.deal.at >= |w.deals| ==>
          && e.deal.at == |w.deals|
          && (e.deal.row.origin.TopupFunded? ==>
                && e.deal.row.status.PendingTopup? && !e.deal.row.commissionPaid
                && e.deal.row.topup == Some(|w.deposits|)
                && e.invoice.Put? && e.invoice.row.deal == Some(e.deal.at)))
    && (e.invoice.Put? && e.invoice.row.deal.Some? ==>
          e.deal.Put? && e.deal.at == |w.deals| && e.deal.row.origin.TopupFunded?
              && e.invoice.row.deal == Some(e.deal.at))
  }

  /** A call on one deposit: it credits at most once, in the name of that deposit, and marks it paid. */
  predicate PaysOnce(w: World, p: Plan)
  {
    p.Ok? ==>
      var e := p.value;
      && e.second.NoPosting? && e.bump.NoBump?
      && (e.deposit.Put? ==>
            && e.deposit.at < |w.deposits| && !w.deposits[e.deposit.at].status.Paid?
            && e.deposit.row.purpose == w.deposits[e.deposit.at].purpose
            && e.deposit.row.deal == w.deposits[e.deposit.at].deal
            && e.deposit.row.user == w.deposits[e.deposit.at].user
            && (e.deposit.row.status.Paid? || e.deposit.row == w.deposits[e.deposit.at].(status := Expired)))
      && (e.first.Posting? ==>
            && e.deposit.Put? && e.deposit.row.status.Paid? && !e.deposit.row.purpose.Trust?
            && e.first.source == FromDeposit(e.deposit.at)
            && (if e.deposit.row.purpose.DealTopup? then e.first.deal == e.deposit.row.deal else e.first.deal.None?))
      && (e.trust.TrustCredit? ==>
            && e.deposit.Put? && e.deposit.row.status.Paid? && e.deposit.row.purpose.Trust? && e.first.NoPosting?
            && e.trust.deposit == e.deposit.at && e.trust.amount == e.deposit.row.amount
            && e.trust.user == e.deposit.row.user)
      && (e.deposit.Put? && e.deposit.row.status.Paid? && e.deposit.row.purpose.Trust? ==> e.trust.TrustCredit?)
      && (e.invoice.Put? ==>
            && e.invoice.row.status.Pending? && e.invoice.at == |w.deposits|
            && e.deal.Put? && e.deal.row.status.PendingTopup? && e.deal.row.topup == Some(|w.deposits|)
            && e.invoice.row.deal == Some(e.deal.at))
      && (e.deal.Put? ==>
            && e.deposit.Put? && e.deposit.row.status.Paid? && e.deposit.row.deal == Some(e.deal.at)
            && e.deal.at < |w.deals| && w.deals[e.deal.at].status.PendingTopup?
            && (e.invoice.Put? || e.deal.row.topup == w.deals[e.deal.at].topup)
            && (e.deal.row.status.PendingTopup? || e.deal.row.status.PendingConfirmation?)
            && e.deal.row == w.deals[e.deal.at].(status := e.deal.row.status,
                                                 commissionPaid := e.deal.row.commissionPaid,
                                                 topup := e.deal.row.topup))
  }

  /** The plan writes no deposit row but `at`, and a wallet credit is worth exactly its row. */
  predicate Pays(p: Plan, at: nat)
  {
    p.Ok? && p.value.deposit.Put? ==>
      var e := p.value;
      && e.deposit.at == at
      && (e.deposit.row.status.Paid? && e.deposit.row.purpose.Wallet? ==>
            e.first.Posting? && e.first.amount == e.deposit.row.amount && e.first.locked == 0)
  }

  predicate MarksPaid(p: Plan, at: nat)
  {
    p.Ok? && p.value.deposit.Put? && p.value.deposit.at == at && p.value.deposit.row.status.Paid?
  }

  // ----------------------------------------------------------------- shared

  function Rate(terms: Terms, buyer: User, seller: User): (rate: int)
    ensures rate >= 0
  {
    if terms.vipRate >= 0 && (buyer.vip || seller.vip) then terms.vipRate else terms.rate
  }

  function BuyerKey(d: Deal): Key { Key(d.buyer, d.currency) }
  function SellerKey(d: Deal): Key { Key(d.seller, d.currency) }

  /** The clamped change of `locked` when `amount` is released from it. */
  function Unlock(b: Balance, amount: int): int
  {
    Max(0, b.locked - amount) - b.locked
  }

  function FindDeposit(deposits: seq<Deposit>, provider: Provider, invoice: nat): (at: Option<nat>)
    ensures at.Some? ==> at.value < |deposits| && deposits[at.value].provider == provider
                         && deposits[at.value].invoice == invoice
    ensures at.None? ==> forall i :: 0 <= i < |deposits| ==>
                                       !(deposits[i].provider == provider && deposits[i].invoice == invoice)
  {
    if deposits == [] then None else
      var last := |deposits| - 1;
      if deposits[last].provider == provider && deposits[last].invoice == invoice then Some(last)
      else FindDeposit(deposits[..last], provider, invoice)
  }

  /** The local row of a new invoice; `issued` is the id the provider returned, if any. */
  function NewInvoice(w: World, row: Deposit, issued: Option<nat>): Result<Deposit, Error>
  {
    if issued.None? then Err(ProviderFailed)
    else if FindDeposit(w.deposits, row.provider, issued.value).Some? then Err(DuplicateInvoice)
    else Ok(row.(invoice := issued.value))
  }

  function TopupRow(d: Deal, deal: nat, amount: int, seen: int): Deposit
  {
    Deposit(d.buyer, d.currency, amount, d.provider, 0, Pending, DealTopup, None, Some(deal), seen)
  }

  function RefundPosting(w: World, d: Deal, amount: int): Posting
  {
    Posting(BuyerKey(d), amount, Unlock(Bal(w, BuyerKey(d)), amount), DealRefundPrincipal, FromDeal(None), None, true)
  }

  function ReleaseDebit(w: World, d: Deal, amount: int): Posting
  {
    Posting(BuyerKey(d), 0, Unlock(Bal(w, BuyerKey(d)), amount), DealReleaseDebit, FromDeal(None), None, true)
  }

  function ReleaseCredit(d: Deal, amount: int): Posting
  {
    Posting(SellerKey(d), amount, 0, DealReleaseCredit, FromDeal(None), None, true)
  }

  // ---------------------------------------------------------- deal creation

  /** The quantised amount of an offer, or the error for it. */
  function Principal(w: World, o: Offer): Result<int, Error>
  {
    if o.buyer !in w.users || o.seller !in w.users then Err(NotFound)
    else if o.buyer == o.seller then Err(SelfDeal)
    else if o.currency !in w.currencies then Err(NotFound)
    else if o.amount.NotFinite? || o.amount.value.num <= 0 then Err(BadAmount)
    else
      var amount := Quantize(o.amount.value, GridOf(w, o.currency));
      if amount <= 0 then Err(BadAmount) else Ok(amount)
  }

  function Fee(w: World, o: Offer, terms: Terms, amount: int): int
    requires o.buyer in w.users && o.seller in w.users && o.currency in w.currencies
  {
    Commission(amount, Rate(terms, w.users[o.buyer], w.users[o.seller]), GridOf(w, o.currency))
  }

  /** create_deal, the legacy entry point: lock the principal, charge nothing. */
  function CreateDeal(w: World, o: Offer, terms: Terms): (plan: Plan)
    ensures Ordinary(plan) && PaysNothing(w, plan)
  {
    var p := Principal(w, o);
    if p.Err? then Err(p.error) else
      var k := Key(o.buyer, o.currency);
      var balance := Bal(w, k).amount;
      if balance < p.value then Err(InsufficientFunds(p.value, balance, p.value - balance)) else
        Ok(NOTHING.(
             first := Posting(k, -p.value, p.value, DealLock, FromDeal(None), None, true),
             deal := Put(|w.deals|, Deal(o.buyer, o.seller, o.currency, p.value, Fee(w, o, terms, p.value),
                                         PendingConfirmation, o.provider, true, Legacy, None, false, None, None))))
  }

  /** The branches of create_deal_with_topup for a priced offer, with the amounts it computes from the balance. */
  function OpenPriced(w: World, o: Offer, amount: int, fee: int, needed: int, total: int,
                      issued: Option<nat>): (plan: Plan)
    ensures Ordinary(plan) && PaysNothing(w, plan)
  {
    var k := Key(o.buyer, o.currency);
    var balance := Bal(w, k).amount;
    var deal := Deal(o.buyer, o.seller, o.currency, amount, fee, PendingConfirmation, o.provider, true,
                     BalanceFunded, None, false, None, None);
    if balance >= needed then
      Ok(NOTHING.(
           first := Posting(k, -needed, amount, DealCreateBalanceFunded, FromDeal(Some(|w.deals|)), None, true),
           deal := Put(|w.deals|, deal)))
    else if total <= 0 then Err(CommissionTooSmall)
    else
      var waiting := deal.(status := PendingTopup, commissionPaid := false, origin := TopupFunded,
                           topup := Some(|w.deposits|));
      var invoice := NewInvoice(w, TopupRow(waiting, |w.deals|, total, balance), issued);
      if invoice.Err? then Err(invoice.error) else
        Ok(NOTHING.(
             first := Posting(k, 0, 0, DealLock, FromDeal(None), None, true),
             deal := Put(|w.deals|, waiting),
             invoice := Put(|w.deposits|, invoice.value)))
  }

  /** create_deal_with_topup: funded by the balance when it covers everything, else by an invoice. */
  function CreateDealWithTopup(w: World, o: Offer, terms: Terms, issued: Option<nat>): (plan: Plan)
    ensures Ordinary(plan) && PaysNothing(w, plan)
  {
    var p := Principal(w, o);
    if p.Err? then Err(p.error) else
      var step := GridOf(w, o.currency);
      var fee := Fee(w, o, terms, p.value);
      var gap := Max(0, p.value - Bal(w, Key(o.buyer, o.currency)).amount);
      OpenPriced(w, o, p.value, fee, Q(p.value + fee, step), Q(Q(gap, step) + fee, step), issued)
  }

  // ------------------------------------------------------- top-up settlement

  /** The commission still to be collected. */
  function DueOf(d: Deal, step: nat): int
    requires step > 0
  {
    if d.commissionPaid then 0 else Q(d.commission, step)
  }

  /** What is still missing before the deal can be activated from a balance. */
  function Remaining(d: Deal, balance: int, step: nat): int
    requires step > 0
  {
    Q(Max(0, Q(d.amount, step) - balance) + DueOf(d, step), step)
  }

  /** The deal row once its commission counts as collected, if it does. */
  function Marked(d: Deal, collected: bool): Deal
  {
    if collected then d.(commissionPaid := true) else d
  }

  /** A payment on a deal that no longer waits for it. */
  function LateEffect(w: World, at: nat, sum: int, deal: nat): Effect
    requires at < |w.deposits| && deal < |w.deals|
  {
    SettledRow(w, at, sum).(first := CreditPosting(w.deals[deal], sum, TopupLateCredit, at, deal))
  }

  /** The payment did not suffice: `credit` of it goes to the balance, the deal row becomes d. */
  function PartialEffect(w: World, at: nat, sum: int, credit: int, deal: nat, d: Deal): Effect
    requires at < |w.deposits|
  {
    SettledRow(w, at, sum).(first := CreditPosting(d, credit, TopupPartialCredit, at, deal), deal := Put(deal, d))
  }

  /** The payment suffices: credit it, lock the principal, hand the deal to the seller. */
  function ActivateEffect(w: World, at: nat, sum: int, credit: int, amount: int, deal: nat): Effect
    requires at < |w.deposits| && deal < |w.deals|
  {
    var d := w.deals[deal];
    SettledRow(w, at, sum).(
      first := Posting(BuyerKey(d), credit - amount, amount, TopupActivate, FromDeposit(at), Some(deal), true),
      deal := Put(deal, d.(status := PendingConfirmation, commissionPaid := true)))
  }

  function SettledRow(w: World, at: nat, sum: int): Effect
    requires at < |w.deposits|
  {
    NOTHING.(deposit := Put(at, w.deposits[at].(status := Paid, paidAmount := Some(sum))))
  }

  function CreditPosting(d: Deal, amount: int, event: EventType, at: nat, deal: nat): Posting
  {
    Posting(BuyerKey(d), amount, 0, event, FromDeposit(at), Some(deal), true)
  }

  /** Attach a new invoice for what remains; none is issued when nothing remains. */
  function WithReplacement(w: World, e: Effect, balance: int, step: nat, reissued: Option<nat>): (plan: Plan)
    requires step > 0 && e.deal.Put?
    ensures Ordinary(Ok(e)) ==> Ordinary(plan)
    ensures PaysOnce(w, Ok(e)) && e.invoice.Keep? && e.deal.row.status.PendingTopup? ==> PaysOnce(w, plan)
  {
    var d := e.deal.row;
    var total := Remaining(d, balance, step);
    if total <= 0 then Ok(e) else
      var invoice := NewInvoice(w, TopupRow(d, e.deal.at, total, balance), reissued);
      if invoice.Err? then Err(invoice.error) else
        Ok(e.(deal := Put(e.deal.at, d.(topup := Some(|w.deposits|))), invoice := Put(|w.deposits|, invoice.value)))
  }

  /** complete_deal_topup_payment on deposit `at`; `paid` is the reported amount, if it was usable. */
  function SettleTopup(w: World, at: nat, paid: Option<Raw>, reissued: Option<nat>): (plan: Plan)
    requires at < |w.deposits| && w.deposits[at].purpose.DealTopup?
    ensures Ordinary(plan) && PaysOnce(w, plan) && Pays(plan, at)
    ensures plan.Ok? && !w.deposits[at].status.Paid? ==> MarksPaid(plan, at)
  {
    var p := w.deposits[at];
    if p.status.Paid? then Ok(NOTHING)
    else if p.deal.None? || p.deal.value >= |w.deals| then
      Ok(NOTHING.(deposit := Put(at, p.(status := Paid,
                                        paidAmount := if paid.Some? then Some(Quantize(paid.value, 1))
                                            else p.paidAmount))))
    else
      var deal := p.deal.value;
      var d := w.deals[deal];
      if d.currency !in w.currencies then Err(CurrencyVanished) else
        var step := GridOf(w, d.currency);
        var sum := if paid.Some? then Quantize(paid.value, step) else Q(p.amount, step);
        if !d.status.PendingTopup? then Ok(LateEffect(w, at, sum, deal)) else
          SettlePending(w, at, sum, deal, step, reissued)
  }

  function SettlePending(w: World, at: nat, sum: int, deal: nat, step: nat, reissued: Option<nat>): (plan: Plan)
    requires at < |w.deposits| && deal < |w.deals| && step > 0
    requires !w.deposits[at].status.Paid? && w.deposits[at].deal == Some(deal) && w.deals[deal].status.PendingTopup?
    requires w.deposits[at].purpose.DealTopup?
    ensures Ordinary(plan) && PaysOnce(w, plan) && Pays(plan, at)
    ensures plan.Ok? ==> MarksPaid(plan, at)
  {
    var d := w.deals[deal];
    var amount, due := Q(d.amount, step), DueOf(d, step);
    var balance := Bal(w, BuyerKey(d)).amount;
    if sum < due then
      WithReplacement(w, PartialEffect(w, at, sum, sum, deal, d), balance + sum, step, reissued)
    else
      var credit := Q(sum - due, step);
      if balance + credit < amount then
        WithReplacement(w, PartialEffect(w, at, sum, credit, deal, Marked(d, due > 0)), balance + credit, step,
                        reissued)
      else
        Ok(ActivateEffect(w, at, sum, credit, amount, deal))
  }

  /** The write that closes the outstanding invoice of a cancelled top-up. */
  function ExpireLinked(w: World, d: Deal): Put<Deposit>
  {
    if d.topup.Some? && d.topup.value < |w.deposits| && w.deposits[d.topup.value].status.Pending? then
      Put(d.topup.value, w.deposits[d.topup.value].(status := Expired))
    else Keep
  }

  function CancelPendingTopup(w: World, deal: nat, user: nat): (plan: Plan)
    ensures Ordinary(plan) && PaysNothing(w, plan)
  {
    if deal >= |w.deals| then Err(NotFound)
    else if user != w.deals[deal].buyer then Err(WrongUser)
    else if !w.deals[deal].status.PendingTopup? then Err(WrongStatus)
    else Ok(NOTHING.(deposit := ExpireLinked(w, w.deals[deal]),
                     deal := Put(deal, w.deals[deal].(status := Cancelled))))
  }

  /** One row of sweep_pending_topup; the row query selects stale deals in pending_topup. */
  function ExpirePendingTopup(w: World, deal: nat): (plan: Plan)
    ensures Ordinary(plan) && PaysNothing(w, plan)
  {
    if deal >= |w.deals| then Err(NotFound)
    else if !w.deals[deal].status.PendingTopup? then Err(WrongStatus)
    else Ok(NOTHING.(deposit := ExpireLinked(w, w.deals[deal]),
                     deal := Put(deal, w.deals[deal].(status := CancelledForInactivity))))
  }

  // ---------------------------------------------------------- deal lifecycle

  function Both(d: Deal, t: Tally): Bump
  {
    Bump(d.buyer, t, d.seller, t)
  }

  function AcceptDeal(w: World, deal: nat, user: nat): (plan: Plan)
    ensures Ordinary(plan) && PaysNothing(w, plan)
  {
    if deal >= |w.deals| then Err(NotFound) else
      var d := w.deals[deal];
      if user != d.seller then Err(WrongUser)
      else if !d.status.PendingConfirmation? then Err(WrongStatus)
      else Ok(NOTHING.(deal := Put(deal, d.(status := InProgress, inProgress := true)),
                       bump := Both(d, Tally(1, 0, 0, 0))))
  }

  /** Refund the principal of a deal to its buyer and close it. */
  function Refund(w: World, deal: nat, closed: DealStatus, bump: Bump): (plan: Plan)
    requires deal < |w.deals|
    requires Activated(w.deals[deal].status) && !closed.PendingTopup?
    ensures Ordinary(plan) && PaysNothing(w, plan)
  {
    var d := w.deals[deal];
    if d.currency !in w.currencies then Err(CurrencyVanished) else
      Ok(NOTHING.(first := RefundPosting(w, d, Q(d.amount, GridOf(w, d.currency))),
                  deal := Put(deal, d.(status := closed)), bump := bump))
  }

  /** Pay the principal of a deal out to its seller and close it. */
  function Release(w: World, deal: nat, closed: DealStatus, bump: Bump): (plan: Plan)
    requires deal < |w.deals|
    requires Activated(w.deals[deal].status) && !closed.PendingTopup?
    ensures Ordinary(plan) && PaysNothing(w, plan)
  {
    var d := w.deals[deal];
    if d.currency !in w.currencies then Err(CurrencyVanished) else
      var amount := Q(d.amount, GridOf(w, d.currency));
      Ok(NOTHING.(first := ReleaseDebit(w, d, amount), second := ReleaseCredit(d, amount),
                  deal := Put(deal, d.(status := closed)), bump := bump))
  }

  function DeclineDeal(w: World, deal: nat, user: nat): (plan: Plan)
    ensures Ordinary(plan) && PaysNothing(w, plan)
  {
    if deal >= |w.deals| then Err(NotFound)
    else if user != w.deals[deal].seller then Err(WrongUser)
    else if !w.deals[deal].status.PendingConfirmation? then Err(WrongStatus)
    else Refund(w, deal, Cancelled, NoBump)
  }

  function FinishDeal(w: World, deal: nat, user: nat): (plan: Plan)
    ensures Ordinary(plan) && PaysNothing(w, plan)
  {
    if deal >= |w.deals| then Err(NotFound)
    else if user != w.deals[deal].buyer then Err(WrongUser)
    else if !w.deals[deal].status.InProgress? then Err(WrongStatus)
    else Release(w, deal, Completed, Both(w.deals[deal], Tally(0, 0, 1, 0)))
  }

  function RequestCancel(w: World, deal: nat, user: nat): (plan: Plan)
    ensures Ordinary(plan) && PaysNothing(w, plan)
  {
    if deal >= |w.deals| then Err(NotFound) else
      var d := w.deals[deal];
      if user != d.buyer && user != d.seller then Err(WrongUser)
      else if !d.status.InProgress? then Err(WrongStatus)
      else Ok(NOTHING.(deal := Put(deal, d.(status := PendingCancellation, cancelBy := Some(user)))))
  }

  function RevokeCancel(w: World, deal: nat, user: nat): (plan: Plan)
    ensures Ordinary(plan) && PaysNothing(w, plan)
  {
    if deal >= |w.deals| then Err(NotFound) else
      var d := w.deals[deal];
      if !d.status.PendingCancellation? then Err(WrongStatus)
      else if d.cancelBy != Some(user) then Err(WrongUser)
      else Ok(NOTHING.(deal := Put(deal, d.(status := InProgress, cancelBy := None))))
  }

  function AcceptCancel(w: World, deal: nat, user: nat): (plan: Plan)
    ensures Ordinary(plan) && PaysNothing(w, plan)
  {
    if deal >= |w.deals| then Err(NotFound) else
      var d := w.deals[deal];
      if !d.status.PendingCancellation? then Err(WrongStatus)
      else if user != d.buyer && user != d.seller then Err(WrongUser)
      else if d.cancelBy == Some(user) then Err(WrongUser)
      else Refund(w, deal, Cancelled, NoBump)
  }

  function StartArbitration(w: World, deal: nat, user: nat, reasonGiven: bool): (plan: Plan)
    ensures Ordinary(plan) && PaysNothing(w, plan)
  {
    if deal >= |w.deals| then Err(NotFound) else
      var d := w.deals[deal];
      if user != d.buyer && user != d.seller then Err(WrongUser)
      else if !d.status.InProgress? && !d.status.PendingCancellation? then Err(WrongStatus)
      else if !reasonGiven then Err(NoReason)
      else Ok(NOTHING.(deal := Put(deal, d.(status := Arbitration, disputedBy := Some(user))),
                       bump := Both(d, Tally(0, 1, 0, 0))))
  }

  /** `entitled` says whether the caller is an admin or an arbiter. */
  function ResolveArbitration(w: World, deal: nat, entitled: bool, verdict: Verdict): (plan: Plan)
    ensures Ordinary(plan) && PaysNothing(w, plan)
  {
    if deal >= |w.deals| then Err(NotFound) else
      var d, won, lost := w.deals[deal], Tally(0, 0, 1, 0), Tally(0, 0, 0, 1);
      if !entitled then Err(NotEntitled)
      else if !d.status.Arbitration? then Err(WrongStatus)
      else
        match verdict
        case ForBuyer => Refund(w, deal, ResolvedForBuyer, Bump(d.buyer, won, d.seller, lost))
        case ForSeller => Release(w, deal, ResolvedForSeller, Bump(d.buyer, lost, d.seller, won))
        case Unknown => Err(BadVerdict)
  }

  /** One row of sweep_inactivity; the row query selects the two stale statuses. */
  function RefundInactive(w: World, deal: nat): (plan: Plan)
    ensures Ordinary(plan) && PaysNothing(w, plan)
  {
    if deal >= |w.deals| then Err(NotFound)
    else if w.deals[deal].status.PendingConfirmation? then Refund(w, deal, CancelledForInactivity, NoBump)
    else if w.deals[deal].status.PendingCancellation? then Refund(w, deal, Cancelled, NoBump)
    else Err(WrongStatus)
  }

  // ---------------------------------------------------------------- deposits

  /** create_deposit_invoice as the wallet page calls it: never for a deal. */
  function OpenDeposit(w: World, user: nat, currency: nat, amount: Asked, trust: bool, provider: Provider,
                       issued: Option<nat>): (plan: Plan)
    ensures Ordinary(plan) && PaysNothing(w, plan)
  {
    if user !in w.users || currency !in w.currencies then Err(NotFound)
    else if amount.NotFinite? then Err(BadAmount)
    else
      var sum := Quantize(amount.value, GridOf(w, currency));
      if sum < w.currencies[currency].minDeposit then Err(BelowMinimum) else
        var row := Deposit(user, currency, sum, provider, 0, Pending, if trust then Trust else Wallet, None, None, 0);
        var invoice := NewInvoice(w, row, issued);
        if invoice.Err? then Err(invoice.error) else Ok(NOTHING.(invoice := Put(|w.deposits|, invoice.value)))
  }

  /** credit_deposit on deposit `at`. */
  function CreditDeposit(w: World, at: nat, paid: Option<Raw>, reissued: Option<nat>): (plan: Plan)
    requires at < |w.deposits|
    ensures Ordinary(plan) && PaysOnce(w, plan) && Pays(plan, at)
    ensures plan.Ok? && !w.deposits[at].status.Paid? ==> MarksPaid(plan, at)
  {
    var p := w.deposits[at];
    if p.status.Paid? then Ok(NOTHING)
    else if p.purpose.DealTopup? then SettleTopup(w, at, paid, reissued)
    else
      var step := if p.currency in w.currencies then GridOf(w, p.currency) else GridStep(8);
      var nominal := Q(p.amount, step);
      var reported := if paid.Some? then Some(Quantize(paid.value, step)) else p.paidAmount;
      var sum := if paid.Some? then Max(nominal, reported.value) else nominal;
      var row := Put(at, p.(status := Paid, amount := sum, paidAmount := reported));
      if p.purpose.Trust? then
        if p.user !in w.users then Err(NotFound)
        else Ok(NOTHING.(deposit := row, trust := TrustCredit(p.user, p.currency, sum, at)))
      else
        Ok(NOTHING.(deposit := row,
                    first := Posting(Key(p.user, p.currency), sum, 0, DepositWalletCredit, FromDeposit(at), None,
                                     true)))
  }

  /** The reported amount covers the expected one up to one quantum. */
  predicate AmountsMatch(reported: Reported, expected: int)
  {
    reported.Reported? && reported.value.num >= (expected - 1) * reported.value.den
  }

  /** The part of both paid handlers after the status checks. */
  function CreditReported(w: World, at: nat, reported: Reported, reissued: Option<nat>): (plan: Plan)
    requires at < |w.deposits|
    ensures Ordinary(plan) && PaysOnce(w, plan) && Pays(plan, at)
    ensures plan.Ok? && !w.deposits[at].status.Paid? ==> MarksPaid(plan, at)
  {
    if reported.NonFinite? then Err(Aborted)
    else if !w.deposits[at].purpose.DealTopup?
        && !AmountsMatch(reported, w.deposits[at].amount) then Err(AmountMismatch)
    else CreditDeposit(w, at, if reported.Reported? then Some(reported.value) else None, reissued)
  }

  function InvoicePaid(w: World, statusPaid: bool, invoice: Option<nat>, reported: Reported,
                       reissued: Option<nat>): (plan: Plan)
    ensures Ordinary(plan) && PaysOnce(w, plan)
  {
    if !statusPaid then Err(NotPaid)
    else if invoice.None? then Err(MissingInvoice)
    else
      var at := FindDeposit(w.deposits, CryptoBot, invoice.value);
      if at.None? then Err(UnknownInvoice)
      else if w.deposits[at.value].status.Paid? then Ok(NOTHING)
      else CreditReported(w, at.value, reported, reissued)
  }

  /** Flip a deposit to expired unless it is already in a terminal status. */
  function Expire(w: World, at: nat): (plan: Plan)
    requires at < |w.deposits|
    ensures Ordinary(plan) && PaysOnce(w, plan) && Pays(plan, at)
  {
    if w.deposits[at].status.Pending? then Ok(NOTHING.(deposit := Put(at, w.deposits[at].(status := Expired))))
    else Ok(NOTHING)
  }

  function InvoiceExpired(w: World, invoice: Option<nat>): (plan: Plan)
    ensures Ordinary(plan) && PaysOnce(w, plan)
  {
    if invoice.None? then Err(MissingInvoice) else
      var at := FindDeposit(w.deposits, CryptoBot, invoice.value);
      if at.None? then Err(UnknownInvoice) else Expire(w, at.value)
  }

  function CrystalpayNotice(w: World, invoice: Option<nat>, state: CrystalState, reported: Reported,
                            reissued: Option<nat>): (plan: Plan)
    ensures Ordinary(plan) && PaysOnce(w, plan)
  {
    if invoice.None? then Err(MissingInvoice) else
      var found := FindDeposit(w.deposits, Crystalpay, invoice.value);
      if found.None? then Err(UnknownInvoice) else
        var at := found.value;
        match state
        case Payed =>
          if w.deposits[at].status.Paid? then Ok(NOTHING)
          else if !w.deposits[at].status.Pending? then Err(NotPending)
          else CreditReported(w, at, reported, reissued)
        case Unavailable => Expire(w, at)
        case Failed => Expire(w, at)
        case OtherState => Ok(NOTHING)
  }

  /** The polling fallback once the provider answers that the invoice is paid. */
  function PollPaid(w: World, at: nat, reissued: Option<nat>): (plan: Plan)
    ensures Ordinary(plan) && PaysOnce(w, plan)
  {
    if at >= |w.deposits| then Err(NotFound)
    else if !w.deposits[at].status.Pending? then Ok(NOTHING)
    else CreditDeposit(w, at, None, reissued)
  }

  /** The polling fallback, or one row of sweep_expired_deposits. */
  function ExpireDeposit(w: World, at: nat): (plan: Plan)
    ensures Ordinary(plan) && PaysOnce(w, plan)
  {
    if at >= |w.deposits| then Err(NotFound) else Expire(w, at)
  }

  // ------------------------------------------------------------- withdrawals

  /** Phase 1 of create_withdrawal. In automatic mode the transfer call starts after it. */
  function RequestWithdrawal(w: World, user: nat, currency: nat, amount: int, configured: bool, enabled: bool,
                             admins: bool): (plan: Plan)
    ensures Logged(plan) && PaysNothing(w, plan)
  {
    if user !in w.users || currency !in w.currencies then Err(NotFound)
    else if amount < w.currencies[currency].minWithdraw then Err(BelowMinimum)
    else if !(configured && enabled) && !admins then Err(NoDeliveryPath)
    else
      var k := Key(user, currency);
      var balance := Bal(w, k).amount;
      if balance < amount then Err(InsufficientFunds(amount, balance, amount - balance)) else
        var row := if configured && enabled
                   then Withdrawal(user, currency, amount, Awaiting, NoNote, admins, InFlight, Calling, false, false,
                                   false)
                   else Withdrawal(user, currency, amount, Awaiting, NoNote, admins, NotSent, Gone, false, false,
                                   false);
        Ok(NOTHING.(
             first := Posting(k, -amount, amount, WithdrawalLock, FromWithdrawal(|w.withdrawals|), None, true),
             withdrawal := Put(|w.withdrawals|, row)))
  }

  function WithdrawalKey(x: Withdrawal): Key { Key(x.user, x.currency) }

  function Rewrite(w: World, at: nat, x: Withdrawal): (plan: Plan)
    ensures Logged(plan) && PaysNothing(w, plan)
  {
    Ok(NOTHING.(withdrawal := Put(at, x)))
  }

  /** Phase 3 after a successful transfer call. */
  function FinishSent(w: World, at: nat): (plan: Plan)
    ensures Logged(plan) && PaysNothing(w, plan)
  {
    if at >= |w.withdrawals| || !w.withdrawals[at].worker.GotOk? then Err(NotPossible) else
      var x := w.withdrawals[at];
      if !x.status.Awaiting? then Rewrite(w, at, x.(worker := Gone))
      else
        Ok(NOTHING.(
             first := Posting(WithdrawalKey(x), 0, Unlock(Bal(w, WithdrawalKey(x)), x.amount), WithdrawalSent,
                              FromWithdrawal(at), None, true),
             withdrawal := Put(at, x.(status := Sent, note := Transferred, worker := Gone))))
  }

  /** The branch after a failed transfer call: without admins it refunds, and checks no status. */
  function FinishFailed(w: World, at: nat): (plan: Plan)
    ensures Logged(plan) && PaysNothing(w, plan)
  {
    if at >= |w.withdrawals| || !w.withdrawals[at].worker.GotError? then Err(NotPossible) else
      var x := w.withdrawals[at];
      if x.admins then Rewrite(w, at, x.(worker := Gone))
      else
        Ok(NOTHING.(
             first := Posting(WithdrawalKey(x), x.amount, Unlock(Bal(w, WithdrawalKey(x)), x.amount),
                              WithdrawalAutoFailedRefund, FromWithdrawal(at), None, true),
             withdrawal := Put(at, x.(status := Rejected, note := AutoFailed, worker := Gone))))
  }

  /** Phase B of sweep_stale_withdrawals: the provider says whether the transfer exists. */
  function AskProvider(w: World, at: nat): (plan: Plan)
    ensures Logged(plan) && PaysNothing(w, plan)
  {
    if at >= |w.withdrawals| || !w.withdrawals[at].stale
        || !w.withdrawals[at].status.Awaiting? then Err(NotPossible) else
      var x := w.withdrawals[at];
      Rewrite(w, at, if x.call.Shipped? then x.(heardYes := true) else x.(heardNo := true))
  }

  /** Phase C of sweep_stale_withdrawals on a fresh row; it writes no ledger entry. */
  function Reconcile(w: World, at: nat, matched: bool): (plan: Plan)
    ensures PaysNothing(w, plan)
  {
    if at >= |w.withdrawals| then Err(NotPossible) else
      var x := w.withdrawals[at];
      if !(if matched then x.heardYes else x.heardNo) then Err(NotPossible)
      else if !x.status.Awaiting? then Ok(NOTHING)
      else
        var unlock := Unlock(Bal(w, WithdrawalKey(x)), x.amount);
        if matched then
          Ok(NOTHING.(
               first := Posting(WithdrawalKey(x), 0, unlock, WithdrawalSent, FromWithdrawal(at), None, false),
               withdrawal := Put(at, x.(status := Sent, note := SweepSent))))
        else
          Ok(NOTHING.(
               first := Posting(WithdrawalKey(x), x.amount, unlock, WithdrawalAutoFailedRefund, FromWithdrawal(at),
                                None, false),
               withdrawal := Put(at, x.(status := Rejected, note := SweepRefunded))))
  }

  /** A step of the outside world on one withdrawal. */
  datatype Outside = Ship | Lose | ReplyOk | ReplyError | Crash | GrowStale

  function Happen(w: World, at: nat, o: Outside): (plan: Plan)
    ensures Logged(plan) && PaysNothing(w, plan)
  {
    if at >= |w.withdrawals| then Err(NotPossible) else
      var x := w.withdrawals[at];
      match o
      case Ship => if x.call.InFlight? then Rewrite(w, at, x.(call := Shipped)) else Err(NotPossible)
      case Lose => if x.call.InFlight? then Rewrite(w, at, x.(call := Lost)) else Err(NotPossible)
      case ReplyOk =>
        if x.worker.Calling? && x.call.Shipped? then Rewrite(w, at, x.(worker := GotOk)) else Err(NotPossible)
      case ReplyError => if x.worker.Calling? then Rewrite(w, at, x.(worker := GotError)) else Err(NotPossible)
      case Crash => Rewrite(w, at, x.(worker := Gone))
      case GrowStale => Rewrite(w, at, x.(stale := true))
  }

  // -------------------------------------------------------------------- runs

  datatype Event =
    | EvCreateDeal(offer: Offer, terms: Terms)
    | EvCreateDealWithTopup(offer: Offer, terms: Terms, issued: Option<nat>)
    | EvCancelPendingTopup(deal: nat, user: nat)
    | EvExpirePendingTopup(deal: nat)
    | EvAccept(deal: nat, user: nat)
    | EvDecline(deal: nat, user: nat)
    | EvFinish(deal: nat, user: nat)
    | EvRequestCancel(deal: nat, user: nat)
    | EvRevokeCancel(deal: nat, user: nat)
    | EvAcceptCancel(deal: nat, user: nat)
    | EvStartArbitration(deal: nat, user: nat, reasonGiven: bool)
    | EvResolveArbitration(deal: nat, entitled: bool, verdict: Verdict)
    | EvRefundInactive(deal: nat)
    | EvOpenDeposit(user: nat, currency: nat, asked: Asked, trust: bool, provider: Provider, issued: Option<nat>)
    | EvInvoicePaid(statusPaid: bool, invoice: Option<nat>, reported: Reported, issued: Option<nat>)
    | EvInvoiceExpired(invoice: Option<nat>)
    | EvCrystalpayNotice(invoice: Option<nat>, state: CrystalState, reported: Reported, issued: Option<nat>)
    | EvPollPaid(deposit: nat, issued: Option<nat>)
    | EvExpireDeposit(deposit: nat)
    | EvRequestWithdrawal(user: nat, currency: nat, amount: int, configured: bool, enabled: bool, admins: bool)
    | EvFinishSent(withdrawal: nat)
    | EvFinishFailed(withdrawal: nat)
    | EvAskProvider(withdrawal: nat)
    | EvReconcile(withdrawal: nat, matched: bool)
    | EvOutside(withdrawal: nat, outside: Outside)

  /** The events of the withdrawal protocol. */
  predicate OnWithdrawal(e: Event)
  {
    e.EvRequestWithdrawal? || e.EvFinishSent? || e.EvFinishFailed? || e.EvAskProvider? || e.EvReconcile? || e.EvOutside?
  }

  /** The events that may pay a deposit or close it. */
  predicate OnDeposit(e: Event)
  {
    e.EvInvoicePaid? || e.EvInvoiceExpired? || e.EvCrystalpayNotice? || e.EvPollPaid? || e.EvExpireDeposit?
  }

  function DepositPlan(w: World, e: Event): (plan: Plan)
    requires OnDeposit(e)
    ensures Ordinary(plan) && PaysOnce(w, plan)
  {
    match e
    case EvInvoicePaid(s, n, r, i) => InvoicePaid(w, s, n, r, i)
    case EvInvoiceExpired(n) => InvoiceExpired(w, n)
    case EvCrystalpayNotice(n, s, r, i) => CrystalpayNotice(w, n, s, r, i)
    case EvPollPaid(p, i) => PollPaid(w, p, i)
    case EvExpireDeposit(p) => ExpireDeposit(w, p)
  }

  function WithdrawalPlan(w: World, e: Event): (plan: Plan)
    requires OnWithdrawal(e)
    ensures PaysNothing(w, plan) && (!e.EvReconcile? ==> Logged(plan))
  {
    match e
    case EvRequestWithdrawal(u, c, a, f, n, m) => RequestWithdrawal(w, u, c, a, f, n, m)
    case EvFinishSent(x) => FinishSent(w, x)
    case EvFinishFailed(x) => FinishFailed(w, x)
    case EvAskProvider(x) => AskProvider(w, x)
    case EvReconcile(x, m) => Reconcile(w, x, m)
    case EvOutside(x, o) => Happen(w, x, o)
  }

  function DealPlan(w: World, e: Event): (plan: Plan)
    requires !OnDeposit(e) && !OnWithdrawal(e)
    ensures Ordinary(plan) && PaysNothing(w, plan)
  {
    match e
    case EvCreateDeal(o, t) => CreateDeal(w, o, t)
    case EvCreateDealWithTopup(o, t, i) => CreateDealWithTopup(w, o, t, i)
    case EvCancelPendingTopup(d, u) => CancelPendingTopup(w, d, u)
    case EvExpirePendingTopup(d) => ExpirePendingTopup(w, d)
    case EvAccept(d, u) => AcceptDeal(w, d, u)
    case EvDecline(d, u) => DeclineDeal(w, d, u)
    case EvFinish(d, u) => FinishDeal(w, d, u)
    case EvRequestCancel(d, u) => RequestCancel(w, d, u)
    case EvRevokeCancel(d, u) => RevokeCancel(w, d, u)
    case EvAcceptCancel(d, u) => AcceptCancel(w, d, u)
    case EvStartArbitration(d, u, r) => StartArbitration(w, d, u, r)
    case EvResolveArbitration(d, n, v) => ResolveArbitration(w, d, n, v)
    case EvRefundInactive(d) => RefundInactive(w, d)
    case EvOpenDeposit(u, c, a, t, p, i) => OpenDeposit(w, u, c, a, t, p, i)
  }

  function PlanOf(w: World, e: Event): (plan: Plan)
    ensures !e.EvReconcile? ==> Logged(plan)
    ensures !OnWithdrawal(e) ==> Ordinary(plan)
    ensures if OnDeposit(e) then PaysOnce(w, plan) else PaysNothing(w, plan)
  {
    if OnDeposit(e) then DepositPlan(w, e)
    else if OnWithdrawal(e) then WithdrawalPlan(w, e)
    else DealPlan(w, e)
  }

  /** A refused call changes nothing. */
  function Step(w: World, e: Event): World
  {
    var plan := PlanOf(w, e);
    if plan.Ok? then Apply(w, plan.value) else w
  }

  function Run(w: World, events: seq<Event>): World
  {
    if events == [] then w else Step(Run(w, events[..|events| - 1]), events[|events| - 1])
  }
}
