/** What a payment on a deal's invoice does, branch by branch and to the last column. */
module TopupRules {
  import opened Common
  import opened Money
  import opened Sums
  import opened Tables
  import opened Services
  import opened Books
  import opened Safety
  import opened Openings
  import opened Payments

  // ----------------------------------------------------------------- the rules

  /** What a message of payment counts for: the reported amount, or the invoiced one if it names none. */
  ghost predicate CountsAs(p: Deposit, e: Event, step: nat, sum: int)
    requires OnDeposit(e) && MessageOf(e) == SaysPaid && step > 0
  {
    if !e.EvPollPaid? && e.reported.Reported?
    then IsNearest(e.reported.value.num, e.reported.value.den, step, sum)
    else sum == p.amount
  }

  /**
    Deposit `at` has been paid with `sum`: its deal now reads d, its buyer's account has
    changed by `amount` and `locked` with one entry for it, and `invoices` have been opened.
   */
  ghost predicate Received(w: World, at: nat, sum: int, d: Deal, amount: int, locked: int, event: EventType,
                           invoices: seq<Deposit>, after: World)
    requires at < |w.deposits| && w.deposits[at].deal.Some? && w.deposits[at].deal.value < |w.deals|
  {
    var p, j, k := w.deposits[at], w.deposits[at].deal.value, Key(d.buyer, d.currency);
    var b := Bal(w, k);
    && after.currencies == w.currencies && after.users == w.users && after.withdrawals == w.withdrawals
    && after.deals == w.deals[j := d]
    && after.deposits == w.deposits[at := p.(status := Paid, paidAmount := Some(sum))] + invoices
    && (forall k' :: Bal(after, k') == if k' == k then Balance(b.amount + amount, b.locked + locked) else Bal(w, k'))
    && after.ledger == w.ledger + if amount == 0 && locked == 0 then [] else
         [Entry(k, event, FromDeposit(at), Some(j), b.amount, amount, b.amount + amount,
                b.locked, locked, b.locked + locked)]
  }

  /** The commission is still to be collected. */
  function Owed(d: Deal): int
  {
    if d.commissionPaid then 0 else d.commission
  }

  /** What the deal d still needs when its buyer has `balance`, rounded to the grid. */
  ghost predicate StillMissing(d: Deal, balance: int, step: nat, total: int)
    requires step > 0
  {
    IsNearest((if balance < d.amount then d.amount - balance else 0) + Owed(d), 1, step, total)
  }

  function NextInvoice(d: Deal, j: nat, total: int, seen: int, invoice: nat): Deposit
  {
    Deposit(d.buyer, d.currency, total, d.provider, invoice, Pending, DealTopup, None, Some(j), seen)
  }

  /**
    A payment that leaves the deal short: `credit` of it goes to the balance, the deal reads d,
    and a new invoice asks for what is still missing. Where nothing is, there is none; where
    the provider issues none, or one that exists, nothing happens at all.
   */
  ghost predicate Short(w: World, at: nat, sum: int, d: Deal, credit: int, total: int, issued: Option<nat>,
                        after: World)
    requires at < |w.deposits| && w.deposits[at].deal.Some? && w.deposits[at].deal.value < |w.deals|
  {
    var j, seen := w.deposits[at].deal.value, Bal(w, Key(d.buyer, d.currency)).amount + credit;
    if total <= 0 then Received(w, at, sum, d, credit, 0, TopupPartialCredit, [], after)
    else if issued.Some? && Unused(w.deposits, d.provider, issued.value) then
      Received(w, at, sum, d.(topup := Some(|w.deposits|)), credit, 0, TopupPartialCredit,
               [NextInvoice(d, j, total, seen, issued.value)], after)
    else after == w
  }

  // ------------------------------------------------------------------ the proofs

  lemma EffectReceives(w: World, at: nat, sum: int, d: Deal, amount: int, locked: int, event: EventType,
                       invoices: seq<Deposit>, e: Effect, after: World)
    requires at < |w.deposits| && w.deposits[at].deal.Some? && w.deposits[at].deal.value < |w.deals|
    requires after == Apply(w, e) && |invoices| <= 1
    requires var j := w.deposits[at].deal.value;
             && e.second.NoPosting? && e.withdrawal.Keep? && e.trust.NoTrust? && e.bump.NoBump?
             && e.first == Posting(BuyerKey(d), amount, locked, event, FromDeposit(at), Some(j), true)
             && e.deposit == Put.Put(at, w.deposits[at].(status := Paid, paidAmount := Some(sum)))
             && (e.deal == Put.Put(j, d) || (e.deal.Keep? && d == w.deals[j]))
             && e.invoice == if invoices == [] then Keep else Put.Put(|w.deposits|, invoices[0])
    ensures Received(w, at, sum, d, amount, locked, event, invoices, after)
  {
  }

  lemma RemainingIs(w: World, d: Deal, balance: int, step: nat, total: int)
    requires DealOk(w, d) && step == GridOf(w, d.currency) && StillMissing(d, balance, step, total)
    ensures Remaining(d, balance, step) == total
  {
    QuantizeIdempotent(Raw(0, 1), d.amount, step);
    QuantizeIdempotent(Raw(0, 1), d.commission, step);
    QuantizeIsNearest(Raw(Max(0, d.amount - balance) + Owed(d), 1), step, total);
  }

  /** The write of a short payment before a new invoice is attached, and after. */
  lemma ReplacementIsShort(w: World, at: nat, sum: int, j: nat, d: Deal, credit: int, total: int, e: Effect,
                           balance: int, step: nat, issued: Option<nat>, plan: Plan, after: World)
    requires at < |w.deposits| && w.deposits[at].deal == Some(j) && j < |w.deals|
    requires e == PartialEffect(w, at, sum, credit, j, d) && balance == Bal(w, BuyerKey(d)).amount + credit
    requires step > 0 && Remaining(d, balance, step) == total && plan == WithReplacement(w, e, balance, step, issued)
    requires after == if plan.Ok? then Apply(w, plan.value) else w
    ensures Short(w, at, sum, d, credit, total, issued, after)
  {
    if total <= 0 {
      EffectReceives(w, at, sum, d, credit, 0, TopupPartialCredit, [], e, after);
    } else if issued.Some? {
      UnusedIsNotFound(w.deposits, d.provider, issued.value);
      if plan.Ok? {
        EffectReceives(w, at, sum, d.(topup := Some(|w.deposits|)), credit, 0, TopupPartialCredit,
                       [NextInvoice(d, j, total, balance, issued.value)], plan.value, after);
      }
    }
  }

  function CreditFrom(d: Deal, sum: int): int
  {
    if sum < Owed(d) then sum else sum - Owed(d)
  }

  /** The payment covers the commission, and with the balance the principal. */
  predicate Suffices(w: World, d: Deal, sum: int)
  {
    sum >= Owed(d) && Bal(w, Key(d.buyer, d.currency)).amount + CreditFrom(d, sum) >= d.amount
  }

  /** The deal once a payment that does not suffice has, or has not, covered the commission. */
  function CommissionMarked(d: Deal, sum: int): Deal
  {
    d.(commissionPaid := d.commissionPaid || (sum >= d.commission > 0))
  }

  /** The whole rule, for the deal d that deposit `at` was opened for. */
  ghost predicate ByTheRules(w: World, at: nat, sum: int, d: Deal, step: nat, total: int, issued: Option<nat>,
                             after: World)
    requires at < |w.deposits| && w.deposits[at].deal.Some? && w.deposits[at].deal.value < |w.deals| && step > 0
  {
    var credit, balance := CreditFrom(d, sum), Bal(w, Key(d.buyer, d.currency)).amount;
    if d.status != PendingTopup then
      Received(w, at, sum, d, sum, 0, TopupLateCredit, [], after)
    else if Suffices(w, d, sum) then
      Received(w, at, sum, d.(status := PendingConfirmation, commissionPaid := true), credit - d.amount, d.amount,
               TopupActivate, [], after)
    else
      StillMissing(CommissionMarked(d, sum), balance + credit, step, total)
      ==> Short(w, at, sum, CommissionMarked(d, sum), credit, total, issued, after)
  }

  /** SettlePending with the roundings of stored amounts resolved. */
  lemma PendingPlan(w: World, at: nat, sum: int, j: nat, step: nat, issued: Option<nat>, plan: Plan)
    requires Valid(w) && at < |w.deposits| && j < |w.deals| && step == GridOf(w, w.deals[j].currency)
    requires !w.deposits[at].status.Paid? && w.deposits[at].deal == Some(j) && w.deals[j].status.PendingTopup?
    requires w.deposits[at].purpose.DealTopup? && OnGrid(sum, step)
    requires plan == SettlePending(w, at, sum, j, step, issued)
    ensures var d, credit := w.deals[j], CreditFrom(w.deals[j], sum);
            plan == if Suffices(w, d, sum) then Ok(ActivateEffect(w, at, sum, credit, d.amount, j))
                    else WithReplacement(w, PartialEffect(w, at, sum, credit, j, CommissionMarked(d, sum)),
                                         Bal(w, BuyerKey(d)).amount + credit, step, issued)
  {
    StoredOnGrid(w, j);
    CreditOnGrid(w, j, sum);
  }

  lemma EnoughByTheRules(w: World, at: nat, sum: int, j: nat, step: nat, total: int, issued: Option<nat>, e: Effect,
                         after: World)
    requires at < |w.deposits| && w.deposits[at].deal == Some(j) && j < |w.deals| && step > 0
    requires w.deals[j].status.PendingTopup? && Suffices(w, w.deals[j], sum)
    requires e == ActivateEffect(w, at, sum, CreditFrom(w.deals[j], sum), w.deals[j].amount, j)
    requires after == Apply(w, e)
    ensures ByTheRules(w, at, sum, w.deals[j], step, total, issued, after)
  {
    var d, credit := w.deals[j], CreditFrom(w.deals[j], sum);
    EffectReceives(w, at, sum, d.(status := PendingConfirmation, commissionPaid := true), credit - d.amount, d.amount,
                   TopupActivate, [], e, after);
  }

  lemma ShortByTheRules(w: World, at: nat, sum: int, j: nat, d: Deal, step: nat, total: int, issued: Option<nat>,
                        plan: Plan, after: World)
    requires at < |w.deposits| && w.deposits[at].deal == Some(j) && j < |w.deals|
    requires w.deals[j].status.PendingTopup? && !Suffices(w, w.deals[j], sum)
    requires d == CommissionMarked(w.deals[j], sum) && DealOk(w, d) && step == GridOf(w, d.currency)
    requires var credit := CreditFrom(w.deals[j], sum);
             plan == WithReplacement(w, PartialEffect(w, at, sum, credit, j, d), Bal(w, BuyerKey(d)).amount + credit,
                                     step, issued)
    requires after == if plan.Ok? then Apply(w, plan.value) else w
    ensures ByTheRules(w, at, sum, w.deals[j], step, total, issued, after)
  {
    var credit := CreditFrom(w.deals[j], sum);
    var balance := Bal(w, BuyerKey(d)).amount + credit;
    if StillMissing(d, balance, step, total) {
      RemainingIs(w, d, balance, step, total);
      ReplacementIsShort(w, at, sum, j, d, credit, total, PartialEffect(w, at, sum, credit, j, d), balance, step,
                         issued, plan, after);
    }
  }

  lemma PendingByTheRules(w: World, at: nat, sum: int, j: nat, step: nat, total: int, issued: Option<nat>, plan: Plan,
                          after: World)
    requires Valid(w) && at < |w.deposits| && j < |w.deals| && step == GridOf(w, w.deals[j].currency)
    requires !w.deposits[at].status.Paid? && w.deposits[at].deal == Some(j) && w.deals[j].status.PendingTopup?
    requires w.deposits[at].purpose.DealTopup? && OnGrid(sum, step)
    requires plan == SettlePending(w, at, sum, j, step, issued)
    requires after == if plan.Ok? then Apply(w, plan.value) else w
    ensures ByTheRules(w, at, sum, w.deals[j], step, total, issued, after)
  {
    PendingPlan(w, at, sum, j, step, issued, plan);
    assert DealOk(w, w.deals[j]);
    if Suffices(w, w.deals[j], sum) {
      EnoughByTheRules(w, at, sum, j, step, total, issued, plan.value, after);
    } else {
      ShortByTheRules(w, at, sum, j, CommissionMarked(w.deals[j], sum), step, total, issued, plan, after);
    }
  }

  lemma SumIs(w: World, e: Event, at: nat, sum: int, step: nat)
    requires OnDeposit(e) && MessageOf(e) == SaysPaid && at < |w.deposits| && DepositOk(w, w.deposits[at])
    requires step == GridOf(w, w.deposits[at].currency) && CountsAs(w.deposits[at], e, step, sum)
    ensures OnGrid(sum, step)
    ensures sum == if PaidWith(e).Some? then Quantize(PaidWith(e).value, step) else Q(w.deposits[at].amount, step)
  {
    QuantizeIdempotent(Raw(0, 1), w.deposits[at].amount, step);
    if PaidWith(e).Some? {
      QuantizeIsNearest(e.reported.value, step, sum);
    }
  }

  lemma SettlingPlan(w: World, at: nat, j: nat, paid: Option<Raw>, issued: Option<nat>, sum: int, step: nat)
    requires at < |w.deposits| && j < |w.deals| && w.deposits[at].deal == Some(j)
    requires w.deposits[at].purpose.DealTopup? && !w.deposits[at].status.Paid?
    requires w.deals[j].currency in w.currencies && step == GridOf(w, w.deals[j].currency)
    requires sum == if paid.Some? then Quantize(paid.value, step) else Q(w.deposits[at].amount, step)
    ensures CreditDeposit(w, at, paid, issued)
         == if w.deals[j].status.PendingTopup? then SettlePending(w, at, sum, j, step, issued)
            else Ok(LateEffect(w, at, sum, j))
  {
  }

  /**
    A message of payment on the invoice of a deal, once taken, does this and nothing else: on
    a deal that no longer waits the sum is credited whole; if it suffices, the deal is handed
    to the seller with its principal locked and its commission taken; if not, it is credited
    less the commission it covers, and the rest is invoiced again.
   */
  lemma {:induction false} TopupPaymentFollowsRules(w: World, e: Event, at: nat, sum: int, total: int)
    requires Valid(w) && OnDeposit(e) && MessageOf(e) == SaysPaid
    requires at < |w.deposits| && About(w.deposits[at], at, e) && Taken(w.deposits[at], e)
    requires w.deposits[at].purpose == DealTopup
    requires w.deposits[at].currency in w.currencies ==>
               CountsAs(w.deposits[at], e, GridOf(w, w.deposits[at].currency), sum)
    ensures var p := w.deposits[at];
            && p.deal.Some? && p.deal.value < |w.deals| && p.currency in w.currencies
            && ByTheRules(w, at, sum, w.deals[p.deal.value], GridOf(w, p.currency), total, e.issued, Step(w, e))
  {
    var p, plan, after := w.deposits[at], PlanOf(w, e), Step(w, e);
    assert DepositOk(w, p);
    var j, step := p.deal.value, GridOf(w, p.currency);
    assert DealOk(w, w.deals[j]);
    PaidPlan(w, e, at, plan);
    SumIs(w, e, at, sum, step);
    SettlingPlan(w, at, j, PaidWith(e), e.issued, sum, step);
    if w.deals[j].status.PendingTopup? {
      PendingByTheRules(w, at, sum, j, step, total, e.issued, plan, after);
    } else {
      EffectReceives(w, at, sum, w.deals[j], sum, 0, TopupLateCredit, [], plan.value, after);
    }
  }
}
