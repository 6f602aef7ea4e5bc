/**
  How deals are opened: what an offer costs, whether the balance pays for it, and what is
  written. Every stored deal was opened at the price of its own offer.
 */
module Openings {
  import opened Common
  import opened Money
  import opened Sums
  import opened Tables
  import opened Services
  import opened Books
  import opened Safety
  import opened Profiles
  import opened Rulebook

  // ----------------------------------------------------------------- the price

  /** Two known users, a known currency and a positive amount. */
  predicate Offered(w: World, o: Offer)
  {
    && o.buyer in w.users && o.seller in w.users && o.buyer != o.seller && o.currency in w.currencies
    && o.amount.Exact? && o.amount.value.num > 0
  }

  /** Parts in ten thousand: the VIP override, where the settings have one and either side is VIP. */
  function RateFor(w: World, o: Offer, terms: Terms): int
    requires Offered(w, o)
  {
    var vip := w.users[o.buyer].vip || w.users[o.seller].vip;
    if vip && terms.vipRate >= 0 then terms.vipRate else terms.rate
  }

  /** The principal is the asked amount and the fee that share of the principal, each to the nearest grid multiple. */
  ghost predicate Priced(w: World, o: Offer, terms: Terms, principal: int, fee: int)
    requires Offered(w, o)
  {
    var step := GridOf(w, o.currency);
    && IsNearest(o.amount.value.num, o.amount.value.den, step, principal)
    && IsNearest(principal * RateFor(w, o, terms), 10000, step, fee)
  }

  /** What the principal exceeds the balance by, to the nearest grid multiple. */
  ghost predicate Missing(w: World, o: Offer, principal: int, gap: int)
    requires Offered(w, o)
  {
    var balance := Bal(w, Key(o.buyer, o.currency)).amount;
    IsNearest(if balance < principal then principal - balance else 0, 1, GridOf(w, o.currency), gap)
  }

  lemma GapExists(w: World, o: Offer, principal: int) returns (gap: int)
    requires Offered(w, o)
    ensures Missing(w, o, principal, gap)
  {
    var missing := Max(0, principal - Bal(w, Key(o.buyer, o.currency)).amount);
    gap := Q(missing, GridOf(w, o.currency));
    QuantizeIsNearest(Raw(missing, 1), GridOf(w, o.currency), gap);
  }

  /** Every offer has exactly one price. */
  lemma {:induction false} OffersHaveOnePrice(w: World, o: Offer, terms: Terms) returns (principal: int, fee: int)
    requires Offered(w, o)
    ensures Priced(w, o, terms, principal, fee)
    ensures forall p, f :: Priced(w, o, terms, p, f) ==> p == principal && f == fee
  {
    var step := GridOf(w, o.currency);
    principal := Quantize(o.amount.value, step);
    fee := Commission(principal, RateFor(w, o, terms), step);
    PriceIs(w, o, terms, principal, fee);
    forall p, f | Priced(w, o, terms, p, f) ensures p == principal && f == fee {
      PriceIs(w, o, terms, p, f);
    }
  }

  lemma PriceIs(w: World, o: Offer, terms: Terms, principal: int, fee: int)
    requires Offered(w, o)
    ensures var step := GridOf(w, o.currency);
            Priced(w, o, terms, principal, fee)
            <==> principal == Quantize(o.amount.value, step) && fee == Fee(w, o, terms, principal)
  {
    QuantizeIsNearest(o.amount.value, GridOf(w, o.currency), principal);
    QuantizeIsNearest(Raw(principal * RateFor(w, o, terms), 10000), GridOf(w, o.currency), fee);
  }

  lemma PrincipalIs(w: World, o: Offer, terms: Terms, principal: int, fee: int)
    requires Offered(w, o) ==> Priced(w, o, terms, principal, fee)
    ensures Principal(w, o).Ok? <==> Offered(w, o) && principal > 0
    ensures Principal(w, o).Ok? ==> Principal(w, o).value == principal && Fee(w, o, terms, principal) == fee
  {
    if Offered(w, o) {
      PriceIs(w, o, terms, principal, fee);
    }
  }

  // ------------------------------------------------------------- what is written

  /** Provider and id belong to no stored invoice. */
  ghost predicate Unused(deposits: seq<Deposit>, provider: Provider, invoice: nat)
  {
    forall i :: 0 <= i < |deposits| ==> !(deposits[i].provider == provider && deposits[i].invoice == invoice)
  }

  lemma UnusedIsNotFound(deposits: seq<Deposit>, provider: Provider, invoice: nat)
    ensures Unused(deposits, provider, invoice) <==> FindDeposit(deposits, provider, invoice).None?
  {
  }

  /** The offer has become deal d, with these invoices; `spent` has left the buyer's balance, `locked` is held. */
  ghost predicate Opened(w: World, d: Deal, invoices: seq<Deposit>, spent: int, locked: int, entries: seq<Entry>,
                         after: World)
  {
    && after.currencies == w.currencies && after.users == w.users && after.withdrawals == w.withdrawals
    && after.deals == w.deals + [d]
    && after.deposits == w.deposits + invoices
    && (forall k :: Bal(after, k) == var b := Bal(w, k);
                                     if k == Key(d.buyer, d.currency) then Balance(b.amount - spent, b.locked + locked)
                                     else b)
    && after.ledger == w.ledger + entries
  }

  function LockEntry(k: Key, event: EventType, deal: Option<nat>, b: Balance, spent: int, locked: int): Entry
  {
    Entry(k, event, FromDeal(deal), None, b.amount, -spent, b.amount - spent, b.locked, locked, b.locked + locked)
  }

  /** A new deal for the offer, in the first status of its kind. */
  function NewDeal(o: Offer, principal: int, fee: int, origin: Origin, topup: Option<nat>): Deal
  {
    Deal(o.buyer, o.seller, o.currency, principal, fee,
         if origin == TopupFunded then PendingTopup else PendingConfirmation,
         o.provider, origin != TopupFunded, origin, topup, false, None, None)
  }

  lemma EffectOpens(w: World, e: Effect, d: Deal, invoices: seq<Deposit>, spent: int, locked: int,
                    entries: seq<Entry>, event: EventType, source: Option<nat>, after: World)
    requires after == Apply(w, e) && (invoices == [] || |invoices| == 1)
    requires var k := Key(d.buyer, d.currency);
             && e == NOTHING.(first := Posting(k, -spent, locked, event, FromDeal(source), None, true),
                              deal := Put.Put(|w.deals|, d),
                              invoice := if invoices == [] then Keep else Put.Put(|w.deposits|, invoices[0]))
             && entries == if spent == 0 && locked == 0 then []
                           else [LockEntry(k, event, source, Bal(w, k), spent, locked)]
    ensures Opened(w, d, invoices, spent, locked, entries, after)
  {
  }

  /** create_deal: the offer is taken exactly if the balance covers the principal, and charges nothing beyond it. */
  lemma {:induction false} DealIsOpenedIff(w: World, o: Offer, terms: Terms, principal: int, fee: int)
    requires Offered(w, o) ==> Priced(w, o, terms, principal, fee)
    ensures var after, k := Step(w, EvCreateDeal(o, terms)), Key(o.buyer, o.currency);
            if Offered(w, o) && principal > 0 && Bal(w, k).amount >= principal then
              Opened(w, NewDeal(o, principal, fee, Legacy, None), [], principal, principal,
                     [LockEntry(k, DealLock, None, Bal(w, k), principal, principal)], after)
            else after == w
  {
    var plan, k := CreateDeal(w, o, terms), Key(o.buyer, o.currency);
    PrincipalIs(w, o, terms, principal, fee);
    if plan.Ok? {
      EffectOpens(w, plan.value, NewDeal(o, principal, fee, Legacy, None), [], principal, principal,
                  [LockEntry(k, DealLock, None, Bal(w, k), principal, principal)], DealLock, None,
                  Apply(w, plan.value));
    }
  }

  function FirstInvoice(w: World, o: Offer, total: int, invoice: nat): Deposit
  {
    Deposit(o.buyer, o.currency, total, o.provider, invoice, Pending, DealTopup, None, Some(|w.deals|),
            Bal(w, Key(o.buyer, o.currency)).amount)
  }

  /**
    create_deal_with_topup: a balance that covers principal and fee pays both, and the deal
    waits for the seller; else an invoice asks for the missing principal plus the fee, and
    the deal waits for it.
   */
  ghost predicate Settled(w: World, o: Offer, principal: int, fee: int, gap: int, issued: Option<nat>, after: World)
    requires Offered(w, o)
  {
    var k := Key(o.buyer, o.currency);
    if principal <= 0 then after == w
    else if Bal(w, k).amount >= principal + fee then
      Opened(w, NewDeal(o, principal, fee, BalanceFunded, None), [], principal + fee, principal,
             [LockEntry(k, DealCreateBalanceFunded, Some(|w.deals|), Bal(w, k), principal + fee, principal)], after)
    else if gap + fee > 0 && issued.Some? && Unused(w.deposits, o.provider, issued.value) then
      Opened(w, NewDeal(o, principal, fee, TopupFunded, Some(|w.deposits|)),
             [FirstInvoice(w, o, gap + fee, issued.value)], 0, 0, [], after)
    else after == w
  }

  lemma TopupAmounts(w: World, o: Offer, terms: Terms, principal: int, fee: int, gap: int, issued: Option<nat>)
    requires Offered(w, o) && Priced(w, o, terms, principal, fee) && Missing(w, o, principal, gap) && principal > 0
    ensures CreateDealWithTopup(w, o, terms, issued)
         == OpenPriced(w, o, principal, fee, principal + fee, gap + fee, issued)
  {
    var missing := Max(0, principal - Bal(w, Key(o.buyer, o.currency)).amount);
    SumsAreExact(principal, fee, missing, gap, GridOf(w, o.currency));
    PrincipalIs(w, o, terms, principal, fee);
    PricedPlan(w, o, terms, issued, principal, fee, principal + fee, gap + fee);
  }

  lemma SumsAreExact(principal: int, fee: int, missing: int, gap: int, step: nat)
    requires step > 0 && OnGrid(principal, step) && OnGrid(fee, step) && IsNearest(missing, 1, step, gap)
    ensures Q(principal + fee, step) == principal + fee && Q(Q(missing, step) + fee, step) == gap + fee
  {
    QuantizeIsNearest(Raw(missing, 1), step, gap);
    GridClosed(gap, fee, step);
    GridClosed(principal, fee, step);
    QuantizeIdempotent(Raw(0, 1), gap + fee, step);
    QuantizeIdempotent(Raw(0, 1), principal + fee, step);
  }

  lemma OpenPricedSettles(w: World, o: Offer, principal: int, fee: int, gap: int, issued: Option<nat>, plan: Plan,
                          after: World)
    requires Offered(w, o) && principal > 0
    requires plan == OpenPriced(w, o, principal, fee, principal + fee, gap + fee, issued)
    requires after == if plan.Ok? then Apply(w, plan.value) else w
    ensures Settled(w, o, principal, fee, gap, issued, after)
  {
    var k := Key(o.buyer, o.currency);
    if Bal(w, k).amount >= principal + fee {
      EffectOpens(w, plan.value, NewDeal(o, principal, fee, BalanceFunded, None), [], principal + fee, principal,
                  [LockEntry(k, DealCreateBalanceFunded, Some(|w.deals|), Bal(w, k), principal + fee, principal)],
                  DealCreateBalanceFunded, Some(|w.deals|), after);
    } else if gap + fee > 0 && issued.Some? {
      UnusedIsNotFound(w.deposits, o.provider, issued.value);
      if plan.Ok? {
        EffectOpens(w, plan.value, NewDeal(o, principal, fee, TopupFunded, Some(|w.deposits|)),
                    [FirstInvoice(w, o, gap + fee, issued.value)], 0, 0, [], DealLock, None, after);
      }
    }
  }

  lemma {:induction false} DealIsSettledIff(w: World, o: Offer, terms: Terms, principal: int, fee: int, gap: int,
                                            issued: Option<nat>)
    requires Offered(w, o) ==> Priced(w, o, terms, principal, fee) && Missing(w, o, principal, gap)
    ensures var after := Step(w, EvCreateDealWithTopup(o, terms, issued));
            if Offered(w, o) then Settled(w, o, principal, fee, gap, issued, after) else after == w
  {
    var plan := CreateDealWithTopup(w, o, terms, issued);
    PrincipalIs(w, o, terms, principal, fee);
    if Offered(w, o) && principal > 0 {
      TopupAmounts(w, o, terms, principal, fee, gap, issued);
      OpenPricedSettles(w, o, principal, fee, gap, issued, plan, Step(w, EvCreateDealWithTopup(o, terms, issued)));
    }
  }

  /** The error of an offer that cannot become a deal, whatever the balance. */
  function OfferError(w: World, o: Offer): Error
  {
    if o.buyer !in w.users || o.seller !in w.users then NotFound
    else if o.buyer == o.seller then SelfDeal
    else if o.currency !in w.currencies then NotFound
    else BadAmount
  }

  /** A refused offer names its first obstacle, and to a short balance by how much it is short. */
  lemma {:induction false} RefusedDealsSayWhy(w: World, o: Offer, terms: Terms, principal: int, fee: int)
    requires Offered(w, o) ==> Priced(w, o, terms, principal, fee)
    ensures var refused, balance := PlanOf(w, EvCreateDeal(o, terms)), Bal(w, Key(o.buyer, o.currency)).amount;
            refused.Err? ==>
              refused.error == if !Offered(w, o) || principal <= 0 then OfferError(w, o)
                               else InsufficientFunds(principal, balance, principal - balance)
  {
    PrincipalIs(w, o, terms, principal, fee);
  }

  lemma {:induction false} RefusedTopupsSayWhy(w: World, o: Offer, terms: Terms, principal: int, fee: int, gap: int,
                                               issued: Option<nat>)
    requires Offered(w, o) ==> Priced(w, o, terms, principal, fee) && Missing(w, o, principal, gap)
    ensures var refused := PlanOf(w, EvCreateDealWithTopup(o, terms, issued));
            refused.Err? ==>
              refused.error == if !Offered(w, o) || principal <= 0 then OfferError(w, o)
                               else if gap + fee <= 0 then CommissionTooSmall
                               else if issued.None? then ProviderFailed
                               else DuplicateInvoice
  {
    PrincipalIs(w, o, terms, principal, fee);
    if Offered(w, o) && principal > 0 {
      TopupAmounts(w, o, terms, principal, fee, gap, issued);
    }
  }

  // ------------------------------------------------------------- in every run

  /** The columns that an offer decides. */
  predicate SameOffer(a: Deal, b: Deal)
  {
    SameTerms(a, b) && a.provider == b.provider
  }

  lemma PaymentKeepsOffer(w: World, e: Event, j: nat, plan: Plan, after: World)
    requires OnDeposit(e) && plan == DepositPlan(w, e) && plan.Ok? && after == Apply(w, plan.value) && j < |after.deals|
    ensures j < |w.deals| && SameOffer(w.deals[j], after.deals[j])
  {
  }

  lemma CallKeepsOffer(w: World, e: Event, j: nat, after: World)
    requires Valid(w) && OnDeal(e) && after == Step(w, e) && j < |after.deals|
    ensures j < |w.deals| && SameOffer(w.deals[j], after.deals[j])
  {
    CallsKeepToTheRules(w, e);
    if e.deal < |w.deals| && May(w.deals[e.deal], e) {
      CarriedOutKeepsOffer(w, e.deal, e, j, after);
    }
  }

  lemma CarriedOutKeepsOffer(w: World, at: nat, e: Event, j: nat, after: World)
    requires OnDeal(e) && at < |w.deals| && CarriedOut(w, at, e, after) && j < |after.deals|
    ensures j < |w.deals| && SameOffer(w.deals[j], after.deals[j])
  {
  }

  lemma InvoiceKeepsOffer(w: World, e: Event, plan: Plan)
    requires e.EvOpenDeposit? && plan == DealPlan(w, e) && plan.Ok?
    ensures plan.value.deal.Keep?
  {
  }

  lemma OthersKeepOffer(w: World, e: Event, j: nat, plan: Plan, after: World)
    requires Valid(w) && !e.EvCreateDeal? && !e.EvCreateDealWithTopup?
    requires plan == PlanOf(w, e) && plan.Ok? && after == Apply(w, plan.value) && j < |after.deals|
    ensures j < |w.deals| && SameOffer(w.deals[j], after.deals[j])
  {
    if OnDeposit(e) {
      PaymentKeepsOffer(w, e, j, plan, after);
    } else if OnDeal(e) {
      CallKeepsOffer(w, e, j, after);
    } else if OnWithdrawal(e) {
      WithdrawalPlanIdle(w, e, plan);
    } else {
      InvoiceKeepsOffer(w, e, plan);
    }
  }

  /** Row j was made by event e, of the offer in it. */
  ghost predicate MadeOf(w: World, e: Event, d: Deal)
    requires e.EvCreateDeal? || e.EvCreateDealWithTopup?
  {
    var o := e.offer;
    && Offered(w, o)
    && d.buyer == o.buyer && d.seller == o.seller && d.currency == o.currency && d.provider == o.provider
    && d.amount > 0 && Priced(w, o, e.terms, d.amount, d.commission)
    && (d.origin == Legacy <==> e.EvCreateDeal?)
    && (d.origin == BalanceFunded ==> Bal(w, Key(d.buyer, d.currency)).amount >= d.amount + d.commission)
    && (d.origin == TopupFunded ==> Bal(w, Key(d.buyer, d.currency)).amount < d.amount + d.commission)
  }

  lemma CreatedOf(w: World, e: Event, j: nat, after: World)
    requires (e.EvCreateDeal? || e.EvCreateDealWithTopup?) && after == Step(w, e) && j < |after.deals|
    ensures || (j < |w.deals| && after.deals[j] == w.deals[j])
            || (j == |w.deals| && MadeOf(w, e, after.deals[j]))
  {
    var principal, fee := 0, 0;
    if Offered(w, e.offer) {
      principal, fee := OffersHaveOnePrice(w, e.offer, e.terms);
    }
    if e.EvCreateDeal? {
      DealIsOpenedIff(w, e.offer, e.terms, principal, fee);
    } else {
      SettledOf(w, e, principal, fee, j, after);
    }
  }

  lemma SettledOf(w: World, e: Event, principal: int, fee: int, j: nat, after: World)
    requires e.EvCreateDealWithTopup? && after == Step(w, e) && j < |after.deals|
    requires Offered(w, e.offer) ==> Priced(w, e.offer, e.terms, principal, fee)
    ensures || (j < |w.deals| && after.deals[j] == w.deals[j])
            || (j == |w.deals| && MadeOf(w, e, after.deals[j]))
  {
    var gap := 0;
    if Offered(w, e.offer) {
      gap := GapExists(w, e.offer, principal);
    }
    DealIsSettledIff(w, e.offer, e.terms, principal, fee, gap, e.issued);
    if Offered(w, e.offer) {
      SettledRowOf(w, e, principal, fee, gap, j, after);
    }
  }

  lemma SettledRowOf(w: World, e: Event, principal: int, fee: int, gap: int, j: nat, after: World)
    requires e.EvCreateDealWithTopup? && j < |after.deals| && Offered(w, e.offer)
    requires Priced(w, e.offer, e.terms, principal, fee)
    requires Settled(w, e.offer, principal, fee, gap, e.issued, after)
    ensures || (j < |w.deals| && after.deals[j] == w.deals[j])
            || (j == |w.deals| && MadeOf(w, e, after.deals[j]))
  {
  }

  lemma StepKeepsOffer(w: World, e: Event, j: nat)
    requires Valid(w) && j < |Step(w, e).deals|
    ensures || (j < |w.deals| && SameOffer(w.deals[j], Step(w, e).deals[j]))
            || (j == |w.deals| && (e.EvCreateDeal? || e.EvCreateDealWithTopup?) && MadeOf(w, e, Step(w, e).deals[j]))
  {
    if e.EvCreateDeal? || e.EvCreateDealWithTopup? {
      CreatedOf(w, e, j, Step(w, e));
    } else if PlanOf(w, e).Ok? {
      OthersKeepOffer(w, e, j, PlanOf(w, e), Step(w, e));
    }
  }

  lemma SameOfferMadeOf(w: World, e: Event, a: Deal, b: Deal)
    requires (e.EvCreateDeal? || e.EvCreateDealWithTopup?) && MadeOf(w, e, a) && SameOffer(a, b)
    ensures MadeOf(w, e, b)
  {
  }

  /**
    In every run each stored deal was made of an offer: its parties, currency and provider are
    those of the offer, its principal is the asked amount and its fee the percentage that the
    settings then prescribed, each to the nearest grid multiple.
   */
  lemma {:induction false} EveryDealIsPriced(w: World, events: seq<Event>, j: nat) returns (i: nat)
    requires Fresh(w) && Fair(w, events) && j < |Run(w, events).deals|
    ensures i < |events| && (events[i].EvCreateDeal? || events[i].EvCreateDealWithTopup?)
    ensures |Run(w, events[..i]).deals| == j && MadeOf(Run(w, events[..i]), events[i], Run(w, events).deals[j])
  {
    var n := |events| - 1;
    var before, e, now := Run(w, events[..n]), events[n], Run(w, events);
    if j < |before.deals| {
      i := EveryDealIsPriced(w, events[..n], j);
      assert events[..n][..i] == events[..i];
      BooksAlwaysBalance(w, events[..n]);
      StepKeepsOffer(before, e, j);
      SameOfferMadeOf(Run(w, events[..i]), events[i], before.deals[j], now.deals[j]);
    } else {
      i := n;
      BooksAlwaysBalance(w, events[..n]);
      StepKeepsOffer(before, e, j);
    }
  }
}
