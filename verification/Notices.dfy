/**
  Provider notices arrive late, twice and out of order. What a set of them does to one
  deposit depends, for CryptoBot, only on which notices are in it; for Crystalpay, on the
  first that is acted on.
 */
module Notices {
  import opened Common
  import opened Money
  import opened Sums
  import opened Tables
  import opened Services
  import opened Books
  import opened Safety
  import opened Deposits

  lemma NothingChanges(w: World)
    ensures Apply(w, NOTHING) == w
  {
  }

  // -------------------------------------------------------------- CryptoBot

  datatype Delivery = PaidNotice | ExpiredNotice

  function Delivered(d: Delivery, invoice: nat, reported: Reported): Event
  {
    match d
    case PaidNotice => EvInvoicePaid(true, Some(invoice), reported, None)
    case ExpiredNotice => EvInvoiceExpired(Some(invoice))
  }

  function AllDelivered(ds: seq<Delivery>, invoice: nat, reported: Reported): seq<Event>
  {
    if ds == [] then [] else
      var n := |ds| - 1;
      AllDelivered(ds[..n], invoice, reported) + [Delivered(ds[n], invoice, reported)]
  }

  /** A wallet or trust deposit that has not been paid. */
  ghost predicate Payable(w: World, at: nat)
  {
    && at < |w.deposits| && !w.deposits[at].status.Paid? && w.deposits[at].provider.CryptoBot?
    && !w.deposits[at].purpose.DealTopup? && w.deposits[at].user in w.users && w.deposits[at].currency in w.currencies
    && InvoicesDistinct(w.deposits)
  }

  /** The row after a notice that is accepted. */
  function CreditedRow(w: World, at: nat, reported: Reported): Deposit
    requires at < |w.deposits| && w.deposits[at].currency in w.currencies && reported.Reported?
  {
    var p := w.deposits[at];
    var step := GridOf(w, p.currency);
    var sum := Quantize(reported.value, step);
    p.(status := Paid, amount := Max(Q(p.amount, step), sum), paidAmount := Some(sum))
  }

  /** What an accepted notice writes. */
  function Crediting(w: World, at: nat, reported: Reported): Effect
    requires at < |w.deposits| && w.deposits[at].currency in w.currencies && reported.Reported?
  {
    var row := CreditedRow(w, at, reported);
    if row.purpose.Trust? then
      NOTHING.(deposit := Put.Put(at, row), trust := TrustCredit(row.user, row.currency, row.amount, at))
    else
      NOTHING.(deposit := Put.Put(at, row),
               first := Posting(Key(row.user, row.currency), row.amount, 0, DepositWalletCredit, FromDeposit(at), None,
                                true))
  }

  function Expiring(w: World, at: nat): Effect
    requires at < |w.deposits|
  {
    NOTHING.(deposit := Put.Put(at, w.deposits[at].(status := Expired)))
  }

  predicate Accepted(w: World, at: nat, reported: Reported)
    requires at < |w.deposits|
  {
    AmountsMatch(reported, w.deposits[at].amount)
  }

  lemma PaidNoticePlan(w: World, at: nat, reported: Reported, issued: Option<nat>, plan: Plan)
    requires Payable(w, at)
    requires plan == InvoicePaid(w, true, Some(w.deposits[at].invoice), reported, issued)
    ensures if Accepted(w, at, reported) then plan == Ok(Crediting(w, at, reported)) else plan.Err?
  {
    InvoiceFound(w.deposits, at);
  }

  lemma ExpiredNoticePlan(w: World, at: nat, plan: Plan)
    requires at < |w.deposits| && w.deposits[at].provider.CryptoBot? && InvoicesDistinct(w.deposits)
    requires plan == InvoiceExpired(w, Some(w.deposits[at].invoice))
    ensures plan == Ok(if w.deposits[at].status.Pending? then Expiring(w, at) else NOTHING)
  {
    InvoiceFound(w.deposits, at);
  }

  /** Closing the row first does not change what a payment does. */
  lemma ExpiryForgotten(w: World, at: nat, reported: Reported, expired: World)
    requires Payable(w, at) && expired == Apply(w, Expiring(w, at)) && reported.Reported?
    ensures Apply(expired, Crediting(expired, at, reported)) == Apply(w, Crediting(w, at, reported))
  {
    var row := CreditedRow(w, at, reported);
    assert expired.deposits[at := row] == w.deposits[at := row];
  }

  /** The one state that a set of notices leads to. */
  function Outcome(w: World, at: nat, reported: Reported, paid: bool, expired: bool): World
    requires at < |w.deposits| && w.deposits[at].currency in w.currencies
  {
    if paid && Accepted(w, at, reported) then Apply(w, Crediting(w, at, reported))
    else if expired then Apply(w, Expiring(w, at))
    else w
  }

  /** The step a CryptoBot notice takes. */
  lemma DeliveryStep(w: World, d: Delivery, invoice: nat, reported: Reported)
    ensures var plan := if d.PaidNotice? then InvoicePaid(w, true, Some(invoice), reported, None)
                        else InvoiceExpired(w, Some(invoice));
            Step(w, Delivered(d, invoice, reported)) == if plan.Ok? then Apply(w, plan.value) else w
  {
  }

  lemma PaidIgnores(w: World, at: nat, reported: Reported, d: Delivery)
    requires at < |w.deposits| && w.deposits[at].status.Paid? && w.deposits[at].provider.CryptoBot?
    requires InvoicesDistinct(w.deposits)
    ensures Step(w, Delivered(d, w.deposits[at].invoice, reported)) == w
  {
    InvoiceFound(w.deposits, at);
    NothingChanges(w);
    DeliveryStep(w, d, w.deposits[at].invoice, reported);
  }

  lemma UnpaidStep(w: World, at: nat, reported: Reported, d: Delivery)
    requires Payable(w, at)
    ensures Step(w, Delivered(d, w.deposits[at].invoice, reported))
         == if d.PaidNotice? then if Accepted(w, at, reported) then Apply(w, Crediting(w, at, reported)) else w
            else if w.deposits[at].status.Pending? then Apply(w, Expiring(w, at))
            else w
  {
    DeliveryStep(w, d, w.deposits[at].invoice, reported);
    if d.PaidNotice? {
      PaidNoticePlan(w, at, reported, None, InvoicePaid(w, true, Some(w.deposits[at].invoice), reported, None));
    } else {
      ExpiredNoticePlan(w, at, InvoiceExpired(w, Some(w.deposits[at].invoice)));
      NothingChanges(w);
    }
  }

  lemma OutcomeRow(w: World, at: nat, reported: Reported, paid: bool, expired: bool, now: World)
    requires Payable(w, at) && now == Outcome(w, at, reported, paid, expired)
    ensures now.deposits == w.deposits[at := now.deposits[at]] && InvoicesDistinct(now.deposits)
    ensures now.deposits[at].provider.CryptoBot? && now.deposits[at].invoice == w.deposits[at].invoice
    ensures if paid && Accepted(w, at, reported) then now.deposits[at].status.Paid?
            else Payable(now, at) && now.deposits[at] == w.deposits[at].(status := now.deposits[at].status)
                 && now.deposits[at].status == if expired then Expired else w.deposits[at].status
  {
  }

  lemma OutcomeStep(w: World, at: nat, reported: Reported, paid: bool, expired: bool, d: Delivery, now: World)
    requires Payable(w, at) && w.deposits[at].status.Pending? && now == Outcome(w, at, reported, paid, expired)
    ensures Step(now, Delivered(d, w.deposits[at].invoice, reported))
         == Outcome(w, at, reported, paid || d.PaidNotice?, expired || d.ExpiredNotice?)
  {
    OutcomeRow(w, at, reported, paid, expired, now);
    if now.deposits[at].status.Paid? {
      PaidIgnores(now, at, reported, d);
    } else {
      UnpaidStep(now, at, reported, d);
      if expired && Accepted(w, at, reported) {
        ExpiryForgotten(w, at, reported, now);
      }
    }
  }

  lemma LastDelivered(ds: seq<Delivery>, invoice: nat, reported: Reported, events: seq<Event>)
    requires ds != [] && events == AllDelivered(ds, invoice, reported)
    ensures var n := |ds| - 1;
            && |events| > 0 && events[..|events| - 1] == AllDelivered(ds[..n], invoice, reported)
            && events[|events| - 1] == Delivered(ds[n], invoice, reported)
            && (PaidNotice in ds <==> PaidNotice in ds[..n] || ds[n] == PaidNotice)
            && (ExpiredNotice in ds <==> ExpiredNotice in ds[..n] || ds[n] == ExpiredNotice)
  {
    assert ds == ds[..|ds| - 1] + [ds[|ds| - 1]];
  }

  /**
    Any order and any duplication of the same CryptoBot notices ends in the same state: that
    of a single accepted payment if there is one, else that of a single expiry.
   */
  lemma {:induction false} CryptoBotConverges(w: World, at: nat, reported: Reported, ds: seq<Delivery>)
    requires Payable(w, at) && w.deposits[at].status.Pending?
    ensures Run(w, AllDelivered(ds, w.deposits[at].invoice, reported))
         == Outcome(w, at, reported, PaidNotice in ds, ExpiredNotice in ds)
  {
    if ds != [] {
      var n := |ds| - 1;
      var events := AllDelivered(ds, w.deposits[at].invoice, reported);
      CryptoBotConverges(w, at, reported, ds[..n]);
      LastDelivered(ds, w.deposits[at].invoice, reported, events);
      OutcomeStep(w, at, reported, PaidNotice in ds[..n], ExpiredNotice in ds[..n], ds[n],
                  Run(w, events[..|events| - 1]));
    }
  }

  // ---------------------------------------- CryptoBot among all other events

  predicate Reports(e: Event, invoice: nat)
  {
    e.EvInvoicePaid? && e.statusPaid && e.invoice == Some(invoice)
  }

  /** Everything the run reports as paid on the invoice is the same amount. */
  ghost predicate SameReports(events: seq<Event>, invoice: nat, reported: Reported)
  {
    forall i :: 0 <= i < |events| ==> (Reports(events[i], invoice) ==> events[i].reported == reported)
  }

  predicate Polls(e: Event, at: nat)
  {
    e.EvPollPaid? && e.deposit == at
  }

  ghost predicate Unpolled(events: seq<Event>, at: nat)
  {
    forall i :: 0 <= i < |events| ==> !Polls(events[i], at)
  }

  ghost predicate Reported(events: seq<Event>, invoice: nat)
  {
    exists i :: 0 <= i < |events| && Reports(events[i], invoice)
  }

  /** Any other event may at most close the deposit. */
  lemma OtherEvents(w: World, at: nat, e: Event, plan: Plan)
    requires Payable(w, at) && plan == PlanOf(w, e) && plan.Ok? && OnDeposit(e)
    requires !Reports(e, w.deposits[at].invoice) && !Polls(e, at)
    ensures plan.value.deposit.Put? && plan.value.deposit.at == at ==>
              plan.value.deposit.row == w.deposits[at].(status := Expired)
  {
    match e
    case EvInvoicePaid(_, n, _, _) =>
    case EvInvoiceExpired(n) =>
    case EvCrystalpayNotice(n, _, _, _) =>
    case EvPollPaid(_, _) =>
    case EvExpireDeposit(_) =>
  }

  /** The deposit has been credited by the accepted report, or it has not been paid. */
  ghost predicate RowIs(w: World, at: nat, reported: Reported, paid: bool, now: World)
    requires Payable(w, at)
  {
    && at < |now.deposits|
    && if paid && Accepted(w, at, reported) then now.deposits[at] == CreditedRow(w, at, reported)
       else Payable(now, at) && now.deposits[at] == w.deposits[at].(status := now.deposits[at].status)
  }

  lemma ReportStep(w: World, at: nat, reported: Reported, now: World, e: Event, plan: Plan, after: World)
    requires Payable(w, at) && Payable(now, at) && now.currencies == w.currencies
    requires now.deposits[at] == w.deposits[at].(status := now.deposits[at].status)
    requires Reports(e, w.deposits[at].invoice) && e.reported == reported && plan == PlanOf(now, e)
    requires after == (if plan.Ok? then Apply(now, plan.value) else now)
    ensures RowIs(w, at, reported, true, after)
  {
    PaidNoticePlan(now, at, reported, e.issued, plan);
  }

  lemma OtherStep(w: World, at: nat, reported: Reported, now: World, e: Event, plan: Plan, after: World)
    requires Payable(w, at) && Payable(now, at) && now.currencies == w.currencies
    requires now.deposits[at] == w.deposits[at].(status := now.deposits[at].status)
    requires !Reports(e, w.deposits[at].invoice) && !Polls(e, at)
    requires plan == PlanOf(now, e) && plan.Ok? && after == Apply(now, plan.value) && Valid(after)
    ensures RowIs(w, at, reported, false, after)
  {
    if OnDeposit(e) {
      OtherEvents(now, at, e, plan);
    }
    RowAfter(now, plan.value, at, after);
    ApplyKeepsUsers(now, plan.value);
  }

  /**
    Whatever happens in between, polls of the deposit excepted, the row of a CryptoBot deposit
    ends the same: credited with the accepted report if that arrived at all, and unpaid
    otherwise.
   */
  lemma {:induction false} RowConverges(w: World, events: seq<Event>, at: nat, reported: Reported)
    requires Valid(w) && Fair(w, events) && Payable(w, at)
    requires SameReports(events, w.deposits[at].invoice, reported) && Unpolled(events, at)
    ensures Valid(Run(w, events)) && Run(w, events).currencies == w.currencies
    ensures RowIs(w, at, reported, Reported(events, w.deposits[at].invoice), Run(w, events))
  {
    if events != [] {
      var n := |events| - 1;
      RowConverges(w, events[..n], at, reported);
      LastReported(events, w.deposits[at].invoice);
      RowConvergesStep(w, events, at, reported, Run(w, events[..n]), Run(w, events));
    }
  }

  lemma LastReported(events: seq<Event>, invoice: nat)
    requires events != []
    ensures var n := |events| - 1;
            Reported(events, invoice) <==> Reported(events[..n], invoice) || Reports(events[n], invoice)
  {
    var n := |events| - 1;
    assert events == events[..n] + [events[n]];
    if Reported(events[..n], invoice) {
      var i :| 0 <= i < n && Reports(events[..n][i], invoice);
      assert Reports(events[i], invoice);
    }
    if Reported(events, invoice) && !Reports(events[n], invoice) {
      var i :| 0 <= i < |events| && Reports(events[i], invoice);
      assert Reports(events[..n][i], invoice);
    }
  }

  lemma RowConvergesStep(w: World, events: seq<Event>, at: nat, reported: Reported, now: World, after: World)
    requires events != [] && Payable(w, at)
    requires SameReports(events, w.deposits[at].invoice, reported) && Unpolled(events, at)
    requires var n := |events| - 1;
             && after == Step(now, events[n]) && Valid(now) && Assumed(now, events[n]) && now.currencies == w.currencies
             && RowIs(w, at, reported, Reported(events[..n], w.deposits[at].invoice), now)
    requires var n := |events| - 1;
             Reported(events, w.deposits[at].invoice)
             <==> Reported(events[..n], w.deposits[at].invoice) || Reports(events[n], w.deposits[at].invoice)
    ensures Valid(after) && after.currencies == w.currencies
    ensures RowIs(w, at, reported, Reported(events, w.deposits[at].invoice), after)
  {
    var n := |events| - 1;
    var e, plan := events[n], PlanOf(now, events[n]);
    StepKeepsValid(now, e);
    if PaidRow(now, at) {
      StepKeepsPaid(now, e, at);
    } else if Reports(e, w.deposits[at].invoice) {
      ReportStep(w, at, reported, now, e, plan, after);
    } else if plan.Ok? {
      OtherStep(w, at, reported, now, e, plan, after);
    }
  }

  // ------------------------------------------------------------- Crystalpay

  datatype Notice = Notice(state: CrystalState, reported: Reported, issued: Option<nat>)

  function Noticed(n: Notice, invoice: nat): Event
  {
    EvCrystalpayNotice(Some(invoice), n.state, n.reported, n.issued)
  }

  function AllNoticed(ns: seq<Notice>, invoice: nat): seq<Event>
  {
    if ns == [] then [] else AllNoticed(ns[..|ns| - 1], invoice) + [Noticed(ns[|ns| - 1], invoice)]
  }

  /** The notice is acted on: it closes the deposit or it is accepted as its payment. */
  predicate Decisive(w: World, n: Notice, invoice: nat)
  {
    !n.state.OtherState? && PlanOf(w, Noticed(n, invoice)).Ok?
  }

  function FirstDecisive(w: World, ns: seq<Notice>, invoice: nat): (first: Option<Notice>)
    ensures first.Some? ==> first.value in ns && Decisive(w, first.value, invoice)
    ensures first.None? ==> forall i :: 0 <= i < |ns| ==> !Decisive(w, ns[i], invoice)
  {
    if ns == [] then None else
      var n := |ns| - 1;
      var earlier := FirstDecisive(w, ns[..n], invoice);
      if earlier.Some? then earlier
      else if Decisive(w, ns[n], invoice) then Some(ns[n])
      else None
  }

  function Decided(w: World, ns: seq<Notice>, invoice: nat): World
  {
    var first := FirstDecisive(w, ns, invoice);
    if first.Some? then Step(w, Noticed(first.value, invoice)) else w
  }

  /** A decisive notice settles the deposit for good. */
  lemma DecisiveSettles(w: World, at: nat, n: Notice, plan: Plan, after: World)
    requires Valid(w) && at < |w.deposits| && w.deposits[at].status.Pending? && w.deposits[at].provider.Crystalpay?
    requires Decisive(w, n, w.deposits[at].invoice) && Sane(n.reported)
    requires plan == PlanOf(w, Noticed(n, w.deposits[at].invoice)) && after == Apply(w, plan.value)
    ensures Valid(after) && at < |after.deposits| && !after.deposits[at].status.Pending?
    ensures after.deposits[at].provider.Crystalpay? && after.deposits[at].invoice == w.deposits[at].invoice
  {
    var e := Noticed(n, w.deposits[at].invoice);
    InvoiceFound(w.deposits, at);
    EveryCallHonest(w, e);
    FittingKeepsValid(w, plan.value);
    SettlesRow(w, at, n, plan);
    RowAfter(w, plan.value, at, after);
  }

  lemma SettlesRow(w: World, at: nat, n: Notice, plan: Plan)
    requires at < |w.deposits| && w.deposits[at].status.Pending? && plan.Ok?
    requires FindDeposit(w.deposits, Crystalpay, w.deposits[at].invoice) == Some(at) && !n.state.OtherState?
    requires plan == CrystalpayNotice(w, Some(w.deposits[at].invoice), n.state, n.reported, n.issued)
    ensures plan.value.deposit.Put? && plan.value.deposit.at == at && !plan.value.deposit.row.status.Pending?
  {
  }

  lemma SettledIgnores(w: World, at: nat, n: Notice)
    requires Valid(w) && at < |w.deposits| && !w.deposits[at].status.Pending? && w.deposits[at].provider.Crystalpay?
    ensures Step(w, Noticed(n, w.deposits[at].invoice)) == w
  {
    InvoiceFound(w.deposits, at);
    NothingChanges(w);
  }

  lemma IndecisiveIgnored(w: World, n: Notice, invoice: nat)
    requires !Decisive(w, n, invoice)
    ensures Step(w, Noticed(n, invoice)) == w
  {
    NothingChanges(w);
  }

  /** Of any sequence of Crystalpay notices for one invoice, only the first decisive one has an effect. */
  lemma {:induction false} FirstTerminalNoticeDecides(w: World, at: nat, ns: seq<Notice>)
    requires Valid(w) && at < |w.deposits| && w.deposits[at].status.Pending? && w.deposits[at].provider.Crystalpay?
    requires forall i :: 0 <= i < |ns| ==> Sane(ns[i].reported)
    ensures Run(w, AllNoticed(ns, w.deposits[at].invoice)) == Decided(w, ns, w.deposits[at].invoice)
  {
    var invoice := w.deposits[at].invoice;
    if ns != [] {
      var n := |ns| - 1;
      FirstTerminalNoticeDecides(w, at, ns[..n]);
      assert AllNoticed(ns, invoice)[..|AllNoticed(ns, invoice)| - 1] == AllNoticed(ns[..n], invoice);
      var first := FirstDecisive(w, ns[..n], invoice);
      if first.Some? {
        var plan := PlanOf(w, Noticed(first.value, invoice));
        DecisiveSettles(w, at, first.value, plan, Apply(w, plan.value));
        SettledIgnores(Apply(w, plan.value), at, ns[n]);
      } else if !Decisive(w, ns[n], invoice) {
        IndecisiveIgnored(w, ns[n], invoice);
      }
    }
  }

  // ------------------------------------------------------- webhook and poll

  /** What either provider's handler does once it has found a wallet deposit that is still pending. */
  lemma ReportedPlan(w: World, at: nat, reported: Reported, reissued: Option<nat>, plan: Plan)
    requires at < |w.deposits| && !w.deposits[at].status.Paid? && !w.deposits[at].purpose.DealTopup?
    requires w.deposits[at].user in w.users && w.deposits[at].currency in w.currencies
    requires plan == CreditReported(w, at, reported, reissued)
    ensures if Accepted(w, at, reported) then plan == Ok(Crediting(w, at, reported)) else plan.Err?
  {
  }

  lemma PolledPlan(w: World, at: nat, reissued: Option<nat>, plan: Plan)
    requires at < |w.deposits| && w.deposits[at].status.Pending? && w.deposits[at].purpose.Wallet?
    requires w.deposits[at].currency in w.currencies && plan == PollPaid(w, at, reissued)
    ensures plan.Ok? && plan.value.second.NoPosting?
    ensures var p := w.deposits[at];
            plan.value.first == Posting(Key(p.user, p.currency), Q(p.amount, GridOf(w, p.currency)), 0,
                                        DepositWalletCredit,
                                        FromDeposit(at), None, true)
  {
  }

  /** Polling credits the invoiced amount, a notice the reported one if that is more. */
  lemma PollAgreesIff(w: World, at: nat, reported: Reported, noticed: Plan, polled: Plan)
    requires Valid(w) && at < |w.deposits| && w.deposits[at].status.Pending? && w.deposits[at].purpose.Wallet?
    requires Accepted(w, at, reported)
    requires noticed == CreditReported(w, at, reported, None) && polled == PollPaid(w, at, None)
    ensures noticed.Ok? && polled.Ok? && w.deposits[at].currency in w.currencies
    ensures var k := Key(w.deposits[at].user, w.deposits[at].currency);
            Bal(Apply(w, noticed.value), k).amount == Bal(Apply(w, polled.value), k).amount <==>
              Quantize(reported.value, GridOf(w, k.currency)) <= w.deposits[at].amount
  {
    var p := w.deposits[at];
    var k := Key(p.user, p.currency);
    assert DepositOk(w, p);
    QuantizeIdempotent(Raw(0, 1), p.amount, GridOf(w, p.currency));
    ReportedPlan(w, at, reported, None, noticed);
    PolledPlan(w, at, None, polled);
    ApplyMovesBalance(w, noticed.value, k);
    ApplyMovesBalance(w, polled.value, k);
  }

  /** An accepted report is credited up to half a grid step, or one quantum on a finer grid. */
  lemma CreditNearReported(w: World, at: nat, reported: Reported, reissued: Option<nat>, plan: Plan)
    requires Valid(w) && at < |w.deposits| && !w.deposits[at].status.Paid? && !w.deposits[at].purpose.DealTopup?
    requires plan == CreditReported(w, at, reported, reissued) && plan.Ok?
    ensures reported.Reported? && w.deposits[at].currency in w.currencies && plan.value.deposit.Put?
    ensures var v, step := reported.value, GridOf(w, w.deposits[at].currency);
            var distance := 2 * (plan.value.deposit.row.amount * v.den - v.num);
            -Max(step, 2) * v.den <= distance <= Max(step, 2) * v.den
  {
    var p := w.deposits[at];
    assert DepositOk(w, p);
    ReportedPlan(w, at, reported, reissued, plan);
    NearReported(p.amount, reported.value, GridOf(w, p.currency));
  }

  /** A value at least as large as a near one, but not much larger, is near too. */
  lemma LargerIsNear(amount: int, q: int, num: int, den: int, step: nat)
    requires den > 0 && step > 0 && num >= (amount - 1) * den && -(step * den) <= 2 * (q * den - num) <= step * den
    ensures -(Max(step, 2) * den) <= 2 * (Max(amount, q) * den - num) <= Max(step, 2) * den
  {
    var bound := Max(step, 2);
    TimesMonotone(step, bound, den);
    TimesMonotone(2, bound, den);
    assert (amount - 1) * den == amount * den - den;
    if q < amount {
      TimesMonotone(q, amount, den);
    }
  }

  /** The larger of the invoiced amount and the quantised report is near the report. */
  lemma NearReported(amount: int, v: Raw, step: nat)
    requires step > 0 && OnGrid(amount, step) && v.num >= (amount - 1) * v.den
    ensures var distance := 2 * (Max(Q(amount, step), Quantize(v, step)) * v.den - v.num);
            -Max(step, 2) * v.den <= distance <= Max(step, 2) * v.den
  {
    QuantizeIdempotent(Raw(0, 1), amount, step);
    QuantizeNearAndMonotone(v, v, step);
    LargerIsNear(amount, Quantize(v, step), v.num, v.den, step);
  }
}
