/**
  Polls beside the notices of a CryptoBot deposit. A poll credits the invoiced amount, a
  notice the reported one if that is more, and the first of them wins.
 */
module PolledDeposits {
  import opened Common
  import opened Money
  import opened Sums
  import opened Tables
  import opened Services
  import opened Books
  import opened Safety
  import opened Deposits
  import opened Notices

  /** The row has been credited with the invoiced amount or with the accepted report, or no accepted report has come. */
  ghost predicate RowEnds(w: World, at: nat, reported: Reported, paid: bool, now: World)
    requires Payable(w, at)
  {
    && at < |now.deposits|
    && var p, q := w.deposits[at], now.deposits[at];
       if q.status.Paid? then
         && q == p.(status := Paid, amount := q.amount, paidAmount := q.paidAmount)
         && (q.amount == p.amount || (Accepted(w, at, reported) && q == CreditedRow(w, at, reported)))
       else !(paid && Accepted(w, at, reported)) && Payable(now, at) && q == p.(status := q.status)
  }

  /** What a poll makes of an unpaid row. */
  lemma PollWrites(w: World, at: nat, issued: Option<nat>, plan: Plan)
    requires Payable(w, at) && DepositOk(w, w.deposits[at]) && plan == PollPaid(w, at, issued)
    ensures plan.Ok?
    ensures if w.deposits[at].status.Pending?
            then plan.value.deposit == Put.Put(at, w.deposits[at].(status := Paid)) && plan.value.invoice.Keep?
            else plan.value == NOTHING
  {
    var p := w.deposits[at];
    QuantizeIdempotent(Raw(0, 1), p.amount, GridOf(w, p.currency));
  }

  lemma PollEnds(w: World, at: nat, reported: Reported, paid: bool, now: World, e: Event, after: World)
    requires Payable(w, at) && Valid(now) && RowEnds(w, at, reported, paid, now) && !now.deposits[at].status.Paid?
    requires Polls(e, at) && after == Step(now, e)
    ensures RowEnds(w, at, reported, paid, after)
  {
    var plan := PollPaid(now, at, e.issued);
    assert DepositOk(now, now.deposits[at]);
    PollWrites(now, at, e.issued, plan);
    NothingChanges(now);
  }

  lemma ReportEnds(w: World, at: nat, reported: Reported, paid: bool, now: World, e: Event, after: World)
    requires Payable(w, at) && RowEnds(w, at, reported, paid, now) && !now.deposits[at].status.Paid?
    requires now.currencies == w.currencies && Reports(e, w.deposits[at].invoice) && e.reported == reported
    requires after == Step(now, e)
    ensures RowEnds(w, at, reported, true, after)
  {
    ReportStep(w, at, reported, now, e, PlanOf(now, e), after);
  }

  lemma OtherEnds(w: World, at: nat, reported: Reported, paid: bool, now: World, e: Event, after: World)
    requires Payable(w, at) && RowEnds(w, at, reported, paid, now) && !now.deposits[at].status.Paid?
    requires now.currencies == w.currencies && !Reports(e, w.deposits[at].invoice) && !Polls(e, at)
    requires after == Step(now, e) && Valid(after)
    ensures RowEnds(w, at, reported, paid, after)
  {
    var plan := PlanOf(now, e);
    if plan.Ok? {
      OtherStep(w, at, reported, now, e, plan, after);
    }
  }

  lemma StepEnds(w: World, at: nat, reported: Reported, paid: bool, now: World, e: Event, after: World)
    requires Payable(w, at) && Valid(now) && Assumed(now, e) && RowEnds(w, at, reported, paid, now)
    requires now.currencies == w.currencies && after == Step(now, e)
    requires Reports(e, w.deposits[at].invoice) ==> e.reported == reported
    ensures RowEnds(w, at, reported, paid || Reports(e, w.deposits[at].invoice), after)
  {
    StepKeepsValid(now, e);
    if PaidRow(now, at) {
      StepKeepsPaid(now, e, at);
    } else if Reports(e, w.deposits[at].invoice) {
      ReportEnds(w, at, reported, paid, now, e, after);
    } else if Polls(e, at) {
      PollEnds(w, at, reported, paid, now, e, after);
    } else {
      OtherEnds(w, at, reported, paid, now, e, after);
    }
  }

  /**
    With polls among the other events, a row whose accepted report has arrived is paid, and
    credited with the invoiced amount or with what the report alone would credit.
   */
  lemma {:induction false} PolledRowEnds(w: World, events: seq<Event>, at: nat, reported: Reported)
    requires Valid(w) && Fair(w, events) && Payable(w, at)
    requires SameReports(events, w.deposits[at].invoice, reported)
    ensures Valid(Run(w, events)) && Run(w, events).currencies == w.currencies
    ensures RowEnds(w, at, reported, Notices.Reported(events, w.deposits[at].invoice), Run(w, events))
  {
    if events != [] {
      var n := |events| - 1;
      var invoice := w.deposits[at].invoice;
      PolledRowEnds(w, events[..n], at, reported);
      LastReported(events, invoice);
      StepKeepsValid(Run(w, events[..n]), events[n]);
      StepEnds(w, at, reported, Notices.Reported(events[..n], invoice), Run(w, events[..n]), events[n], Run(w, events));
    }
  }

  /** Every run in which the report arrives credits what the report alone would credit. */
  ghost predicate AmountConverges(w: World, at: nat, reported: Reported)
    requires Payable(w, at) && Accepted(w, at, reported)
  {
    forall events: seq<Event> :: Fair(w, events) && Delivers(events, w.deposits[at].invoice, reported) ==>
                                   CreditedAs(Run(w, events), at, CreditedRow(w, at, reported).amount)
  }

  ghost predicate Delivers(events: seq<Event>, invoice: nat, reported: Reported)
  {
    SameReports(events, invoice, reported) && Notices.Reported(events, invoice)
  }

  predicate CreditedAs(now: World, at: nat, amount: int)
  {
    at < |now.deposits| && now.deposits[at].status.Paid? && now.deposits[at].amount == amount
  }

  // A poll just before the notice.

  lemma PolledFirstDelivers(events: seq<Event>, at: nat, invoice: nat, reported: Reported)
    requires events == [EvPollPaid(at, None), EvInvoicePaid(true, Some(invoice), reported, None)]
    ensures Delivers(events, invoice, reported)
  {
    assert Reports(events[1], invoice);
  }

  lemma StaysCredited(w: World, e: Event, at: nat, amount: int)
    requires CreditedAs(w, at, amount)
    ensures CreditedAs(Step(w, e), at, amount)
  {
    StepKeepsPaid(w, e, at);
  }

  lemma PolledFirstEnds(w: World, at: nat, e: Event, f: Event)
    requires Valid(w) && Payable(w, at) && w.deposits[at].status.Pending? && e == EvPollPaid(at, None)
    ensures CreditedAs(Run(w, [e, f]), at, w.deposits[at].amount)
  {
    RunTwo(w, e, f);
    PolledPays(w, at, Step(w, e));
    StaysCredited(Step(w, e), f, at, w.deposits[at].amount);
  }

  lemma PolledFirstIsFair(w: World, at: nat, e: Event, f: Event, reported: Reported)
    requires e == EvPollPaid(at, None) && f.EvInvoicePaid? && f.reported == reported && Sane(reported)
    ensures Fair(w, [e, f])
  {
    RunTwo(w, e, f);
  }

  lemma PolledPays(w: World, at: nat, polled: World)
    requires Valid(w) && Payable(w, at) && w.deposits[at].status.Pending? && polled == Step(w, EvPollPaid(at, None))
    ensures CreditedAs(polled, at, w.deposits[at].amount)
  {
    assert DepositOk(w, w.deposits[at]);
    PollWrites(w, at, None, PollPaid(w, at, None));
  }

  lemma PolledFirstDiverges(w: World, at: nat, reported: Reported)
    requires Valid(w) && Payable(w, at) && w.deposits[at].status.Pending? && Accepted(w, at, reported) && Sane(reported)
    requires CreditedRow(w, at, reported).amount != w.deposits[at].amount
    ensures !AmountConverges(w, at, reported)
  {
    var invoice := w.deposits[at].invoice;
    var e, f := EvPollPaid(at, None), EvInvoicePaid(true, Some(invoice), reported, None);
    PolledFirstIsFair(w, at, e, f, reported);
    PolledFirstDelivers([e, f], at, invoice, reported);
    PolledFirstEnds(w, at, e, f);
  }

  /** Polls do not change what a delivered report credits exactly when it reports no more than was invoiced. */
  lemma {:induction false} PolledConvergesIff(w: World, at: nat, reported: Reported)
    requires Valid(w) && Payable(w, at) && w.deposits[at].status.Pending? && Accepted(w, at, reported)
    ensures AmountConverges(w, at, reported)
            <==> Quantize(reported.value, GridOf(w, w.deposits[at].currency)) <= w.deposits[at].amount
  {
    var p, step := w.deposits[at], GridOf(w, w.deposits[at].currency);
    assert DepositOk(w, p);
    QuantizeIdempotent(Raw(0, 1), p.amount, step);
    if Quantize(reported.value, step) <= p.amount {
      forall events: seq<Event> | Fair(w, events) && Delivers(events, p.invoice, reported)
        ensures CreditedAs(Run(w, events), at, CreditedRow(w, at, reported).amount)
      {
        PolledRowEnds(w, events, at, reported);
      }
    } else {
      NegativeRoundsDown(reported.value, step);
      PolledFirstDiverges(w, at, reported);
    }
  }

  lemma NegativeRoundsDown(v: Raw, step: nat)
    requires step > 0
    ensures v.num < 0 ==> Quantize(v, step) <= 0
  {
    QuantizeNearAndMonotone(v, Raw(0, 1), step);
    MultipleIsExact(0, step);
  }
}
