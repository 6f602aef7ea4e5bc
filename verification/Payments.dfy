/**
  What the providers say about an invoice, and what it does: one table for all calls that may
  pay a deposit or close it, every call keeps to it, and in every run a deposit is paid only
  because its provider said so.
 */
module Payments {
  import opened Common
  import opened Money
  import opened Sums
  import opened Tables
  import opened Services
  import opened Books
  import opened Safety
  import opened Profiles
  import opened Deposits
  import opened Rulebook
  import opened Openings

  // ----------------------------------------------------------------- the table

  /** The call concerns deposit `at`, whose row is p. */
  predicate About(p: Deposit, at: nat, e: Event)
    requires OnDeposit(e)
  {
    match e
    case EvInvoicePaid(_, n, _, _) => p.provider == CryptoBot && n == Some(p.invoice)
    case EvInvoiceExpired(n) => p.provider == CryptoBot && n == Some(p.invoice)
    case EvCrystalpayNotice(n, _, _, _) => p.provider == Crystalpay && n == Some(p.invoice)
    case EvPollPaid(deposit, _) => deposit == at
    case EvExpireDeposit(deposit) => deposit == at
  }

  datatype Message = SaysPaid | SaysClosed | SaysNothing

  function MessageOf(e: Event): Message
    requires OnDeposit(e)
  {
    match e
    case EvInvoicePaid(statusPaid, _, _, _) => if statusPaid then SaysPaid else SaysNothing
    case EvInvoiceExpired(_) => SaysClosed
    case EvCrystalpayNotice(_, state, _, _) =>
      if state == Payed then SaysPaid else if state == Unavailable || state == Failed then SaysClosed else SaysNothing
    case EvPollPaid(_, _) => SaysPaid
    case EvExpireDeposit(_) => SaysClosed
  }

  /** A wallet or trust deposit needs a report of its amount, less at most one quantum; more is welcome. */
  predicate Covers(p: Deposit, r: Reported)
  {
    if p.purpose == DealTopup then !r.NonFinite?
    else r.Reported? && r.value.num + r.value.den >= p.amount * r.value.den
  }

  /** A message of payment is taken: CryptoBot's also when it comes late, the others only while the row is pending. */
  predicate Taken(p: Deposit, e: Event)
    requires OnDeposit(e) && MessageOf(e) == SaysPaid
  {
    match e
    case EvInvoicePaid(_, _, r, _) => p.status != Paid && Covers(p, r)
    case EvCrystalpayNotice(_, _, r, _) => p.status == Pending && Covers(p, r)
    case EvPollPaid(_, _) => p.status == Pending
  }

  /** The row of a paid wallet or trust deposit: it shows what was reported, and never less than was invoiced. */
  ghost predicate PaidAs(p: Deposit, e: Event, step: nat, row: Deposit)
    requires OnDeposit(e) && MessageOf(e) == SaysPaid && Taken(p, e) && p.purpose != DealTopup && step > 0
  {
    if e.EvPollPaid? then row == p.(status := Paid)
    else
      && row.paidAmount.Some?
      && var sum := row.paidAmount.value;
         && IsNearest(e.reported.value.num, e.reported.value.den, step, sum)
         && row == p.(status := Paid, amount := if sum > p.amount then sum else p.amount, paidAmount := Some(sum))
  }

  /** The deposit now reads `row`, and its amount has been credited, to the balance or the trust of its user. */
  ghost predicate Credited(w: World, at: nat, row: Deposit, after: World)
    requires at < |w.deposits| && row.user in w.users
  {
    var k, amount := Key(row.user, row.currency), row.amount;
    var b, trust := Bal(w, k), w.users[row.user].trust;
    && after.currencies == w.currencies && after.deals == w.deals && after.withdrawals == w.withdrawals
    && after.deposits == w.deposits[at := row]
    && (if row.purpose == Trust then
          && (forall k' :: Bal(after, k') == Bal(w, k'))
          && after.users == w.users[row.user := w.users[row.user].(trust := trust + amount)]
          && after.ledger == w.ledger + if amount == 0 then [] else
               [Entry(k, DepositTrustCredit, FromDeposit(at), None, trust, amount, trust + amount, 0, 0, 0)]
        else
          && (forall k' :: Bal(after, k') == if k' == k then Balance(b.amount + amount, b.locked) else Bal(w, k'))
          && after.users == w.users
          && after.ledger == w.ledger + if amount == 0 then [] else
               [Entry(k, DepositWalletCredit, FromDeposit(at), None, b.amount, amount, b.amount + amount,
                      b.locked, 0, b.locked)])
  }

  // ------------------------------------------------------- calls and the table

  /** A message about no stored invoice changes nothing. */
  lemma {:induction false} StrangersChangeNothing(w: World, e: Event)
    requires OnDeposit(e) && forall at :: 0 <= at < |w.deposits| ==> !About(w.deposits[at], at, e)
    ensures Step(w, e) == w
  {
    assert Apply(w, NOTHING) == w;
  }

  /** Nor does one that says neither that the invoice was paid nor that it was closed. */
  lemma SilenceChangesNothing(w: World, e: Event)
    requires OnDeposit(e) && MessageOf(e) == SaysNothing
    ensures Step(w, e) == w
  {
    assert Apply(w, NOTHING) == w;
  }

  /** A closing message ends a pending row as expired and moves no money; it changes nothing else. */
  lemma {:induction false} ClosingOnlyExpires(w: World, e: Event, at: nat)
    requires InvoicesDistinct(w.deposits) && OnDeposit(e) && MessageOf(e) == SaysClosed
    requires at < |w.deposits| && About(w.deposits[at], at, e)
    ensures Step(w, e)
         == if w.deposits[at].status == Pending
            then w.(deposits := w.deposits[at := w.deposits[at].(status := Expired)])
            else w
  {
    InvoiceFound(w.deposits, at);
    assert Apply(w, NOTHING) == w;
    assert DepositPlan(w, e) == Expire(w, at);
  }

  /** The amount that a message of payment hands to credit_deposit. */
  function PaidWith(e: Event): Option<Raw>
    requires OnDeposit(e) && MessageOf(e) == SaysPaid
  {
    if !e.EvPollPaid? && e.reported.Reported? then Some(e.reported.value) else None
  }

  lemma PaidPlan(w: World, e: Event, at: nat, plan: Plan)
    requires InvoicesDistinct(w.deposits) && OnDeposit(e) && MessageOf(e) == SaysPaid
    requires at < |w.deposits| && About(w.deposits[at], at, e) && plan == DepositPlan(w, e)
    ensures if Taken(w.deposits[at], e) then plan == CreditDeposit(w, at, PaidWith(e), e.issued)
            else plan == Ok(NOTHING) || plan.Err?
  {
    InvoiceFound(w.deposits, at);
  }

  lemma TakenRow(w: World, e: Event, at: nat, plan: Plan)
    requires OnDeposit(e) && MessageOf(e) == SaysPaid && at < |w.deposits| && Taken(w.deposits[at], e)
    requires DepositOk(w, w.deposits[at]) && w.deposits[at].purpose != DealTopup
    requires plan == CreditDeposit(w, at, PaidWith(e), e.issued)
    ensures plan.Ok? && plan.value.deposit.Put? && plan.value.deposit.at == at
    ensures var p := w.deposits[at]; PaidAs(p, e, GridOf(w, p.currency), plan.value.deposit.row)
  {
    var p := w.deposits[at];
    var step := GridOf(w, p.currency);
    QuantizeIdempotent(Raw(0, 1), p.amount, step);
    if PaidWith(e).Some? {
      QuantizeIsNearest(e.reported.value, step, Quantize(e.reported.value, step));
    }
  }

  lemma CreditEffect(w: World, at: nat, paid: Option<Raw>, reissued: Option<nat>, plan: Plan, after: World)
    requires at < |w.deposits| && DepositOk(w, w.deposits[at]) && w.deposits[at].purpose != DealTopup
    requires !w.deposits[at].status.Paid? && plan == CreditDeposit(w, at, paid, reissued) && plan.Ok?
    requires after == Apply(w, plan.value)
    ensures plan.value.deposit.Put? && plan.value.deposit.row.user == w.deposits[at].user
    ensures Credited(w, at, plan.value.deposit.row, after)
  {
  }

  /**
    The law of the table: a message of payment that is taken credits a wallet or trust deposit
    with exactly the amount its row then shows, and one that is not taken changes nothing.
   */
  lemma {:induction false} PaymentIsTakenIff(w: World, e: Event, at: nat)
    requires Valid(w) && OnDeposit(e) && MessageOf(e) == SaysPaid
    requires at < |w.deposits| && About(w.deposits[at], at, e)
    ensures var p, after := w.deposits[at], Step(w, e);
            if !Taken(p, e) then after == w
            else if p.purpose != DealTopup then
              && |after.deposits| == |w.deposits| && p.user in w.users && p.currency in w.currencies
              && PaidAs(p, e, GridOf(w, p.currency), after.deposits[at])
              && Credited(w, at, after.deposits[at], after)
            else after == w || (|after.deposits| >= |w.deposits| && after.deposits[at].status == Paid)
  {
    var p, plan := w.deposits[at], PlanOf(w, e);
    assert DepositOk(w, p);
    assert Apply(w, NOTHING) == w;
    PaidPlan(w, e, at, plan);
    if Taken(p, e) {
      if p.purpose != DealTopup {
        TakenRow(w, e, at, plan);
        CreditEffect(w, at, PaidWith(e), e.issued, plan, Step(w, e));
      } else if plan.Ok? {
        Deposits.RowAfter(w, plan.value, at, Step(w, e));
      }
    }
  }

  /** How a message of payment that is not taken is answered: one for a paid row, and a late poll, with success. */
  function AnswerTo(p: Deposit, e: Event): Plan
    requires OnDeposit(e) && MessageOf(e) == SaysPaid && !Taken(p, e)
  {
    if p.status == Paid || e.EvPollPaid? then Ok(NOTHING)
    else if e.EvCrystalpayNotice? && p.status != Pending then Err(NotPending)
    else if e.reported.NonFinite? then Err(Aborted)
    else Err(AmountMismatch)
  }

  /** Every message that changes nothing is answered by what stands in its way. */
  lemma {:induction false} IgnoredMessagesSayWhy(w: World, e: Event, at: nat)
    requires InvoicesDistinct(w.deposits) && OnDeposit(e)
    ensures e.EvInvoicePaid? && !e.statusPaid ==> PlanOf(w, e) == Err(NotPaid)
    ensures !(e.EvInvoicePaid? && !e.statusPaid) && (forall i :: 0 <= i < |w.deposits| ==> !About(w.deposits[i], i, e))
            ==> PlanOf(w, e) == Err(if e.EvPollPaid? || e.EvExpireDeposit? then NotFound
                                    else if e.invoice.None? then MissingInvoice else UnknownInvoice)
    ensures at < |w.deposits| && About(w.deposits[at], at, e) && MessageOf(e) == SaysPaid && !Taken(w.deposits[at], e)
            ==> PlanOf(w, e) == AnswerTo(w.deposits[at], e)
  {
    if at < |w.deposits| && About(w.deposits[at], at, e) {
      InvoiceFound(w.deposits, at);
    }
  }

  // --------------------------------------------------------------- new deposits

  /**
    A deposit invoice is opened exactly for a known user and currency, an amount that is at
    least the minimum once rounded, and an id that the provider issued and no row has; the row
    remembers what it was opened for, and nothing else changes.
   */
  lemma {:induction false} DepositIsOpenedIff(w: World, e: Event, sum: int)
    requires e.EvOpenDeposit?
    requires e.currency in w.currencies && e.asked.Exact? ==>
               IsNearest(e.asked.value.num, e.asked.value.den, GridOf(w, e.currency), sum)
    ensures Step(w, e)
         == if e.user in w.users && e.currency in w.currencies && e.asked.Exact?
               && sum >= w.currencies[e.currency].minDeposit
               && e.issued.Some? && Unused(w.deposits, e.provider, e.issued.value)
            then w.(deposits := w.deposits +
                      [Deposit(e.user, e.currency, sum, e.provider, e.issued.value, Pending,
                               if e.trust then Trust else Wallet, None, None, 0)])
            else w
  {
    if e.currency in w.currencies && e.asked.Exact? {
      QuantizeIsNearest(e.asked.value, GridOf(w, e.currency), sum);
    }
    if e.issued.Some? {
      UnusedIsNotFound(w.deposits, e.provider, e.issued.value);
    }
    assert PlanOf(w, e) == OpenDeposit(w, e.user, e.currency, e.asked, e.trust, e.provider, e.issued);
  }

  // --------------------------------------------------------------- in every run

  /** Why event e changes the status of row i: its provider said so, or its deal was given up. */
  ghost predicate Entitled(w: World, e: Event, i: nat, after: World)
    requires i < |w.deposits| && i < |after.deposits|
  {
    var p, row := w.deposits[i], after.deposits[i];
    match row.status
    case Paid =>
      && OnDeposit(e) && About(p, i, e) && MessageOf(e) == SaysPaid && Taken(p, e)
      && (p.purpose != DealTopup && p.currency in w.currencies ==> PaidAs(p, e, GridOf(w, p.currency), row))
    case Expired =>
      && p.status == Pending
      && ((OnDeposit(e) && About(p, i, e) && MessageOf(e) == SaysClosed)
          || ((e.EvCancelPendingTopup? || e.EvExpirePendingTopup?) && e.deal < |w.deals|
              && May(w.deals[e.deal], e) && w.deals[e.deal].topup == Some(i)))
    case _ => false
  }

  lemma CallTurns(w: World, e: Event, i: nat, after: World)
    requires Valid(w) && OnDeal(e) && after == Step(w, e) && i < |after.deposits|
    ensures i < |w.deposits|
    ensures after.deposits[i].status != w.deposits[i].status ==> Entitled(w, e, i, after)
    ensures after.deposits[i].status == w.deposits[i].status ==> after.deposits[i] == w.deposits[i]
  {
    CallsKeepToTheRules(w, e);
    if e.deal < |w.deals| && May(w.deals[e.deal], e) {
      InvoiceTurns(w, e, i, after);
    }
  }

  lemma InvoiceTurns(w: World, e: Event, i: nat, after: World)
    requires OnDeal(e) && e.deal < |w.deals| && May(w.deals[e.deal], e) && CarriedOut(w, e.deal, e, after)
    requires i < |after.deposits|
    ensures i < |w.deposits|
    ensures after.deposits[i].status != w.deposits[i].status ==> Entitled(w, e, i, after)
    ensures after.deposits[i].status == w.deposits[i].status ==> after.deposits[i] == w.deposits[i]
  {
  }

  lemma OpeningTurns(w: World, e: Event, i: nat, plan: Plan, after: World)
    requires !OnDeposit(e) && !OnDeal(e) && plan == PlanOf(w, e) && plan.Ok? && after == Apply(w, plan.value)
    requires i < |after.deposits|
    ensures if i < |w.deposits| then after.deposits[i] == w.deposits[i] else after.deposits[i].status.Pending?
  {
    if OnWithdrawal(e) {
      WithdrawalPlanIdle(w, e, plan);
    } else {
      assert plan == DealPlan(w, e) && plan.value.deposit.Keep?;
    }
  }

  /** Row i after a step: kept, turned by right, or new and pending. */
  ghost predicate Follows(w: World, e: Event, i: nat, after: World)
    requires i < |after.deposits|
  {
    if i >= |w.deposits| then after.deposits[i].status == Pending
    else if after.deposits[i].status == w.deposits[i].status then after.deposits[i] == w.deposits[i]
    else Entitled(w, e, i, after)
  }

  lemma TakenTurns(w: World, e: Event, at: nat, i: nat, plan: Plan, after: World)
    requires OnDeposit(e) && MessageOf(e) == SaysPaid && at < |w.deposits| && About(w.deposits[at], at, e)
    requires Taken(w.deposits[at], e) && plan == CreditDeposit(w, at, PaidWith(e), e.issued) && plan.Ok?
    requires DepositOk(w, w.deposits[at])
    requires after == Apply(w, plan.value) && i < |after.deposits|
    ensures Follows(w, e, i, after)
  {
    Deposits.RowAfter(w, plan.value, i, after);
    if i == at && w.deposits[at].purpose != DealTopup {
      TakenRow(w, e, at, plan);
    }
  }

  lemma PaymentTurns(w: World, e: Event, at: nat, i: nat, after: World)
    requires Valid(w) && OnDeposit(e) && MessageOf(e) == SaysPaid
    requires at < |w.deposits| && About(w.deposits[at], at, e) && after == Step(w, e) && i < |after.deposits|
    ensures Follows(w, e, i, after)
  {
    var plan := PlanOf(w, e);
    assert DepositOk(w, w.deposits[at]);
    PaidPlan(w, e, at, plan);
    assert Apply(w, NOTHING) == w;
    if plan.Ok? && Taken(w.deposits[at], e) {
      TakenTurns(w, e, at, i, plan, after);
    }
  }

  lemma DepositCallTurns(w: World, e: Event, i: nat, after: World)
    requires Valid(w) && OnDeposit(e) && after == Step(w, e) && i < |after.deposits|
    ensures Follows(w, e, i, after)
  {
    if at :| 0 <= at < |w.deposits| && About(w.deposits[at], at, e) {
      match MessageOf(e)
      case SaysPaid => PaymentTurns(w, e, at, i, after);
      case SaysClosed => ClosingOnlyExpires(w, e, at);
      case SaysNothing => SilenceChangesNothing(w, e);
    } else {
      StrangersChangeNothing(w, e);
    }
  }

  lemma EveryStepFollows(w: World, e: Event, i: nat, after: World)
    requires Valid(w) && after == Step(w, e) && i < |after.deposits|
    ensures Follows(w, e, i, after)
  {
    var plan := PlanOf(w, e);
    if OnDeposit(e) {
      DepositCallTurns(w, e, i, after);
    } else if OnDeal(e) {
      CallTurns(w, e, i, after);
    } else if plan.Ok? {
      OpeningTurns(w, e, i, plan, after);
    }
  }

  /** A call, entitled to, has changed the status of row i, and left the row as it is now. */
  ghost predicate Turned(before: World, e: Event, i: nat, after: World, row: Deposit)
  {
    && i < |before.deposits| && i < |after.deposits|
    && before.deposits[i].status != after.deposits[i].status && after.deposits[i] == row
    && Entitled(before, e, i, after)
  }

  /** That call was event n of the run. */
  ghost predicate TurnedBy(w: World, events: seq<Event>, i: nat, n: nat, row: Deposit)
  {
    n < |events| && Turned(Run(w, events[..n]), events[n], i, Run(w, events[..n + 1]), row)
  }

  lemma TurnedBefore(w: World, events: seq<Event>, i: nat, n: nat, row: Deposit)
    requires events != [] && TurnedBy(w, events[..|events| - 1], i, n, row)
    ensures TurnedBy(w, events, i, n, row)
  {
    assert events[..|events| - 1][..n] == events[..n] && events[..|events| - 1][..n + 1] == events[..n + 1];
  }

  /**
    In every run, a deposit that is no longer pending was turned into what it is by one call,
    and by one entitled to: a paid one by a message of payment that was taken, an expired one
    by a closing message, or because the deal it was for was given up.
   */
  lemma {:induction false} EveryDepositHasItsMessage(w: World, events: seq<Event>, i: nat) returns (n: nat)
    requires Fresh(w) && Fair(w, events) && i < |Run(w, events).deposits|
    requires Run(w, events).deposits[i].status != Pending
    ensures TurnedBy(w, events, i, n, Run(w, events).deposits[i])
  {
    var m := |events| - 1;
    var before, e, now := Run(w, events[..m]), events[m], Run(w, events);
    BooksAlwaysBalance(w, events[..m]);
    EveryStepFollows(before, e, i, now);
    assert events[..m + 1] == events;
    if i < |before.deposits| && before.deposits[i] == now.deposits[i] {
      n := EveryDepositHasItsMessage(w, events[..m], i);
      TurnedBefore(w, events, i, n, now.deposits[i]);
    } else {
      n := m;
    }
  }
}
