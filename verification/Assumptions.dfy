/**
  The two timing assumptions of the withdrawal protocol are the weakest that will do: a step
  meets its assumption exactly when nothing that follows from it, all other assumptions
  kept, can refund the withdrawal twice or reject it although it ships.
 */
module Assumptions {
  import opened Common
  import opened Money
  import opened Sums
  import opened Tables
  import opened Services
  import opened Books
  import opened Safety

  /** The status of withdrawal i tells the truth and the books of its account balance. */
  ghost predicate Sound(w: World, i: nat)
  {
    && i < |w.withdrawals|
    && (w.withdrawals[i].status.Sent? ==> w.withdrawals[i].call.Shipped?)
    && (w.withdrawals[i].status.Rejected? ==> !w.withdrawals[i].call.Shipped?)
    && Balanced(w, WithdrawalKey(w.withdrawals[i]))
  }

  lemma {:induction false} FairKeepsValid(w: World, events: seq<Event>, i: nat)
    requires Valid(w) && Fair(w, events) && i < |w.withdrawals|
    ensures Valid(Run(w, events)) && i < |Run(w, events).withdrawals|
  {
    if events != [] {
      var n := |events| - 1;
      FairKeepsValid(w, events[..n], i);
      StepKeepsValid(Run(w, events[..n]), events[n]);
      RowsStay(Run(w, events[..n]), events[n], PlanOf(Run(w, events[..n]), events[n]));
    }
  }

  lemma RowsStay(w: World, e: Event, plan: Plan)
    requires plan == PlanOf(w, e)
    ensures |Step(w, e).withdrawals| >= |w.withdrawals|
  {
  }

  lemma ValidIsSound(w: World, i: nat)
    requires Valid(w) && i < |w.withdrawals|
    ensures Sound(w, i)
  {
    assert WithdrawalOk(w, w.withdrawals[i]);
    assert Balanced(w, WithdrawalKey(w.withdrawals[i]));
  }

  /** A step within the assumptions does no harm, whatever fairly follows. */
  lemma AssumedStaysSound(w: World, e: Event, i: nat, more: seq<Event>)
    requires Valid(w) && Assumed(w, e) && i < |w.withdrawals| && Fair(Step(w, e), more)
    ensures Sound(Run(Step(w, e), more), i)
  {
    StepKeepsValid(w, e);
    RowsStay(w, e, PlanOf(w, e));
    FairKeepsValid(Step(w, e), more, i);
    ValidIsSound(Run(Step(w, e), more), i);
  }

  // ------------------------------------------------------------ continuations

  /** The events fairly lead from w to `now`. */
  ghost predicate Leads(w: World, events: seq<Event>, now: World)
  {
    Fair(w, events) && now == Run(w, events)
  }

  lemma Start(w: World)
    ensures Leads(w, [], w)
  {
  }

  lemma Extend(w: World, events: seq<Event>, now: World, e: Event, next: World)
    requires Leads(w, events, now) && Assumed(now, e) && next == Step(now, e)
    ensures Leads(w, events + [e], next)
  {
    assert (events + [e])[..|events|] == events;
  }

  /** Only withdrawal i and its balance differ from w: the row is y, the balance b. */
  ghost predicate Differs(w: World, i: nat, y: Withdrawal, b: Balance, now: World)
  {
    && i < |w.withdrawals| && now.withdrawals == w.withdrawals[i := y]
    && now.deals == w.deals && now.deposits == w.deposits
    && Bal(now, WithdrawalKey(y)).amount == b.amount && Bal(now, WithdrawalKey(y)).locked == b.locked
  }

  /** The balance after a refund of `amount`, with its clamp. */
  function Refunded(b: Balance, amount: int): Balance
  {
    Balance(b.amount + amount, b.locked + Unlock(b, amount))
  }

  lemma OutsideStep(w: World, i: nat, x: Withdrawal, b: Balance, now: World, o: Outside, y: Withdrawal)
    requires Differs(w, i, x, b, now) && Happen(now, i, o) == Rewrite(now, i, y) && WithdrawalKey(y) == WithdrawalKey(x)
    ensures Differs(w, i, y, b, Step(now, EvOutside(i, o)))
  {
  }

  lemma AskStep(w: World, i: nat, x: Withdrawal, b: Balance, now: World)
    requires Differs(w, i, x, b, now) && x.stale && x.status.Awaiting? && !x.call.Shipped?
    ensures Differs(w, i, x.(heardNo := true), b, Step(now, EvAskProvider(i)))
  {
  }

  /** What a sweep, or a failed request, writes when it refunds the row. */
  function RefundEffect(i: nat, x: Withdrawal, b: Balance, y: Withdrawal, recorded: bool): Effect
  {
    NOTHING.(first := Posting(WithdrawalKey(x), x.amount, Unlock(b, x.amount), WithdrawalAutoFailedRefund,
                              FromWithdrawal(i),
                              None, recorded),
             withdrawal := Put(i, y))
  }

  lemma RefundDiffers(w: World, i: nat, x: Withdrawal, b: Balance, now: World, y: Withdrawal, recorded: bool,
                      next: World)
    requires Differs(w, i, x, b, now) && WithdrawalKey(y) == WithdrawalKey(x)
    requires next == Apply(now, RefundEffect(i, x, b, y, recorded))
    ensures Differs(w, i, y, Refunded(b, x.amount), next)
  {
    ApplyMovesBalance(now, RefundEffect(i, x, b, y, recorded), WithdrawalKey(x));
  }

  lemma SweepPlan(w: World, i: nat, x: Withdrawal, b: Balance, now: World, plan: Plan)
    requires Differs(w, i, x, b, now) && x.heardNo && x.status.Awaiting? && plan == Reconcile(now, i, false)
    ensures plan == Ok(RefundEffect(i, x, b, x.(status := Rejected, note := SweepRefunded), false))
  {
  }

  lemma SweepStep(w: World, i: nat, x: Withdrawal, b: Balance, now: World, plan: Plan)
    requires plan == Reconcile(now, i, false) && plan.Ok?
    ensures Step(now, EvReconcile(i, false)) == Apply(now, plan.value)
  {
  }

  /** The sweep refunds the row. */
  lemma Swept(w: World, i: nat, x: Withdrawal, b: Balance, now: World, next: World)
    requires Differs(w, i, x, b, now) && x.heardNo && x.status.Awaiting? && next == Step(now, EvReconcile(i, false))
    ensures Differs(w, i, x.(status := Rejected, note := SweepRefunded), Refunded(b, x.amount), next)
  {
    var plan := Reconcile(now, i, false);
    SweepPlan(w, i, x, b, now, plan);
    SweepStep(w, i, x, b, now, plan);
    RefundDiffers(w, i, x, b, now, x.(status := Rejected, note := SweepRefunded), false, next);
  }

  function Failed(x: Withdrawal): Withdrawal
  {
    x.(status := Rejected, note := AutoFailed, worker := Gone)
  }

  lemma FailPlan(w: World, i: nat, x: Withdrawal, b: Balance, now: World, plan: Plan)
    requires Differs(w, i, x, b, now) && x.worker.GotError? && !x.admins && plan == FinishFailed(now, i)
    ensures plan == Ok(RefundEffect(i, x, b, Failed(x), true))
  {
  }

  lemma FailStep(now: World, i: nat, plan: Plan)
    requires plan == FinishFailed(now, i) && plan.Ok?
    ensures Step(now, EvFinishFailed(i)) == Apply(now, plan.value)
  {
  }

  /** The failed request refunds the row, whatever its status. */
  lemma FailedRefunds(w: World, i: nat, x: Withdrawal, b: Balance, now: World, next: World)
    requires Differs(w, i, x, b, now) && x.worker.GotError? && !x.admins && next == Step(now, EvFinishFailed(i))
    ensures Differs(w, i, Failed(x), Refunded(b, x.amount), next)
  {
    var plan := FinishFailed(now, i);
    FailPlan(w, i, x, b, now, plan);
    FailStep(now, i, plan);
    RefundDiffers(w, i, x, b, now, Failed(x), true, next);
  }

  // ------------------------------------------ a sweep that overtakes the transfer

  /** The row after a sweep has refunded it. */
  function Overtaken(x: Withdrawal): Withdrawal
  {
    x.(stale := true, heardNo := true, status := Rejected, note := SweepRefunded)
  }

  /** A transfer still under way may ship although its row has been rejected. */
  lemma ShipsLate(w: World, i: nat, y: Withdrawal, b: Balance, from: World, events: seq<Event>, now: World)
    returns (more: seq<Event>, end: World)
    requires Leads(from, events, now) && Differs(w, i, y, b, now) && y.call.InFlight?
    ensures Leads(from, more, end) && Differs(w, i, y.(call := Shipped), b, end)
  {
    end := Step(now, EvOutside(i, Ship));
    OutsideStep(w, i, y, b, now, Ship, y.(call := Shipped));
    Extend(from, events, now, EvOutside(i, Ship), end);
    more := events + [EvOutside(i, Ship)];
  }

  /** The sweep refunds a transfer that is still under way, and then it ships. */
  lemma OvertakenTransferShips(w: World, i: nat, stale: World) returns (more: seq<Event>, end: World)
    requires Valid(w) && i < |w.withdrawals| && w.withdrawals[i].call.InFlight?
    requires stale == Step(w, EvOutside(i, GrowStale))
    ensures Leads(stale, more, end)
    ensures var x := w.withdrawals[i];
            Differs(w, i, Overtaken(x).(call := Shipped), Refunded(Bal(w, WithdrawalKey(x)), x.amount), end)
  {
    var x := w.withdrawals[i];
    assert WithdrawalOk(w, x);
    var b := Bal(w, WithdrawalKey(x));
    OutsideStep(w, i, x, b, w, GrowStale, x.(stale := true));
    more, end := SweepRefunds(w, i, x.(stale := true), b, stale);
    more, end := ShipsLate(w, i, Overtaken(x), Refunded(b, x.amount), stale, more, end);
  }

  /** Asked about a transfer that has not shipped, the provider knows none, and the sweep refunds it. */
  lemma SweepRefunds(w: World, i: nat, x: Withdrawal, b: Balance, stale: World) returns (more: seq<Event>, end: World)
    requires Differs(w, i, x, b, stale) && x.stale && x.status.Awaiting? && !x.call.Shipped?
    ensures Leads(stale, more, end)
    ensures Differs(w, i, Overtaken(x), Refunded(b, x.amount), end)
  {
    var asked := Step(stale, EvAskProvider(i));
    AskStep(w, i, x, b, stale);
    end := Step(asked, EvReconcile(i, false));
    Swept(w, i, x.(heardNo := true), b, asked, end);
    Start(stale);
    Extend(stale, [], stale, EvAskProvider(i), asked);
    Extend(stale, [] + [EvAskProvider(i)], asked, EvReconcile(i, false), end);
    more := [] + [EvAskProvider(i)] + [EvReconcile(i, false)];
  }

  /** A lost transfer whose request has not come back: it errs, and refunds. */
  lemma RequestRefunds(w: World, i: nat, x: Withdrawal, b: Balance, from: World, events: seq<Event>, now: World)
    returns (more: seq<Event>, end: World)
    requires Leads(from, events, now) && Differs(w, i, x, b, now)
    requires (x.worker.Calling? || x.worker.GotError?) && !x.admins && x.call.Lost?
    ensures Leads(from, more, end) && Differs(w, i, Failed(x), Refunded(b, x.amount), end)
  {
    more, end := events, now;
    if x.worker.Calling? {
      var next := Step(now, EvOutside(i, ReplyError));
      OutsideStep(w, i, x, b, now, ReplyError, x.(worker := GotError));
      Extend(from, events, now, EvOutside(i, ReplyError), next);
      more, end := events + [EvOutside(i, ReplyError)], next;
    }
    var last := Step(end, EvFinishFailed(i));
    FailedRefunds(w, i, x.(worker := GotError), b, end, last);
    Extend(from, more, end, EvFinishFailed(i), last);
    more, end := more + [EvFinishFailed(i)], last;
  }

  /** The sweep refunds a lost transfer while its request may still do so, and then it does. */
  lemma OvertakenRequestRefundsAgain(w: World, i: nat, stale: World) returns (more: seq<Event>, end: World)
    requires Valid(w) && i < |w.withdrawals| && MayRefund(w.withdrawals[i])
    requires stale == Step(w, EvOutside(i, GrowStale))
    ensures Leads(stale, more, end)
    ensures var x := w.withdrawals[i];
            var b := Bal(w, WithdrawalKey(x));
            Differs(w, i, Failed(x.(stale := true, heardNo := true)), Refunded(Refunded(b, x.amount), x.amount), end)
  {
    var x, b := w.withdrawals[i], Bal(w, WithdrawalKey(w.withdrawals[i]));
    assert WithdrawalOk(w, x);
    OutsideStep(w, i, x, b, w, GrowStale, x.(stale := true));
    more, end := SweepRefunds(w, i, x.(stale := true), b, stale);
    more, end := RequestRefunds(w, i, Overtaken(x), Refunded(b, x.amount), stale, more, end);
  }

  /** One refund of a waiting withdrawal balances its books, a second one cannot. */
  lemma TwiceDoesNotBalance(w: World, i: nat, y: Withdrawal, end: World)
    requires Valid(w) && i < |w.withdrawals| && w.withdrawals[i].status.Awaiting? && w.withdrawals[i].amount > 0
    requires var x := w.withdrawals[i];
             && WithdrawalKey(y) == WithdrawalKey(x) && y.status.Rejected?
             && Differs(w, i, y, Refunded(Refunded(Bal(w, WithdrawalKey(x)), x.amount), x.amount), end)
    ensures !Balanced(end, WithdrawalKey(y))
    ensures Bal(end, WithdrawalKey(y)).amount == Bal(w, WithdrawalKey(y)).amount + 2 * w.withdrawals[i].amount
  {
    var k := WithdrawalKey(y);
    assert Balanced(w, k);
    SumUpdate(w.withdrawals, i, y, HeldByWithdrawal(k));
    SumUpdate(w.withdrawals, i, y, SentOut(k));
    LockCoversWithdrawal(w, i);
  }

  // --------------------------------------------- an error that hides a transfer

  /** A call that errs although it has shipped or still may, with no admin to leave it to, is refunded. */
  lemma HiddenTransferRefunded(w: World, i: nat, erred: World) returns (more: seq<Event>, end: World)
    requires Valid(w) && i < |w.withdrawals|
    requires var x := w.withdrawals[i]; x.worker.Calling? && !x.admins && !x.call.Lost?
    requires erred == Step(w, EvOutside(i, ReplyError))
    ensures Leads(erred, more, end) && i < |end.withdrawals|
    ensures end.withdrawals[i].status.Rejected? && end.withdrawals[i].call.Shipped?
  {
    assert WithdrawalOk(w, w.withdrawals[i]);
    var x, b := w.withdrawals[i].(worker := GotError), Bal(w, WithdrawalKey(w.withdrawals[i]));
    OutsideStep(w, i, w.withdrawals[i], b, w, ReplyError, x);
    end := Step(erred, EvFinishFailed(i));
    FailedRefunds(w, i, x, b, erred, end);
    Start(erred);
    Extend(erred, [], erred, EvFinishFailed(i), end);
    more := [] + [EvFinishFailed(i)];
    if x.call.InFlight? {
      more, end := ShipsLate(w, i, Failed(x), Refunded(b, x.amount), erred, more, end);
    }
  }

  // ------------------------------------------------------- the exact conditions

  /** Whatever fairly follows the step, withdrawal i stays sound. */
  ghost predicate Harmless(w: World, e: Event, i: nat)
  {
    forall more: seq<Event> :: Fair(Step(w, e), more) ==> Sound(Run(Step(w, e), more), i)
  }

  lemma AssumedIsHarmless(w: World, e: Event, i: nat)
    requires Valid(w) && Assumed(w, e) && i < |w.withdrawals|
    ensures Harmless(w, e, i)
  {
    forall more: seq<Event> | Fair(Step(w, e), more) ensures Sound(Run(Step(w, e), more), i) {
      AssumedStaysSound(w, e, i, more);
    }
  }

  lemma HarmShown(w: World, e: Event, i: nat, more: seq<Event>, end: World)
    requires Leads(Step(w, e), more, end) && !Sound(end, i)
    ensures !Harmless(w, e, i)
  {
  }

  /** A row of positive amount may grow stale exactly when neither its transfer can ship nor its request refund it. */
  lemma {:induction false} StaleAssumptionIsExact(w: World, i: nat)
    requires Valid(w) && i < |w.withdrawals| && w.withdrawals[i].amount > 0
    ensures Assumed(w, EvOutside(i, GrowStale)) <==> Harmless(w, EvOutside(i, GrowStale), i)
  {
    var e, x := EvOutside(i, GrowStale), w.withdrawals[i];
    if Assumed(w, e) {
      AssumedIsHarmless(w, e, i);
    } else if x.call.InFlight? {
      var more, end := OvertakenTransferShips(w, i, Step(w, e));
      HarmShown(w, e, i, more, end);
    } else {
      assert WithdrawalOk(w, x);
      var more, end := OvertakenRequestRefundsAgain(w, i, Step(w, e));
      TwiceDoesNotBalance(w, i, Failed(x.(stale := true, heardNo := true)), end);
      HarmShown(w, e, i, more, end);
    }
  }

  /** A transfer call may err exactly when an admin exists, the transfer is lost, or nobody waits for the answer. */
  lemma {:induction false} ErrorAssumptionIsExact(w: World, i: nat)
    requires Valid(w) && i < |w.withdrawals|
    ensures Assumed(w, EvOutside(i, ReplyError)) <==> Harmless(w, EvOutside(i, ReplyError), i)
  {
    var e := EvOutside(i, ReplyError);
    if Assumed(w, e) {
      AssumedIsHarmless(w, e, i);
    } else {
      var more, end := HiddenTransferRefunded(w, i, Step(w, e));
      HarmShown(w, e, i, more, end);
    }
  }
}
