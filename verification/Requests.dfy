/**
  Withdrawals by the rules: which requests are accepted and whether a transfer starts at once,
  and one table for everything that happens to a stored withdrawal after that.
 */
module Requests {
  import opened Common
  import opened Money
  import opened Sums
  import opened Tables
  import opened Services
  import opened Books
  import opened Safety
  import opened Profiles

  // -------------------------------------------------------------- the request

  /** A transfer starts without an admin only if CryptoBot is configured and automatic mode is on. */
  predicate Automatic(e: Event)
    requires e.EvRequestWithdrawal?
  {
    e.configured && e.enabled
  }

  /** Known user and currency, the minimum, somebody to deliver it, and the balance. */
  predicate Acceptable(w: World, e: Event)
    requires e.EvRequestWithdrawal?
  {
    && e.user in w.users && e.currency in w.currencies
    && e.amount >= w.currencies[e.currency].minWithdraw
    && (Automatic(e) || e.admins)
    && Bal(w, Key(e.user, e.currency)).amount >= e.amount
  }

  function Requested(e: Event): Withdrawal
    requires e.EvRequestWithdrawal?
  {
    Withdrawal(e.user, e.currency, e.amount, Awaiting, NoNote, e.admins,
               if Automatic(e) then InFlight else NotSent, if Automatic(e) then Calling else Gone, false, false, false)
  }

  /** Account k has changed by `amount` and `locked`, no other has, and the ledger got these entries. */
  ghost predicate Moved(w: World, k: Key, amount: int, locked: int, entries: seq<Entry>, after: World)
  {
    && (forall k' :: Bal(after, k') == var b := Bal(w, k');
                                       if k' == k then Balance(b.amount + amount, b.locked + locked) else b)
    && after.ledger == w.ledger + entries
  }

  function EntryOf(x: Withdrawal, at: nat, event: EventType, b: Balance, amount: int, locked: int): seq<Entry>
  {
    if amount == 0 && locked == 0 then [] else
      [Entry(Key(x.user, x.currency), event, FromWithdrawal(at), None, b.amount, amount, b.amount + amount,
             b.locked, locked, b.locked + locked)]
  }

  /** Nothing but withdrawals, balances and the ledger has changed. */
  predicate OnlyMoney(w: World, after: World)
  {
    && after.currencies == w.currencies && after.users == w.users
    && after.deals == w.deals && after.deposits == w.deposits
  }

  /** An acceptable request is stored and its amount locked; any other one changes nothing. */
  lemma {:induction false} RequestIsAcceptedIff(w: World, e: Event)
    requires e.EvRequestWithdrawal?
    ensures var after, x, k := Step(w, e), Requested(e), Key(e.user, e.currency);
            if Acceptable(w, e) then
              && OnlyMoney(w, after) && after.withdrawals == w.withdrawals + [x]
              && Moved(w, k, -e.amount, e.amount,
                       EntryOf(x, |w.withdrawals|, WithdrawalLock, Bal(w, k), -e.amount, e.amount), after)
            else after == w
  {
    assert PlanOf(w, e)
        == RequestWithdrawal(w, e.user, e.currency, e.amount, e.configured, e.enabled, e.admins);
  }

  /** A refused request names its first obstacle, and to a short balance by how much it is short. */
  lemma {:induction false} RefusedRequestsSayWhy(w: World, e: Event)
    requires e.EvRequestWithdrawal? && !Acceptable(w, e)
    ensures var balance := Bal(w, Key(e.user, e.currency)).amount;
            PlanOf(w, e) == Err(if e.user !in w.users || e.currency !in w.currencies then NotFound
                                else if e.amount < w.currencies[e.currency].minWithdraw then BelowMinimum
                                else if !Automatic(e) && !e.admins then NoDeliveryPath
                                else InsufficientFunds(e.amount, balance, e.amount - balance))
  {
    assert PlanOf(w, e)
        == RequestWithdrawal(w, e.user, e.currency, e.amount, e.configured, e.enabled, e.admins);
  }

  // ------------------------------------------------------------- after it: the table

  predicate OnRow(e: Event)
  {
    e.EvFinishSent? || e.EvFinishFailed? || e.EvAskProvider? || e.EvReconcile? || e.EvOutside?
  }

  predicate Possible(x: Withdrawal, e: Event)
    requires OnRow(e)
  {
    match e
    case EvFinishSent(_) => x.worker == GotOk
    case EvFinishFailed(_) => x.worker == GotError
    case EvAskProvider(_) => x.stale && x.status == Awaiting
    case EvReconcile(_, matched) => (if matched then x.heardYes else x.heardNo) && x.status == Awaiting
    case EvOutside(_, Ship) => x.call == InFlight
    case EvOutside(_, Lose) => x.call == InFlight
    case EvOutside(_, ReplyOk) => x.worker == Calling && x.call == Shipped
    case EvOutside(_, ReplyError) => x.worker == Calling
    case EvOutside(_, Crash) => true
    case EvOutside(_, GrowStale) => true
  }

  datatype Outcome = Waits | GoesOut | ComesBack

  /** A failed transfer goes back to the user only if there is no admin to look at it. */
  function OutcomeOf(x: Withdrawal, e: Event): Outcome
    requires OnRow(e)
  {
    match e
    case EvFinishSent(_) => if x.status == Awaiting then GoesOut else Waits
    case EvFinishFailed(_) => if x.admins then Waits else ComesBack
    case EvReconcile(_, matched) => if matched then GoesOut else ComesBack
    case _ => Waits
  }

  function NoteAfter(x: Withdrawal, e: Event): Note
    requires OnRow(e)
  {
    match OutcomeOf(x, e)
    case Waits => x.note
    case GoesOut => if e.EvReconcile? then SweepSent else Transferred
    case ComesBack => if e.EvReconcile? then SweepRefunded else AutoFailed
  }

  function WorkerAfter(x: Withdrawal, e: Event): Worker
    requires OnRow(e)
  {
    if e.EvFinishSent? || e.EvFinishFailed? then Gone
    else if !e.EvOutside? then x.worker
    else match e.outside
      case ReplyOk => GotOk
      case ReplyError => GotError
      case Crash => Gone
      case _ => x.worker
  }

  function CallAfter(x: Withdrawal, e: Event): Call
    requires OnRow(e)
  {
    if e.EvOutside? && e.outside == Ship then Shipped
    else if e.EvOutside? && e.outside == Lose then Lost
    else x.call
  }

  function WithdrawalAfter(x: Withdrawal, e: Event): Withdrawal
    requires OnRow(e)
  {
    x.(status := match OutcomeOf(x, e) case Waits => x.status case GoesOut => Sent case ComesBack => Rejected,
       note := NoteAfter(x, e), worker := WorkerAfter(x, e), call := CallAfter(x, e),
       stale := x.stale || (e.EvOutside? && e.outside == GrowStale),
       heardYes := x.heardYes || (e.EvAskProvider? && x.call == Shipped),
       heardNo := x.heardNo || (e.EvAskProvider? && x.call != Shipped))
  }

  /** The lock ends when the withdrawal does; what comes back is spendable again; the sweep writes no entry. */
  ghost predicate TakesEffect(w: World, at: nat, e: Event, after: World)
    requires OnRow(e) && at < |w.withdrawals|
  {
    var x := w.withdrawals[at];
    var k, b, to := Key(x.user, x.currency), Bal(w, Key(x.user, x.currency)), OutcomeOf(x, e);
    var amount := if to == ComesBack then x.amount else 0;
    var locked := if to == Waits then 0 else -x.amount;
    var event := if to == ComesBack then WithdrawalAutoFailedRefund else WithdrawalSent;
    && OnlyMoney(w, after)
    && after.withdrawals == w.withdrawals[at := WithdrawalAfter(x, e)]
    && Moved(w, k, amount, locked, if e.EvReconcile? then [] else EntryOf(x, at, event, b, amount, locked), after)
  }

  /** The balance change of the table: what becomes spendable, and what is unlocked. */
  function AmountBack(x: Withdrawal, e: Event): int
    requires OnRow(e)
  {
    if OutcomeOf(x, e) == ComesBack then x.amount else 0
  }

  lemma QuietTakesEffect(w: World, at: nat, e: Event, after: World)
    requires OnRow(e) && at < |w.withdrawals| && OutcomeOf(w.withdrawals[at], e) == Waits
    requires after == Apply(w, NOTHING.(withdrawal := Put.Put(at, WithdrawalAfter(w.withdrawals[at], e))))
    ensures TakesEffect(w, at, e, after)
  {
  }

  lemma SettlingTakesEffect(w: World, at: nat, e: Event, event: EventType, after: World)
    requires OnRow(e) && at < |w.withdrawals| && OutcomeOf(w.withdrawals[at], e) != Waits
    requires event == if OutcomeOf(w.withdrawals[at], e) == ComesBack then WithdrawalAutoFailedRefund
                      else WithdrawalSent
    requires var x := w.withdrawals[at];
             after == Apply(w, NOTHING.(
                              first := Posting(WithdrawalKey(x), AmountBack(x, e), -x.amount, event,
                                               FromWithdrawal(at), None, !e.EvReconcile?),
                              withdrawal := Put.Put(at, WithdrawalAfter(x, e))))
    ensures TakesEffect(w, at, e, after)
  {
  }

  lemma AskTakesEffect(w: World, e: Event, at: nat, plan: Plan)
    requires (e.EvAskProvider? || e.EvOutside?) && e.withdrawal == at < |w.withdrawals| && plan == WithdrawalPlan(w, e)
    ensures if Possible(w.withdrawals[at], e)
            then plan == Ok(NOTHING.(withdrawal := Put.Put(at, WithdrawalAfter(w.withdrawals[at], e))))
            else plan.Err?
  {
  }

  /** In a valid world a failed transfer that comes back still waits, so its lock is there. */
  lemma LockIsThere(w: World, e: Event, at: nat)
    requires Valid(w) && OnRow(e) && at < |w.withdrawals| && Possible(w.withdrawals[at], e)
    requires OutcomeOf(w.withdrawals[at], e) != Waits
    ensures var x := w.withdrawals[at];
            x.status.Awaiting? && Unlock(Bal(w, WithdrawalKey(x)), x.amount) == -x.amount
  {
    assert WithdrawalOk(w, w.withdrawals[at]);
    LockCoversWithdrawal(w, at);
  }

  lemma FinishTakesEffect(w: World, e: Event, at: nat, plan: Plan)
    requires (e.EvFinishSent? || e.EvFinishFailed? || e.EvReconcile?) && e.withdrawal == at < |w.withdrawals|
    requires Possible(w.withdrawals[at], e) && plan == WithdrawalPlan(w, e)
    requires OutcomeOf(w.withdrawals[at], e) != Waits ==>
               var x := w.withdrawals[at];
               x.status.Awaiting? && Unlock(Bal(w, WithdrawalKey(x)), x.amount) == -x.amount
    ensures plan.Ok? && TakesEffect(w, at, e, Apply(w, plan.value))
  {
    var x := w.withdrawals[at];
    if OutcomeOf(x, e) == Waits {
      FinishQuietly(w, e, at, plan);
      QuietTakesEffect(w, at, e, Apply(w, plan.value));
    } else {
      var event := if OutcomeOf(x, e) == ComesBack then WithdrawalAutoFailedRefund else WithdrawalSent;
      FinishSettling(w, e, at, event, plan);
      SettlingTakesEffect(w, at, e, event, Apply(w, plan.value));
    }
  }

  lemma FinishQuietly(w: World, e: Event, at: nat, plan: Plan)
    requires (e.EvFinishSent? || e.EvFinishFailed?) && e.withdrawal == at < |w.withdrawals|
    requires Possible(w.withdrawals[at], e) && plan == WithdrawalPlan(w, e)
    requires OutcomeOf(w.withdrawals[at], e) == Waits
    ensures plan == Ok(NOTHING.(withdrawal := Put.Put(at, WithdrawalAfter(w.withdrawals[at], e))))
  {
  }

  lemma FinishSettling(w: World, e: Event, at: nat, event: EventType, plan: Plan)
    requires (e.EvFinishSent? || e.EvFinishFailed? || e.EvReconcile?) && e.withdrawal == at < |w.withdrawals|
    requires Possible(w.withdrawals[at], e) && plan == WithdrawalPlan(w, e)
    requires OutcomeOf(w.withdrawals[at], e) != Waits
    requires event == if OutcomeOf(w.withdrawals[at], e) == ComesBack then WithdrawalAutoFailedRefund
                      else WithdrawalSent
    requires var x := w.withdrawals[at];
             x.status.Awaiting? && Unlock(Bal(w, WithdrawalKey(x)), x.amount) == -x.amount
    ensures var x := w.withdrawals[at];
            plan == Ok(NOTHING.(first := Posting(WithdrawalKey(x), AmountBack(x, e), -x.amount, event,
                                                 FromWithdrawal(at), None, !e.EvReconcile?),
                                withdrawal := Put.Put(at, WithdrawalAfter(x, e))))
  {
  }

  lemma ImpossibleFails(w: World, e: Event, plan: Plan)
    requires OnRow(e) && plan == WithdrawalPlan(w, e)
    requires e.withdrawal < |w.withdrawals| ==> !Possible(w.withdrawals[e.withdrawal], e)
    ensures plan.Err? || plan == Ok(NOTHING)
  {
  }

  /**
    The law of the table: what is possible happens to the letter, with the lock ending exactly
    when the withdrawal does; what is not changes nothing.
   */
  lemma {:induction false} WithdrawalsKeepToTheRules(w: World, e: Event)
    requires Valid(w) && OnRow(e)
    ensures if e.withdrawal < |w.withdrawals| && Possible(w.withdrawals[e.withdrawal], e)
            then TakesEffect(w, e.withdrawal, e, Step(w, e))
            else Step(w, e) == w
  {
    var at, plan := e.withdrawal, PlanOf(w, e);
    if at < |w.withdrawals| && Possible(w.withdrawals[at], e) {
      if e.EvAskProvider? || e.EvOutside? {
        AskTakesEffect(w, e, at, plan);
        QuietTakesEffect(w, at, e, Step(w, e));
      } else {
        if OutcomeOf(w.withdrawals[at], e) != Waits { LockIsThere(w, e, at); }
        FinishTakesEffect(w, e, at, plan);
      }
    } else {
      ImpossibleFails(w, e, plan);
      assert Apply(w, NOTHING) == w;
    }
  }

  // --------------------------------------------------------------- in every run

  /** What the request decides for good, and how the transfer stands in it. */
  ghost predicate FollowsRequest(w: World, e: Event, x: Withdrawal)
    requires e.EvRequestWithdrawal?
  {
    && Acceptable(w, e)
    && x.user == e.user && x.currency == e.currency && x.amount == e.amount && x.admins == e.admins
    && (x.call == NotSent <==> !Automatic(e))
    && (!Automatic(e) ==> x.worker == Gone)
  }

  lemma RowFollows(w: World, e: Event, x: Withdrawal, f: Event)
    requires e.EvRequestWithdrawal? && FollowsRequest(w, e, x) && OnRow(f) && Possible(x, f)
    ensures FollowsRequest(w, e, WithdrawalAfter(x, f))
  {
  }

  lemma OthersLeaveWithdrawals(w: World, e: Event, plan: Plan)
    requires !OnWithdrawal(e) && plan == PlanOf(w, e) && plan.Ok?
    ensures Apply(w, plan.value).withdrawals == w.withdrawals
  {
  }

  lemma StepFollows(w0: World, request: Event, w: World, e: Event, i: nat, after: World)
    requires Valid(w) && after == Step(w, e) && i < |w.withdrawals|
    requires request.EvRequestWithdrawal? && FollowsRequest(w0, request, w.withdrawals[i])
    ensures i < |after.withdrawals| && FollowsRequest(w0, request, after.withdrawals[i])
  {
    RowAfterStep(w, e, i, after);
    if after.withdrawals[i] != w.withdrawals[i] {
      RowFollows(w0, request, w.withdrawals[i], e);
    }
  }

  lemma RowAfterStep(w: World, e: Event, i: nat, after: World)
    requires Valid(w) && after == Step(w, e) && i < |w.withdrawals|
    ensures i < |after.withdrawals|
    ensures || after.withdrawals[i] == w.withdrawals[i]
            || (OnRow(e) && Possible(w.withdrawals[i], e)
                && after.withdrawals[i] == WithdrawalAfter(w.withdrawals[i], e))
  {
    if OnRow(e) {
      WithdrawalsKeepToTheRules(w, e);
    } else if e.EvRequestWithdrawal? {
      RequestIsAcceptedIff(w, e);
    } else if PlanOf(w, e).Ok? {
      OthersLeaveWithdrawals(w, e, PlanOf(w, e));
    }
  }

  lemma NewWithdrawal(w: World, e: Event, i: nat, after: World)
    requires Valid(w) && after == Step(w, e) && |w.withdrawals| <= i < |after.withdrawals|
    ensures i == |w.withdrawals| && e.EvRequestWithdrawal? && FollowsRequest(w, e, after.withdrawals[i])
  {
    if OnRow(e) {
      WithdrawalsKeepToTheRules(w, e);
    } else if e.EvRequestWithdrawal? {
      RequestIsAcceptedIff(w, e);
    } else if PlanOf(w, e).Ok? {
      OthersLeaveWithdrawals(w, e, PlanOf(w, e));
    }
  }

  /**
    In every run each stored withdrawal goes back to a request that was acceptable then. The
    transfer call is one that started with it exactly if automatic mode was configured and on;
    if not, no call is ever made and the money never leaves without an admin.
   */
  lemma {:induction false} TransfersStartByRight(w: World, events: seq<Event>, i: nat) returns (n: nat)
    requires Fresh(w) && Fair(w, events) && i < |Run(w, events).withdrawals|
    ensures n < |events| && events[n].EvRequestWithdrawal? && |Run(w, events[..n]).withdrawals| == i
    ensures FollowsRequest(Run(w, events[..n]), events[n], Run(w, events).withdrawals[i])
    ensures !Automatic(events[n]) ==> Run(w, events).withdrawals[i].status != Sent
  {
    var m := |events| - 1;
    var before, now := Run(w, events[..m]), Run(w, events);
    BooksAlwaysBalance(w, events[..m]);
    BooksAlwaysBalance(w, events);
    assert WithdrawalOk(now, now.withdrawals[i]);
    if i < |before.withdrawals| {
      n := TransfersStartByRight(w, events[..m], i);
      assert events[..m][..n] == events[..n];
      StepFollows(Run(w, events[..n]), events[n], before, events[m], i, now);
    } else {
      NewWithdrawal(before, events[m], i, now);
      n := m;
    }
  }
}
