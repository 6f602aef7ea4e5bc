/**
  Three withdrawals that went wrong. The first two break one timing assumption each, keep all
  others, and end with money paid out twice. The third is fair, and shows what the sweep
  leaves out of the ledger.
 */
module LostReplies {
  import opened Common
  import opened Sums
  import opened Tables
  import opened Services
  import opened Books
  import opened Safety
  import opened Ledger
  import opened OffGrid

  /** A transfer that errors after it has been shipped, with no admin to look at it. */
  const SHIPPED_AND_REFUNDED: seq<Event> := [
    STORY[0], STORY[1],
    EvRequestWithdrawal(1, 0, 20, true, true, false),
    EvOutside(0, Ship), EvOutside(0, ReplyError), EvFinishFailed(0)]

  /** A lost transfer that the sweep refunds while the request that made it still runs. */
  const REFUNDED_TWICE: seq<Event> := [
    STORY[0], STORY[1],
    EvRequestWithdrawal(1, 0, 20, true, true, false),
    EvOutside(0, Lose), EvOutside(0, GrowStale), EvAskProvider(0), EvReconcile(0, false),
    EvOutside(0, ReplyError), EvFinishFailed(0)]

  const REQUESTED := Withdrawal(1, 0, 20, Awaiting, NoNote, false, InFlight, Calling, false, false, false)

  ghost predicate Shows(w: World, balance: Balance, withdrawals: seq<Withdrawal>)
  {
    && w.currencies == START.currencies && w.users == START.users
    && Bal(w, Key(1, 0)).amount == balance.amount && Bal(w, Key(1, 0)).locked == balance.locked
    && w.withdrawals == withdrawals
  }

  lemma Requested(w: World)
    requires Shows(w, Balance(20, 0), [])
    ensures Shows(Step(w, EvRequestWithdrawal(1, 0, 20, true, true, false)), Balance(0, 20), [REQUESTED])
  {
  }

  /** A step of the outside world rewrites one row and moves nothing. */
  lemma Happened(w: World, o: Outside, b: Balance, x: Withdrawal, y: Withdrawal)
    requires Shows(w, b, [x]) && Happen(w, 0, o) == Rewrite(w, 0, y)
    ensures Shows(Step(w, EvOutside(0, o)), b, [y])
  {
  }

  lemma Asked(w: World, b: Balance, x: Withdrawal)
    requires Shows(w, b, [x]) && x.stale && x.status.Awaiting? && !x.call.Shipped?
    ensures Shows(Step(w, EvAskProvider(0)), b, [x.(heardNo := true)])
  {
  }

  lemma Swept(w: World, x: Withdrawal)
    requires Shows(w, Balance(0, 20), [x]) && x.heardNo && x.status.Awaiting? && x.amount == 20
    requires WithdrawalKey(x) == Key(1, 0)
    ensures Shows(Step(w, EvReconcile(0, false)), Balance(20, 0), [x.(status := Rejected, note := SweepRefunded)])
  {
  }

  /** What the failed request writes, whether or not the lock is still there. */
  function Refunding(b: Balance, x: Withdrawal): Effect
  {
    NOTHING.(first := Posting(Key(1, 0), 20, -b.locked, WithdrawalAutoFailedRefund, FromWithdrawal(0), None, true),
             withdrawal := Put.Put(0, x.(status := Rejected, note := AutoFailed, worker := Gone)))
  }

  lemma FailedPlan(w: World, b: Balance, x: Withdrawal)
    requires Shows(w, b, [x]) && x.worker.GotError? && !x.admins && x.amount == 20 && WithdrawalKey(x) == Key(1, 0)
    requires b.locked == 20 || b.locked == 0
    ensures FinishFailed(w, 0) == Ok(Refunding(b, x))
  {
  }

  lemma FailedStep(w: World, e: Effect)
    requires FinishFailed(w, 0) == Ok(e)
    ensures Step(w, EvFinishFailed(0)) == Apply(w, e)
  {
  }

  lemma RefundBalance(w: World, b: Balance, x: Withdrawal, after: World)
    requires Bal(w, Key(1, 0)).amount == b.amount && Bal(w, Key(1, 0)).locked == b.locked
    requires after == Apply(w, Refunding(b, x))
    ensures Bal(after, Key(1, 0)).amount == b.amount + 20 && Bal(after, Key(1, 0)).locked == 0
  {
    ApplyMovesBalance(w, Refunding(b, x), Key(1, 0));
  }

  lemma RefundRow(w: World, b: Balance, x: Withdrawal, after: World)
    requires w.withdrawals == [x] && after == Apply(w, Refunding(b, x))
    ensures after.withdrawals == [x.(status := Rejected, note := AutoFailed, worker := Gone)]
    ensures after.currencies == w.currencies && after.users == w.users
  {
  }

  lemma RefundShows(w: World, b: Balance, x: Withdrawal, after: World)
    requires Shows(w, b, [x]) && after == Apply(w, Refunding(b, x))
    ensures Shows(after, Balance(b.amount + 20, 0), [x.(status := Rejected, note := AutoFailed, worker := Gone)])
  {
    RefundBalance(w, b, x, after);
    RefundRow(w, b, x, after);
  }

  lemma FailedRefund(w: World, b: Balance, x: Withdrawal, after: World)
    requires Shows(w, b, [x]) && x.worker.GotError? && !x.admins && x.amount == 20 && WithdrawalKey(x) == Key(1, 0)
    requires b.locked == 20 || b.locked == 0
    requires after == Step(w, EvFinishFailed(0))
    ensures Shows(after, Balance(b.amount + 20, 0), [x.(status := Rejected, note := AutoFailed, worker := Gone)])
  {
    FailedPlan(w, b, x);
    FailedStep(w, Refunding(b, x));
    RefundShows(w, b, x, after);
  }

  lemma FirstDeposit(w: World)
    requires w == START
    ensures Looks(Step(w, STORY[0]), Balance(0, 0), [], [WALLET]) && Step(w, STORY[0]).withdrawals == []
  {
    DepositOpened(w);
  }

  lemma FirstPayment(w: World)
    requires Looks(w, Balance(0, 0), [], [WALLET]) && w.withdrawals == []
    ensures Shows(Step(w, STORY[1]), Balance(20, 0), [])
  {
    DepositPaid(w);
  }

  const SHIPPED := REQUESTED.(call := Shipped)
  const LOST := REQUESTED.(call := Lost)
  const SWEPT := LOST.(stale := true, heardNo := true, status := Rejected, note := SweepRefunded)

  /** The states that both stories go through first. */
  ghost predicate Opening(i: nat, w: World)
  {
    match i
    case 0 => w == START
    case 1 => Looks(w, Balance(0, 0), [], [WALLET]) && w.withdrawals == []
    case 2 => Shows(w, Balance(20, 0), [])
    case _ => Shows(w, Balance(0, 20), [REQUESTED])
  }

  lemma OpeningStep(i: nat, w: World, e: Event, next: World)
    requires i < 3 && Opening(i, w) && e == SHIPPED_AND_REFUNDED[i] && next == Step(w, e)
    ensures Opening(i + 1, next)
  {
    match i
    case 0 => FirstDeposit(w);
    case 1 => FirstPayment(w);
    case _ => Requested(w);
  }

  ghost predicate ShippedAt(i: nat, w: World)
  {
    if i <= 3 then Opening(i, w)
    else if i == 4 then Shows(w, Balance(0, 20), [SHIPPED])
    else if i == 5 then Shows(w, Balance(0, 20), [SHIPPED.(worker := GotError)])
    else Shows(w, Balance(20, 0), [SHIPPED.(status := Rejected, note := AutoFailed, worker := Gone)])
  }

  lemma ShippedStep(i: nat, w: World, e: Event, next: World)
    requires i < |SHIPPED_AND_REFUNDED| && ShippedAt(i, w) && e == SHIPPED_AND_REFUNDED[i] && next == Step(w, e)
    ensures ShippedAt(i + 1, next)
  {
    match i
    case 3 => Happened(w, Ship, Balance(0, 20), REQUESTED, SHIPPED);
    case 4 => Happened(w, ReplyError, Balance(0, 20), SHIPPED, SHIPPED.(worker := GotError));
    case 5 => FailedRefund(w, Balance(0, 20), SHIPPED.(worker := GotError), next);
    case _ => OpeningStep(i, w, e, next);
  }

  ghost predicate TwiceAt(i: nat, w: World)
  {
    if i <= 3 then Opening(i, w)
    else if i == 4 then Shows(w, Balance(0, 20), [LOST])
    else if i == 5 then Shows(w, Balance(0, 20), [LOST.(stale := true)])
    else if i == 6 then Shows(w, Balance(0, 20), [LOST.(stale := true, heardNo := true)])
    else if i == 7 then Shows(w, Balance(20, 0), [SWEPT])
    else if i == 8 then Shows(w, Balance(20, 0), [SWEPT.(worker := GotError)])
    else Bal(w, Key(1, 0)).amount == 40 && Bal(w, Key(1, 0)).locked == 0
  }

  lemma TwiceStep(i: nat, w: World, e: Event, next: World)
    requires i < |REFUNDED_TWICE| && TwiceAt(i, w) && e == REFUNDED_TWICE[i] && next == Step(w, e)
    ensures TwiceAt(i + 1, next)
  {
    match i
    case 3 => Happened(w, Lose, Balance(0, 20), REQUESTED, LOST);
    case 4 => Happened(w, GrowStale, Balance(0, 20), LOST, LOST.(stale := true));
    case 5 => Asked(w, Balance(0, 20), LOST.(stale := true));
    case 6 => Swept(w, LOST.(stale := true, heardNo := true));
    case 7 => Happened(w, ReplyError, Balance(20, 0), SWEPT, SWEPT.(worker := GotError));
    case 8 => FailedRefund(w, Balance(20, 0), SWEPT.(worker := GotError), next);
    case _ => OpeningStep(i, w, e, next);
  }

  /** The state of a run after one more event. */
  lemma After(story: seq<Event>, i: nat)
    requires 0 < i <= |story|
    ensures Run(START, story[..i]) == Step(Run(START, story[..i - 1]), story[i - 1])
  {
    assert story[..i][..i - 1] == story[..i - 1];
  }

  lemma {:induction false} ShippedStates(i: nat)
    requires i <= |SHIPPED_AND_REFUNDED|
    ensures ShippedAt(i, Run(START, SHIPPED_AND_REFUNDED[..i]))
  {
    var story := SHIPPED_AND_REFUNDED;
    if i == 0 {
      assert story[..0] == [];
    } else {
      ShippedStates(i - 1);
      After(story, i);
      ShippedStep(i - 1, Run(START, story[..i - 1]), story[i - 1], Run(START, story[..i]));
    }
  }

  lemma {:induction false} TwiceStates(i: nat)
    requires i <= |REFUNDED_TWICE|
    ensures TwiceAt(i, Run(START, REFUNDED_TWICE[..i]))
  {
    var story := REFUNDED_TWICE;
    if i == 0 {
      assert story[..0] == [];
    } else {
      TwiceStates(i - 1);
      After(story, i);
      TwiceStep(i - 1, Run(START, story[..i - 1]), story[i - 1], Run(START, story[..i]));
    }
  }

  /** The user has both the shipped 20 and the 20 on the balance. */
  lemma LostReplyPaysTwice(now: World)
    requires now == Run(START, SHIPPED_AND_REFUNDED)
    ensures |now.withdrawals| == 1 && now.withdrawals[0].status.Rejected? && now.withdrawals[0].call.Shipped?
    ensures Bal(now, Key(1, 0)).amount == 20 && Bal(now, Key(1, 0)).locked == 0
  {
    assert SHIPPED_AND_REFUNDED[..6] == SHIPPED_AND_REFUNDED;
    ShippedStates(6);
  }

  /** The user has 40 on the balance after a single deposit of 20. */
  lemma SlowRequestRefundsTwice(now: World)
    requires now == Run(START, REFUNDED_TWICE)
    ensures Bal(now, Key(1, 0)).amount == 40 && Bal(now, Key(1, 0)).locked == 0
  {
    assert REFUNDED_TWICE[..9] == REFUNDED_TWICE;
    TwiceStates(9);
  }

  // ------------------------------------------------------------- a fair sweep

  /** The request crashes after its transfer is lost, and the sweep gives the amount back. */
  const CRASHED_AND_SWEPT: seq<Event> := [
    STORY[0], STORY[1],
    EvRequestWithdrawal(1, 0, 20, true, true, false),
    EvOutside(0, Lose), EvOutside(0, Crash), EvOutside(0, GrowStale), EvAskProvider(0), EvReconcile(0, false)]

  const CRASHED := LOST.(worker := Gone)

  ghost predicate CrashedAt(i: nat, w: World)
  {
    if i <= 3 then Opening(i, w)
    else if i == 4 then Shows(w, Balance(0, 20), [LOST])
    else if i == 5 then Shows(w, Balance(0, 20), [CRASHED])
    else if i == 6 then Shows(w, Balance(0, 20), [CRASHED.(stale := true)])
    else if i == 7 then Shows(w, Balance(0, 20), [CRASHED.(stale := true, heardNo := true)])
    else Shows(w, Balance(20, 0), [CRASHED.(stale := true, heardNo := true, status := Rejected, note := SweepRefunded)])
  }

  lemma CrashedStep(i: nat, w: World, e: Event, next: World)
    requires i < |CRASHED_AND_SWEPT| && CrashedAt(i, w) && e == CRASHED_AND_SWEPT[i] && next == Step(w, e)
    ensures Assumed(w, e) && CrashedAt(i + 1, next)
  {
    match i
    case 3 => Happened(w, Lose, Balance(0, 20), REQUESTED, LOST);
    case 4 => Happened(w, Crash, Balance(0, 20), LOST, CRASHED);
    case 5 => Happened(w, GrowStale, Balance(0, 20), CRASHED, CRASHED.(stale := true));
    case 6 => Asked(w, Balance(0, 20), CRASHED.(stale := true));
    case 7 => Swept(w, CRASHED.(stale := true, heardNo := true));
    case _ => OpeningStep(i, w, e, next);
  }

  lemma FairlyAfter(story: seq<Event>, i: nat)
    requires 0 < i <= |story| && Fair(START, story[..i - 1])
    requires Assumed(Run(START, story[..i - 1]), story[i - 1])
    ensures Fair(START, story[..i])
  {
    assert story[..i][..i - 1] == story[..i - 1];
  }

  lemma {:induction false} CrashedStates(i: nat)
    requires i <= |CRASHED_AND_SWEPT|
    ensures CrashedAt(i, Run(START, CRASHED_AND_SWEPT[..i])) && Fair(START, CRASHED_AND_SWEPT[..i])
  {
    var story := CRASHED_AND_SWEPT;
    if i == 0 {
      assert story[..0] == [];
    } else {
      CrashedStates(i - 1);
      After(story, i);
      CrashedStep(i - 1, Run(START, story[..i - 1]), story[i - 1], Run(START, story[..i]));
      FairlyAfter(story, i);
    }
  }

  /** What the ledger shows of an account whose only withdrawal was refunded by the sweep. */
  lemma SweptReplay(now: World, x: Withdrawal)
    requires Shows(now, Balance(20, 0), [x]) && Explained(now, Key(1, 0))
    requires WithdrawalKey(x) == Key(1, 0) && x.amount == 20 && x.note.SweepRefunded?
    ensures Replay(now, Key(1, 0)) == Balance(0, 20)
  {
    assert Sum([x], SweptBack(Key(1, 0))) == 20 by { SumAppend([], x, SweptBack(Key(1, 0))); }
    assert Sum([x], SweptOff(Key(1, 0))) == 20 by { SumAppend([], x, SweptOff(Key(1, 0))); }
  }

  /** A fair run whose ledger still shows the 20 as locked, although they are back on the balance. */
  lemma SweepHidesRefund(now: World)
    requires now == Run(START, CRASHED_AND_SWEPT)
    ensures Fresh(START) && Fair(START, CRASHED_AND_SWEPT)
    ensures Bal(now, Key(1, 0)) == Balance(20, 0) && Replay(now, Key(1, 0)) == Balance(0, 20)
  {
    assert CRASHED_AND_SWEPT[..8] == CRASHED_AND_SWEPT;
    CrashedStates(8);
    LedgerTracksBalances(START, CRASHED_AND_SWEPT, Key(1, 0));
    SweptReplay(now, now.withdrawals[0]);
  }
}
