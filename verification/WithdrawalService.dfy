/** The phases of create_withdrawal and of the stale sweep, statement by statement, against their plans. */
module WithdrawalService {
  import opened Common
  import opened Money
  import opened Sums
  import opened Tables
  import opened Services
  import opened Database

  /** Phase 1: take the amount into `locked` and queue the withdrawal. */
  method RequestWithdrawal(db: Db, user: nat, currency: nat, amount: int, configured: bool, enabled: bool, admins: bool)
    returns (failure: Option<Error>)
    modifies db
    ensures Commits(old(db.State()),
                    Services.RequestWithdrawal(old(db.State()), user, currency, amount, configured, enabled, admins),
                    db.State(), failure)
  {
    if user !in db.users || currency !in db.currencies { return Some(NotFound); }
    if amount < db.currencies[currency].minWithdraw { return Some(BelowMinimum); }
    var automatic := configured && enabled;
    if !automatic && !admins { return Some(NoDeliveryPath); }
    var begun := db.State();
    var k := Key(user, currency);
    var b := db.LockUserBalance(k);
    if b.amount < amount {
      db.Rollback(begun);
      return Some(InsufficientFunds(amount, b.amount, amount - b.amount));
    }
    var id := |db.withdrawals|;
    var row := Withdrawal(user, currency, amount, Awaiting, NoNote, admins, NotSent, Gone, false, false, false);
    if automatic {
      row := row.(call := InFlight, worker := Calling);
    }
    db.withdrawals := db.withdrawals + [row];
    db.Store(k, b, Balance(b.amount - amount, b.locked + amount), WithdrawalLock, FromWithdrawal(id), None);
    ghost var p := Posting(k, -amount, amount, WithdrawalLock, FromWithdrawal(id), None, true);
    assert db.balances == PostBalance(begun.balances, p);
    AllWritten(begun, NOTHING.(first := p, withdrawal := Put(id, row)), db.State());
    failure := None;
  }

  /** Drop the amount from `locked`, clamping at zero; give it back to `amount` if it is refunded. */
  method Unlocked(db: Db, x: Withdrawal, refund: bool) returns (before: Balance, now: Balance)
    modifies db`balances
    ensures before == BalanceOf(old(db.balances), WithdrawalKey(x))
    ensures now.locked - before.locked == Unlock(before, x.amount)
    ensures now.amount - before.amount == if refund then x.amount else 0
    ensures db.balances == old(db.balances)[WithdrawalKey(x) := before]
  {
    before := db.LockUserBalance(WithdrawalKey(x));
    now := before.(locked := Max(0, before.locked - x.amount));
    if refund {
      now := now.(amount := now.amount + x.amount);
    }
  }

  /** The writes that settle withdrawal `at` with a ledger entry. */
  method SettleRecorded(db: Db, at: nat, x: Withdrawal, refund: bool, event: EventType)
    requires at < |db.withdrawals|
    modifies db
    ensures var w := old(db.State());
            var k, given := WithdrawalKey(x), if refund then x.amount else 0;
            db.State() == Apply(w, NOTHING.(
                                  first := Posting(k, given, Unlock(Bal(w, k), x.amount), event, FromWithdrawal(at),
                                                   None, true),
                                  withdrawal := Put(at, x)))
  {
    ghost var begun := db.State();
    var k := WithdrawalKey(x);
    var before, now := Unlocked(db, x, refund);
    db.Store(k, before, now, event, FromWithdrawal(at), None);
    db.withdrawals := db.withdrawals[at := x];
    ghost var given := if refund then x.amount else 0;
    ghost var p := Posting(k, given, Unlock(Bal(begun, k), x.amount), event, FromWithdrawal(at), None, true);
    assert db.balances == PostBalance(begun.balances, p);
    assert db.ledger == PostLedger(begun.balances, begun.ledger, p);
    AllWritten(begun, NOTHING.(first := p, withdrawal := Put(at, x)), db.State());
  }

  /** The same without one, as the sweep does it. */
  method SettleUnrecorded(db: Db, at: nat, x: Withdrawal, refund: bool, event: EventType)
    requires at < |db.withdrawals|
    modifies db
    ensures var w := old(db.State());
            var k, given := WithdrawalKey(x), if refund then x.amount else 0;
            db.State() == Apply(w, NOTHING.(
                                  first := Posting(k, given, Unlock(Bal(w, k), x.amount), event, FromWithdrawal(at),
                                                   None, false),
                                  withdrawal := Put(at, x)))
  {
    ghost var begun := db.State();
    var k := WithdrawalKey(x);
    var before, now := Unlocked(db, x, refund);
    db.balances := db.balances[k := now];
    db.withdrawals := db.withdrawals[at := x];
    ghost var given := if refund then x.amount else 0;
    ghost var p := Posting(k, given, Unlock(Bal(begun, k), x.amount), event, FromWithdrawal(at), None, false);
    assert now == Balance(before.amount + given, before.locked + p.locked);
    assert db.balances == PostBalance(begun.balances, p);
    AllWritten(begun, NOTHING.(first := p, withdrawal := Put(at, x)), db.State());
  }

  /** Phase 3 after a transfer call that succeeded. */
  method FinishSent(db: Db, at: nat) returns (failure: Option<Error>)
    modifies db
    ensures Commits(old(db.State()), Services.FinishSent(old(db.State()), at), db.State(), failure)
  {
    if at >= |db.withdrawals| || !db.withdrawals[at].worker.GotOk? { return Some(NotPossible); }
    var x := db.withdrawals[at].(worker := Gone);
    if !x.status.Awaiting? {
      db.withdrawals := db.withdrawals[at := x];
      return None;
    }
    SettleRecorded(db, at, x.(status := Sent, note := Transferred), false, WithdrawalSent);
    failure := None;
  }

  /** The branch after a transfer call that failed; it does not look at the status again. */
  method FinishFailed(db: Db, at: nat) returns (failure: Option<Error>)
    modifies db
    ensures Commits(old(db.State()), Services.FinishFailed(old(db.State()), at), db.State(), failure)
  {
    if at >= |db.withdrawals| || !db.withdrawals[at].worker.GotError? { return Some(NotPossible); }
    var x := db.withdrawals[at].(worker := Gone);
    if x.admins {
      db.withdrawals := db.withdrawals[at := x];
      return None;
    }
    SettleRecorded(db, at, x.(status := Rejected, note := AutoFailed), true, WithdrawalAutoFailedRefund);
    failure := None;
  }

  /** Phase B of the stale sweep for one row: does the provider know a completed transfer? */
  method AskProvider(db: Db, at: nat) returns (matched: bool, failure: Option<Error>)
    modifies db`withdrawals
    ensures Commits(old(db.State()), Services.AskProvider(old(db.State()), at), db.State(), failure)
    ensures at < |old(db.withdrawals)| ==> matched == old(db.withdrawals)[at].call.Shipped?
  {
    if at >= |db.withdrawals| { return false, Some(NotPossible); }
    var x := db.withdrawals[at];
    matched := x.call.Shipped?;
    if !x.stale || !x.status.Awaiting? { return matched, Some(NotPossible); }
    db.withdrawals := db.withdrawals[at := if matched then x.(heardYes := true) else x.(heardNo := true)];
    failure := None;
  }

  /** Phase C of the stale sweep for one row. */
  method Reconcile(db: Db, at: nat, matched: bool) returns (failure: Option<Error>)
    modifies db
    ensures Commits(old(db.State()), Services.Reconcile(old(db.State()), at, matched), db.State(), failure)
  {
    if at >= |db.withdrawals| { return Some(NotPossible); }
    var x := db.withdrawals[at];
    var heard := if matched then x.heardYes else x.heardNo;
    if !heard { return Some(NotPossible); }
    if !x.status.Awaiting? { return None; }
    if matched {
      SettleUnrecorded(db, at, x.(status := Sent, note := SweepSent), false, WithdrawalSent);
    } else {
      SettleUnrecorded(db, at, x.(status := Rejected, note := SweepRefunded), true, WithdrawalAutoFailedRefund);
    }
    failure := None;
  }
}
