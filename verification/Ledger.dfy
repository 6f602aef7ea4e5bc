/** What the append-only ledger says about the balances. */
module Ledger {
  import opened Common
  import opened Money
  import opened Sums
  import opened Tables
  import opened Services
  import opened Books
  import opened Safety

  predicate IsFor(e: Entry, k: Key)
  {
    e.key == k && !e.event.DepositTrustCredit?
  }

  function AmountMoved(k: Key): Entry -> int
  {
    (e: Entry) => if IsFor(e, k) then e.amountDelta else 0
  }

  function LockedMoved(k: Key): Entry -> int
  {
    (e: Entry) => if IsFor(e, k) then e.lockedDelta else 0
  }

  /** The balance of k according to the ledger alone, replayed from zero. */
  function Replay(w: World, k: Key): Balance
  {
    Balance(Sum(w.ledger, AmountMoved(k)), Sum(w.ledger, LockedMoved(k)))
  }

  /** What the stale sweep gave back to `amount`, and took off `locked`, without an entry. */
  function SweptBack(k: Key): Withdrawal -> int
  {
    (x: Withdrawal) => if WithdrawalKey(x) == k && x.note.SweepRefunded? then x.amount else 0
  }

  function SweptOff(k: Key): Withdrawal -> int
  {
    (x: Withdrawal) => if WithdrawalKey(x) == k && (x.note.SweepSent? || x.note.SweepRefunded?) then x.amount else 0
  }

  /** The exact distance between the ledger and the balance. */
  ghost predicate Explained(w: World, k: Key)
  {
    && Bal(w, k).amount == Replay(w, k).amount + Sum(w.withdrawals, SweptBack(k))
    && Bal(w, k).locked == Replay(w, k).locked - Sum(w.withdrawals, SweptOff(k))
  }

  /** The balance after the last entry for k. */
  function LastAfter(ledger: seq<Entry>, k: Key): Balance
  {
    if ledger == [] then Balance(0, 0) else
      var e := ledger[|ledger| - 1];
      if IsFor(e, k) then Balance(e.amountAfter, e.lockedAfter) else LastAfter(ledger[..|ledger| - 1], k)
  }

  /** Each entry for k starts where the one before it ended, and its deltas are the difference. */
  ghost predicate Chained(ledger: seq<Entry>, k: Key)
  {
    ledger == [] ||
    (var rest, e := ledger[..|ledger| - 1], ledger[|ledger| - 1];
     && Chained(rest, k)
     && (IsFor(e, k) ==>
           && Balance(e.amountBefore, e.lockedBefore) == LastAfter(rest, k)
           && e.amountDelta == e.amountAfter - e.amountBefore
           && e.lockedDelta == e.lockedAfter - e.lockedBefore))
  }

  ghost predicate NotSwept(w: World, k: Key)
  {
    forall i :: 0 <= i < |w.withdrawals| ==> SweptOff(k)(w.withdrawals[i]) == 0
  }

  ghost predicate Tracked(w: World, k: Key)
  {
    && Explained(w, k)
    && (NotSwept(w, k) ==> Chained(w.ledger, k) && LastAfter(w.ledger, k) == Bal(w, k))
  }

  // --------------------------------------------------------- what a call posts

  /** The sweep apart, no call marks a withdrawal as swept. */
  lemma OnlySweepSweeps(w: World, e: Event, k: Key)
    requires Valid(w) && PlanOf(w, e).Ok? && OnWithdrawal(e) && !e.EvReconcile?
    ensures Change(w.withdrawals, PlanOf(w, e).value.withdrawal, SweptBack(k)) == 0
    ensures Change(w.withdrawals, PlanOf(w, e).value.withdrawal, SweptOff(k)) == 0
  {
    if e.EvRequestWithdrawal? {
      RequestSweepsNothing(w, e, k, PlanOf(w, e));
    } else {
      KeptMarkSweepsNothing(w, e, k, PlanOf(w, e));
    }
  }

  lemma RequestSweepsNothing(w: World, e: Event, k: Key, plan: Plan)
    requires e.EvRequestWithdrawal? && plan == WithdrawalPlan(w, e) && plan.Ok?
    ensures Change(w.withdrawals, plan.value.withdrawal, SweptBack(k)) == 0
    ensures Change(w.withdrawals, plan.value.withdrawal, SweptOff(k)) == 0
  {
  }

  lemma KeptMarkSweepsNothing(w: World, e: Event, k: Key, plan: Plan)
    requires WithdrawalsOk(w) && OnWithdrawal(e) && !e.EvReconcile? && !e.EvRequestWithdrawal?
    requires plan == WithdrawalPlan(w, e) && plan.Ok?
    ensures Change(w.withdrawals, plan.value.withdrawal, SweptBack(k)) == 0
    ensures Change(w.withdrawals, plan.value.withdrawal, SweptOff(k)) == 0
  {
    assert WithdrawalOk(w, w.withdrawals[e.withdrawal]);
  }

  /** The postings at k that leave no entry are what the sweep adds to its own marks. */
  ghost predicate Accounted(w: World, e: Effect, k: Key)
  {
    var back := Change(w.withdrawals, e.withdrawal, SweptBack(k));
    var off := Change(w.withdrawals, e.withdrawal, SweptOff(k));
    && !(e.first.Posting? && e.first.event.DepositTrustCredit?)
    && !(e.second.Posting? && e.second.event.DepositTrustCredit?)
    && (e.second.Posting? ==> e.second.recorded)
    && (if e.first.Posting? && e.first.key == k && !e.first.recorded
        then back == e.first.amount && off == -e.first.locked
        else back == 0 && off == 0)
  }

  /** A sweep that settles withdrawal `at` posts what its mark adds up to. */
  lemma MarkAccounted(w: World, at: nat, e: Effect, k: Key)
    requires at < |w.withdrawals| && e == NOTHING.(first := e.first, withdrawal := e.withdrawal)
    requires e.withdrawal.Put? && e.withdrawal.at == at && w.withdrawals[at].note.NoNote?
    requires var x, y := w.withdrawals[at], e.withdrawal.row;
             && WithdrawalKey(x) == WithdrawalKey(y) && x.amount == y.amount
             && (y.note.SweepSent? || y.note.SweepRefunded?)
             && e.first.Posting? && e.first.key == WithdrawalKey(x) && !e.first.recorded
             && !e.first.event.DepositTrustCredit? && e.first.locked == -x.amount
             && e.first.amount == if y.note.SweepRefunded? then x.amount else 0
    ensures Accounted(w, e, k)
  {
  }

  lemma ReconcileAccounted(w: World, at: nat, matched: bool, k: Key, e: Effect)
    requires Valid(w) && Reconcile(w, at, matched) == Ok(e)
    ensures Accounted(w, e, k)
  {
    assert WithdrawalOk(w, w.withdrawals[at]);
    if w.withdrawals[at].status.Awaiting? {
      LockCoversWithdrawal(w, at);
      MarkAccounted(w, at, e, k);
    }
  }

  lemma LoggedAccounted(w: World, plan: Plan, k: Key)
    requires Logged(plan) && plan.Ok?
    requires Change(w.withdrawals, plan.value.withdrawal, SweptBack(k)) == 0
    requires Change(w.withdrawals, plan.value.withdrawal, SweptOff(k)) == 0
    ensures Accounted(w, plan.value, k)
  {
  }

  lemma EveryCallAccounted(w: World, e: Event, k: Key, plan: Plan)
    requires Valid(w) && plan == PlanOf(w, e) && plan.Ok?
    ensures Accounted(w, plan.value, k)
  {
    if e.EvReconcile? {
      ReconcileAccounted(w, e.withdrawal, e.matched, k, plan.value);
    } else {
      if OnWithdrawal(e) {
        OnlySweepSweeps(w, e, k);
      }
      LoggedAccounted(w, plan, k);
    }
  }

  // ------------------------------------------------------------ preservation

  lemma AccountedKeepsExplained(w: World, e: Effect, k: Key)
    requires Explained(w, k) && Accounted(w, e, k)
    ensures Explained(Apply(w, e), k)
  {
    ApplyMovesBalance(w, e, k);
    ApplyLedgerSum(w, e, AmountMoved(k));
    ApplyLedgerSum(w, e, LockedMoved(k));
    SumWritten(w.withdrawals, e.withdrawal, SweptBack(k));
    SumWritten(w.withdrawals, e.withdrawal, SweptOff(k));
  }

  lemma ChainAppend(ledger: seq<Entry>, e: Entry, k: Key)
    requires Chained(ledger, k)
    requires IsFor(e, k) ==>
               && Balance(e.amountBefore, e.lockedBefore) == LastAfter(ledger, k)
               && e.amountDelta == e.amountAfter - e.amountBefore && e.lockedDelta == e.lockedAfter - e.lockedBefore
    ensures Chained(ledger + [e], k)
    ensures LastAfter(ledger + [e], k) == if IsFor(e, k) then Balance(e.amountAfter, e.lockedAfter)
        else LastAfter(ledger, k)
  {
    assert (ledger + [e])[..|ledger|] == ledger;
  }

  lemma LeavingChains(before: Balance, ledger: seq<Entry>, p: Posting, k: Key)
    requires Chained(ledger, k) && Leaves(p) && !p.event.DepositTrustCredit?
    requires p.key == k ==> LastAfter(ledger, k) == before
    ensures Chained(ledger + [EntryFor(before, p)], k)
    ensures LastAfter(ledger + [EntryFor(before, p)], k)
         == if p.key == k then Balance(before.amount + p.amount, before.locked + p.locked) else LastAfter(ledger, k)
  {
    ChainAppend(ledger, EntryFor(before, p), k);
  }

  lemma PostingChains(balances: map<Key, Balance>, ledger: seq<Entry>, p: Posting, k: Key, after: seq<Entry>)
    requires Chained(ledger, k) && LastAfter(ledger, k) == BalanceOf(balances, k)
    requires p.Posting? ==> !p.event.DepositTrustCredit?
    requires p.Posting? && p.key == k ==> p.recorded || (p.amount == 0 && p.locked == 0)
    requires after == PostLedger(balances, ledger, p)
    ensures Chained(after, k) && LastAfter(after, k) == BalanceOf(PostBalance(balances, p), k)
  {
    if Leaves(p) {
      LeavingChains(BalanceOf(balances, p.key), ledger, p, k);
    }
  }

  lemma TrustChains(users: map<nat, User>, ledger: seq<Entry>, t: TrustCredit, k: Key)
    requires Chained(ledger, k)
    ensures Chained(TrustLedger(users, ledger, t), k)
    ensures LastAfter(TrustLedger(users, ledger, t), k) == LastAfter(ledger, k)
  {
    if t.TrustCredit? && t.user in users && t.amount != 0 {
      var before := users[t.user].trust;
      ChainAppend(ledger, Entry(Key(t.user, t.currency), DepositTrustCredit, FromDeposit(t.deposit), None,
                                before, t.amount, before + t.amount, 0, 0, 0), k);
    }
  }

  lemma AccountedKeepsChain(w: World, e: Effect, k: Key)
    requires Accounted(w, e, k) && NotSwept(Apply(w, e), k) && NotSwept(w, k)
    requires Chained(w.ledger, k) && LastAfter(w.ledger, k) == Bal(w, k)
    ensures Chained(Apply(w, e).ledger, k) && LastAfter(Apply(w, e).ledger, k) == Bal(Apply(w, e), k)
  {
    var after := Apply(w, e);
    if e.withdrawal.Put? {
      var at := if e.withdrawal.at < |w.withdrawals| then e.withdrawal.at else |w.withdrawals|;
      assert after.withdrawals[at] == e.withdrawal.row;
      assert SweptOff(k)(after.withdrawals[at]) == 0;
    }
    var balances, ledger := PostBalance(w.balances, e.first), PostLedger(w.balances, w.ledger, e.first);
    PostingChains(w.balances, w.ledger, e.first, k, ledger);
    PostingChains(balances, ledger, e.second, k, PostLedger(balances, ledger, e.second));
    TrustChains(w.users, PostLedger(balances, ledger, e.second), e.trust, k);
  }

  lemma SweptStaysSwept(w: World, e: Effect, k: Key)
    requires WithdrawalsOk(w) && RowsFit(w, e) && NotSwept(Apply(w, e), k)
    requires e.withdrawal.Put? && e.withdrawal.at < |w.withdrawals| ==>
               SweptOff(k)(w.withdrawals[e.withdrawal.at]) == 0 || SweptOff(k)(e.withdrawal.row) != 0
    ensures NotSwept(w, k)
  {
    forall i | 0 <= i < |w.withdrawals| ensures SweptOff(k)(w.withdrawals[i]) == 0 {
      assert SweptOff(k)(Apply(w, e).withdrawals[i]) == 0;
    }
  }

  lemma StepKeepsTracked(w: World, e: Event, k: Key)
    requires Valid(w) && Assumed(w, e) && Tracked(w, k)
    ensures Tracked(Step(w, e), k)
  {
    var plan := PlanOf(w, e);
    if plan.Ok? {
      EveryCallAccounted(w, e, k, plan);
      EveryCallHonest(w, e);
      AccountedKeepsExplained(w, plan.value, k);
      if NotSwept(Step(w, e), k) {
        SweptStaysSwept(w, plan.value, k) by {
          SettledForGood(w, e, plan);
        }
        AccountedKeepsChain(w, plan.value, k);
      }
    }
  }

  /** A settled withdrawal keeps its owner, amount, status and note. */
  lemma SettledForGood(w: World, e: Event, plan: Plan)
    requires Valid(w) && plan == PlanOf(w, e) && plan.Ok?
    ensures plan.value.withdrawal.Put? && plan.value.withdrawal.at < |w.withdrawals| ==>
              var x, y := w.withdrawals[plan.value.withdrawal.at], plan.value.withdrawal.row;
              && x.user == y.user && x.currency == y.currency && x.amount == y.amount
              && (!x.status.Awaiting? ==> x.status == y.status && x.note == y.note)
  {
    if OnWithdrawal(e) && !e.EvRequestWithdrawal? {
      assert WithdrawalOk(w, w.withdrawals[e.withdrawal]);
    }
  }

  /** In every reachable state the ledger explains every balance exactly. */
  lemma {:induction false} LedgerTracksBalances(w: World, events: seq<Event>, k: Key)
    requires Fresh(w) && Fair(w, events)
    ensures Tracked(Run(w, events), k)
  {
    if events != [] {
      var n := |events| - 1;
      LedgerTracksBalances(w, events[..n], k);
      BooksAlwaysBalance(w, events[..n]);
      StepKeepsTracked(Run(w, events[..n]), events[n], k);
    }
  }

  /** Replaying the ledger gives the balance exactly when the stale sweep has settled nothing on it. */
  lemma {:induction false} ReplayIffNotSwept(w: World, events: seq<Event>, k: Key)
    requires Fresh(w) && Fair(w, events)
    ensures Replay(Run(w, events), k) == Bal(Run(w, events), k) <==> NotSwept(Run(w, events), k)
  {
    var now := Run(w, events);
    LedgerTracksBalances(w, events, k);
    BooksAlwaysBalance(w, events);
    assert WithdrawalsOk(now);
    if NotSwept(now, k) {
      SumZero(now.withdrawals, SweptOff(k));
      SumZero(now.withdrawals, SweptBack(k));
    } else {
      var i :| 0 <= i < |now.withdrawals| && SweptOff(k)(now.withdrawals[i]) != 0;
      SumAtLeast(now.withdrawals, i, SweptOff(k));
    }
  }
}
