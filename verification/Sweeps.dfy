/**
  The periodic sweeps as loops over the rows their query selected. Each loop is the run of
  its rows' events, so all that is proved about runs holds across it.
 */
module Sweeps {
  import opened Common
  import opened Money
  import opened Sums
  import opened Tables
  import opened Services
  import opened Books
  import opened Safety
  import opened Database
  import DealService
  import WalletService
  import WithdrawalService

  /** One event per selected row, in order. */
  function ForEach(rows: seq<nat>, f: nat -> Event): seq<Event>
  {
    if rows == [] then [] else ForEach(rows[..|rows| - 1], f) + [f(rows[|rows| - 1])]
  }

  function ExpiryOf(): nat -> Event { (at: nat) => EvExpireDeposit(at) }
  function ClosingOf(): nat -> Event { (deal: nat) => EvExpirePendingTopup(deal) }
  function RefundOf(): nat -> Event { (deal: nat) => EvRefundInactive(deal) }

  /** A query returns no row twice. */
  ghost predicate Distinct(rows: seq<nat>)
  {
    forall i, j :: 0 <= i < j < |rows| ==> rows[i] != rows[j]
  }

  lemma OneMore(w: World, rows: seq<nat>, i: nat, f: nat -> Event)
    requires i < |rows|
    ensures Run(w, ForEach(rows[..i + 1], f)) == Step(Run(w, ForEach(rows[..i], f)), f(rows[i]))
  {
    assert rows[..i + 1][..i] == rows[..i];
    var events := ForEach(rows[..i + 1], f);
    assert events[..|events| - 1] == ForEach(rows[..i], f);
  }

  // ---------------------------------------------------------------- deposits

  function ExpireRows(deposits: seq<Deposit>, rows: seq<nat>): (after: seq<Deposit>)
    requires forall i :: 0 <= i < |rows| ==> rows[i] < |deposits|
    ensures |after| == |deposits|
    ensures forall k :: 0 <= k < |deposits| ==>
                          after[k] == if k in rows then deposits[k].(status := Expired) else deposits[k]
  {
    if rows == [] then deposits else
      var n := |rows| - 1;
      var earlier := ExpireRows(deposits, rows[..n]);
      assert rows == rows[..n] + [rows[n]];
      earlier[rows[n] := earlier[rows[n]].(status := Expired)]
  }

  /** sweep_expired_deposits on the pending rows that are old enough. */
  method SweepExpiredDeposits(db: Db, rows: seq<nat>) returns (count: nat)
    requires Distinct(rows)
    requires forall i :: 0 <= i < |rows| ==> rows[i] < |db.deposits| && db.deposits[rows[i]].status.Pending?
    modifies db`deposits
    ensures count == |rows| && db.deposits == ExpireRows(old(db.deposits), rows)
  {
    var i := 0;
    while i < |rows|
      invariant 0 <= i <= |rows|
      invariant db.deposits == ExpireRows(old(db.deposits), rows[..i])
    {
      assert rows[..i + 1][..i] == rows[..i];
      db.deposits := db.deposits[rows[i] := db.deposits[rows[i]].(status := Expired)];
      i := i + 1;
    }
    assert rows[..i] == rows;
    count := |rows|;
  }

  lemma ExpiredByStep(w: World, at: nat, after: World)
    requires at < |w.deposits| && w.deposits[at].status.Pending?
    requires after == w.(deposits := w.deposits[at := w.deposits[at].(status := Expired)])
    ensures after == Step(w, EvExpireDeposit(at))
  {
    CommitIsStep(w, EvExpireDeposit(at), ExpireDeposit(w, at), after, None);
  }

  /** The sweep is the run of one expiry per row. */
  lemma {:induction false} ExpirySweepIsRun(w: World, rows: seq<nat>)
    requires Distinct(rows)
    requires forall i :: 0 <= i < |rows| ==> rows[i] < |w.deposits| && w.deposits[rows[i]].status.Pending?
    ensures w.(deposits := ExpireRows(w.deposits, rows)) == Run(w, ForEach(rows, ExpiryOf()))
  {
    if rows != [] {
      var n := |rows| - 1;
      ExpirySweepIsRun(w, rows[..n]);
      assert rows[..n + 1] == rows;
      OneMore(w, rows, n, ExpiryOf());
      var before := w.(deposits := ExpireRows(w.deposits, rows[..n]));
      ExpiredByStep(before, rows[n], w.(deposits := ExpireRows(w.deposits, rows)));
    }
  }

  // ------------------------------------------------------------ stale top-ups

  /** One row of sweep_pending_topup. */
  function CloseOne(w: World, deal: nat): World
    requires deal < |w.deals|
  {
    w.(deposits := Written(w.deposits, ExpireLinked(w, w.deals[deal])),
       deals := w.deals[deal := w.deals[deal].(status := CancelledForInactivity)])
  }

  function CloseRows(w: World, rows: seq<nat>): (after: World)
    requires forall i :: 0 <= i < |rows| ==> rows[i] < |w.deals|
    ensures |after.deals| == |w.deals|
    ensures forall k :: 0 <= k < |w.deals| ==>
                          after.deals[k] == if k in rows then w.deals[k].(status := CancelledForInactivity)
                              else w.deals[k]
  {
    if rows == [] then w else
      var n := |rows| - 1;
      assert rows == rows[..n] + [rows[n]];
      CloseOne(CloseRows(w, rows[..n]), rows[n])
  }

  /** sweep_pending_topup on the waiting deals that are old enough. */
  method SweepPendingTopup(db: Db, rows: seq<nat>) returns (count: nat)
    requires Distinct(rows)
    requires forall i :: 0 <= i < |rows| ==> rows[i] < |db.deals| && db.deals[rows[i]].status.PendingTopup?
    modifies db
    ensures count == |rows| && db.State() == CloseRows(old(db.State()), rows)
  {
    var i := 0;
    while i < |rows|
      invariant 0 <= i <= |rows|
      invariant db.State() == CloseRows(old(db.State()), rows[..i])
    {
      assert rows[..i + 1][..i] == rows[..i];
      DealService.CloseTopup(db, rows[i], CancelledForInactivity);
      i := i + 1;
    }
    assert rows[..i] == rows;
    count := |rows|;
  }

  lemma ClosedByStep(w: World, deal: nat)
    requires deal < |w.deals| && w.deals[deal].status.PendingTopup?
    ensures CloseOne(w, deal) == Step(w, EvExpirePendingTopup(deal))
  {
    CommitIsStep(w, EvExpirePendingTopup(deal), ExpirePendingTopup(w, deal), CloseOne(w, deal), None);
  }

  lemma {:induction false} TopupSweepIsRun(w: World, rows: seq<nat>)
    requires Distinct(rows)
    requires forall i :: 0 <= i < |rows| ==> rows[i] < |w.deals| && w.deals[rows[i]].status.PendingTopup?
    ensures CloseRows(w, rows) == Run(w, ForEach(rows, ClosingOf()))
  {
    if rows != [] {
      var n := |rows| - 1;
      TopupSweepIsRun(w, rows[..n]);
      assert rows[..n + 1] == rows;
      OneMore(w, rows, n, ClosingOf());
      ClosedByStep(CloseRows(w, rows[..n]), rows[n]);
    }
  }

  // --------------------------------------------------------------- inactivity

  predicate Inactive(s: DealStatus)
  {
    s.PendingConfirmation? || s.PendingCancellation?
  }

  function ClosedAs(s: DealStatus): DealStatus
  {
    if s.PendingConfirmation? then CancelledForInactivity else Cancelled
  }

  /** One row of sweep_inactivity; a row whose currency is gone is skipped. */
  function RefundOne(w: World, deal: nat): (after: World)
    requires deal < |w.deals| && Inactive(w.deals[deal].status)
  {
    var plan := Refund(w, deal, ClosedAs(w.deals[deal].status), NoBump);
    if plan.Ok? then Apply(w, plan.value) else w
  }

  lemma EffectOnDeal(w: World, e: Effect, deal: nat, after: World)
    requires e.deal.Put? && e.deal.at == deal < |w.deals| && after == Apply(w, e)
    ensures OnlyDeal(w, deal, after)
  {
  }

  lemma RefundOneTouchesOne(w: World, deal: nat, plan: Plan, after: World)
    requires deal < |w.deals| && Inactive(w.deals[deal].status)
    requires plan == Refund(w, deal, ClosedAs(w.deals[deal].status), NoBump)
    requires after == (if plan.Ok? then Apply(w, plan.value) else w)
    ensures OnlyDeal(w, deal, after)
  {
    if plan.Ok? {
      EffectOnDeal(w, plan.value, deal, after);
    }
  }

  ghost predicate OnlyDeal(w: World, deal: nat, after: World)
  {
    && |after.deals| == |w.deals|
    && forall k :: 0 <= k < |w.deals| && k != deal ==> after.deals[k] == w.deals[k]
  }

  /** The row query of sweep_inactivity returns each deal once, in one of its two statuses. */
  ghost predicate Selected(deals: seq<Deal>, rows: seq<nat>)
  {
    Distinct(rows) && forall i :: 0 <= i < |rows| ==> rows[i] < |deals| && Inactive(deals[rows[i]].status)
  }

  /** Only the rows in `rows` may have changed. */
  ghost predicate OnlyRows<T>(table: seq<T>, rows: seq<nat>, after: seq<T>)
  {
    |after| == |table| && forall k :: 0 <= k < |table| && k !in rows ==> after[k] == table[k]
  }

  /** The last row is still as it was selected when the rows before it have been dealt with. */
  lemma LastUntouched<T>(table: seq<T>, rows: seq<nat>, before: seq<T>)
    requires rows != [] && Distinct(rows) && rows[|rows| - 1] < |table| && OnlyRows(table, rows[..|rows| - 1], before)
    ensures var last := rows[|rows| - 1]; last < |before| && before[last] == table[last]
  {
    assert rows[|rows| - 1] !in rows[..|rows| - 1];
  }

  lemma EarlierSelected(deals: seq<Deal>, rows: seq<nat>)
    requires rows != [] && Selected(deals, rows)
    ensures Selected(deals, rows[..|rows| - 1])
  {
  }

  lemma OneMoreRow<T>(table: seq<T>, rows: seq<nat>, before: seq<T>, after: seq<T>)
    requires rows != [] && OnlyRows(table, rows[..|rows| - 1], before)
    requires |after| == |before| && forall k :: 0 <= k < |before| && k != rows[|rows| - 1] ==> after[k] == before[k]
    ensures OnlyRows(table, rows, after)
  {
    assert rows == rows[..|rows| - 1] + [rows[|rows| - 1]];
  }

  function RefundRows(w: World, rows: seq<nat>): (after: World)
    requires Selected(w.deals, rows)
    ensures OnlyRows(w.deals, rows, after.deals)
  {
    if rows == [] then w else
      var n := |rows| - 1;
      EarlierSelected(w.deals, rows);
      var earlier := RefundRows(w, rows[..n]);
      LastUntouched(w.deals, rows, earlier.deals);
      var after := RefundOne(earlier, rows[n]);
      RefundOneTouchesOne(earlier, rows[n], Refund(earlier, rows[n], ClosedAs(earlier.deals[rows[n]].status), NoBump),
                          after);
      OneMoreRow(w.deals, rows, earlier.deals, after.deals);
      after
  }

  /** How many of the selected deals still have their currency. */
  function Priced(w: World, rows: seq<nat>): (count: nat)
    requires forall i :: 0 <= i < |rows| ==> rows[i] < |w.deals|
  {
    if rows == [] then 0 else
      var n := |rows| - 1;
      Priced(w, rows[..n]) + if w.deals[rows[n]].currency in w.currencies then 1 else 0
  }

  lemma RefundNeedsCurrency(w: World, deal: nat, closed: DealStatus, plan: Plan)
    requires deal < |w.deals| && Activated(w.deals[deal].status) && !closed.PendingTopup?
    requires plan == Refund(w, deal, closed, NoBump)
    ensures plan.Ok? <==> w.deals[deal].currency in w.currencies
  {
  }

  /** One pass of the loop; `done` is false for a row that is skipped. */
  method CloseInactive(db: Db, deal: nat) returns (done: bool)
    requires deal < |db.deals| && Inactive(db.deals[deal].status)
    modifies db
    ensures db.State() == RefundOne(old(db.State()), deal) && db.currencies == old(db.currencies)
    ensures done <==> old(db.deals)[deal].currency in old(db.currencies)
  {
    var s := db.deals[deal].status;
    var closed := if s.PendingConfirmation? then CancelledForInactivity else Cancelled;
    RefundNeedsCurrency(db.State(), deal, closed, Services.Refund(db.State(), deal, closed, NoBump));
    var failure := DealService.Refund(db, deal, closed, NoBump);
    done := failure.None?;
  }

  /** sweep_inactivity on the rows that are old enough. */
  method SweepInactivity(db: Db, rows: seq<nat>) returns (affected: nat)
    requires Selected(db.deals, rows)
    modifies db
    ensures db.State() == RefundRows(old(db.State()), rows)
    ensures affected == Priced(old(db.State()), rows)
  {
    ghost var begun := db.State();
    var i := 0;
    affected := 0;
    while i < |rows|
      invariant 0 <= i <= |rows| && affected == Priced(begun, rows[..i])
      invariant db.State() == RefundRows(begun, rows[..i]) && db.currencies == begun.currencies
    {
      assert rows[..i + 1][..i] == rows[..i];
      assert rows[i] !in rows[..i];
      var done := CloseInactive(db, rows[i]);
      if done {
        affected := affected + 1;
      }
      i := i + 1;
    }
    assert rows[..i] == rows;
  }

  lemma RefundedByStep(w: World, deal: nat)
    requires deal < |w.deals| && Inactive(w.deals[deal].status)
    ensures RefundOne(w, deal) == Step(w, EvRefundInactive(deal))
  {
  }

  lemma {:induction false} InactivitySweepIsRun(w: World, rows: seq<nat>)
    requires Selected(w.deals, rows)
    ensures RefundRows(w, rows) == Run(w, ForEach(rows, RefundOf()))
  {
    if rows != [] {
      var n := |rows| - 1;
      InactivitySweepIsRun(w, rows[..n]);
      assert rows[..n + 1] == rows;
      assert rows[n] !in rows[..n];
      OneMore(w, rows, n, RefundOf());
      RefundedByStep(RefundRows(w, rows[..n]), rows[n]);
    }
  }

  /** The principals that the selected rows hold on account k. */
  function Held(w: World, rows: seq<nat>, k: Key): int
    requires forall i :: 0 <= i < |rows| ==> rows[i] < |w.deals|
  {
    if rows == [] then 0 else
      var n := |rows| - 1;
      Held(w, rows[..n], k) + if BuyerKey(w.deals[rows[n]]) == k then w.deals[rows[n]].amount else 0
  }

  lemma RefundPlanMoves(w: World, deal: nat, k: Key, plan: Plan)
    requires Valid(w) && deal < |w.deals| && Inactive(w.deals[deal].status)
    requires plan == Refund(w, deal, ClosedAs(w.deals[deal].status), NoBump)
    ensures plan.Ok? && plan.value.second.NoPosting?
    ensures var d := w.deals[deal];
            var given := if BuyerKey(d) == k then d.amount else 0;
            AmountAt(plan.value.first, k) == given && LockedAt(plan.value.first, k) == -given
  {
    StoredOnGrid(w, deal);
    LockCoversDeal(w, deal);
  }

  lemma RefundOneExact(w: World, deal: nat, k: Key, after: World)
    requires Valid(w) && deal < |w.deals| && Inactive(w.deals[deal].status) && after == RefundOne(w, deal)
    ensures Valid(after)
    ensures var d := w.deals[deal];
            var given := if BuyerKey(d) == k then d.amount else 0;
            Bal(after, k).amount == Bal(w, k).amount + given && Bal(after, k).locked == Bal(w, k).locked - given
  {
    var plan := Refund(w, deal, ClosedAs(w.deals[deal].status), NoBump);
    RefundedByStep(w, deal);
    StepKeepsValid(w, EvRefundInactive(deal));
    RefundPlanMoves(w, deal, k, plan);
    ApplyMovesBalance(w, plan.value, k);
  }

  /** No clamp bites inside the loop: each account gets back exactly what the selected deals held. */
  lemma {:induction false} InactivitySweepRefundsExactly(w: World, rows: seq<nat>, k: Key, after: World)
    requires Valid(w) && Selected(w.deals, rows)
    requires after == RefundRows(w, rows)
    ensures Valid(after)
    ensures Bal(after, k).amount == Bal(w, k).amount + Held(w, rows, k)
    ensures Bal(after, k).locked == Bal(w, k).locked - Held(w, rows, k)
  {
    if rows != [] {
      var n := |rows| - 1;
      EarlierSelected(w.deals, rows);
      var before := RefundRows(w, rows[..n]);
      InactivitySweepRefundsExactly(w, rows[..n], k, before);
      LastUntouched(w.deals, rows, before.deals);
      assert after == RefundOne(before, rows[n]);
      RefundOneExact(before, rows[n], k, after);
    }
  }

  // --------------------------------------------------------- stale withdrawals

  /** Phase A: the waiting rows that are old enough. */
  function Candidates(rows: seq<Withdrawal>): (chosen: seq<nat>)
    ensures StaleRows(rows, chosen)
    ensures forall i: nat :: i < |rows| && rows[i].stale && rows[i].status.Awaiting? ==> i in chosen
  {
    if rows == [] then [] else
      var n := |rows| - 1;
      var earlier := Candidates(rows[..n]);
      assert forall k :: 0 <= k < |earlier| ==> earlier[k] < n && rows[..n][earlier[k]] == rows[earlier[k]];
      assert forall i: nat :: i < n ==> rows[..n][i] == rows[i];
      if rows[n].stale && rows[n].status.Awaiting? then earlier + [n] else earlier
  }

  /** Each is listed once, and is a waiting row that is old enough. */
  ghost predicate StaleRows(rows: seq<Withdrawal>, chosen: seq<nat>)
  {
    && Distinct(chosen)
    && forall k :: 0 <= k < |chosen| ==>
                     chosen[k] < |rows| && rows[chosen[k]].stale && rows[chosen[k]].status.Awaiting?
  }

  /** The events of one sweep; `reached` holds the rows on which the provider's API answers. */
  function Reconciliations(rows: seq<Withdrawal>, chosen: seq<nat>, reached: set<nat>): seq<Event>
    requires forall k :: 0 <= k < |chosen| ==> chosen[k] < |rows|
  {
    if chosen == [] then [] else
      var n := |chosen| - 1;
      Reconciliations(rows, chosen[..n], reached)
      + if chosen[n] in reached then [EvAskProvider(chosen[n]), EvReconcile(chosen[n], rows[chosen[n]].call.Shipped?)]
          else []
  }

  function Reached(chosen: seq<nat>, reached: set<nat>): (count: nat)
  {
    if chosen == [] then 0 else
      var n := |chosen| - 1;
      Reached(chosen[..n], reached) + if chosen[n] in reached then 1 else 0
  }

  /** A row as the sweep leaves it: sent if the transfer had shipped, otherwise rejected. */
  function Reconciled(x: Withdrawal): Withdrawal
  {
    if x.call.Shipped? then x.(heardYes := true, status := Sent, note := SweepSent)
    else x.(heardNo := true, status := Rejected, note := SweepRefunded)
  }

  lemma RunTwoMore(w: World, events: seq<Event>, e: Event, f: Event)
    ensures Run(w, events + [e, f]) == Step(Step(Run(w, events), e), f)
  {
    assert (events + [e, f])[..|events| + 1] == events + [e];
    assert (events + [e])[..|events|] == events;
  }

  lemma AskedRow(w: World, at: nat, asked: World)
    requires at < |w.withdrawals| && w.withdrawals[at].stale && w.withdrawals[at].status.Awaiting?
    requires asked == Step(w, EvAskProvider(at))
    ensures var x := w.withdrawals[at];
            asked.withdrawals == w.withdrawals[at := if x.call.Shipped? then x.(heardYes := true)
                                               else x.(heardNo := true)]
  {
  }

  lemma AnsweredRow(w: World, at: nat, matched: bool, after: World)
    requires at < |w.withdrawals| && w.withdrawals[at].status.Awaiting?
    requires if matched then w.withdrawals[at].heardYes else w.withdrawals[at].heardNo
    requires after == Step(w, EvReconcile(at, matched))
    ensures var x := w.withdrawals[at];
            after.withdrawals == w.withdrawals[at := if matched then x.(status := Sent, note := SweepSent)
                                                     else x.(status := Rejected, note := SweepRefunded)]
  {
  }

  /** Phases B and C for one candidate. */
  method ReconcileOne(db: Db, at: nat)
    requires at < |db.withdrawals| && db.withdrawals[at].stale && db.withdrawals[at].status.Awaiting?
    modifies db
    ensures var w := old(db.State());
            db.State() == Step(Step(w, EvAskProvider(at)), EvReconcile(at, w.withdrawals[at].call.Shipped?))
    ensures db.withdrawals == old(db.withdrawals)[at := Reconciled(old(db.withdrawals)[at])]
  {
    ghost var begun := db.State();
    var matched, failure := WithdrawalService.AskProvider(db, at);
    ghost var asked := db.State();
    CommitIsStep(begun, EvAskProvider(at), Services.AskProvider(begun, at), asked, failure);
    AskedRow(begun, at, asked);
    failure := WithdrawalService.Reconcile(db, at, matched);
    CommitIsStep(asked, EvReconcile(at, matched), Services.Reconcile(asked, at, matched), db.State(), failure);
    AnsweredRow(asked, at, matched, db.State());
  }

  method SelectStale(db: Db) returns (chosen: seq<nat>)
    ensures chosen == Candidates(db.withdrawals)
  {
    chosen := [];
    for i := 0 to |db.withdrawals|
      invariant chosen == Candidates(db.withdrawals[..i])
    {
      assert db.withdrawals[..i + 1][..i] == db.withdrawals[..i];
      if db.withdrawals[i].stale && db.withdrawals[i].status.Awaiting? {
        chosen := chosen + [i];
      }
    }
    assert db.withdrawals[..|db.withdrawals|] == db.withdrawals;
  }

  /** The rows after the sweep has been through the chosen ones. */
  ghost predicate AllReconciled(rows: seq<Withdrawal>, chosen: seq<nat>, reached: set<nat>, after: seq<Withdrawal>)
  {
    && |after| == |rows|
    && forall i: nat :: i < |rows| ==> after[i] == if i in chosen && i in reached then Reconciled(rows[i]) else rows[i]
  }

  /** The state of the sweep after the chosen rows: what it has done, and what it will return. */
  ghost predicate SweptTo(begun: World, chosen: seq<nat>, reached: set<nat>, now: World, count: nat)
  {
    && StaleRows(begun.withdrawals, chosen)
    && now == Run(begun, Reconciliations(begun.withdrawals, chosen, reached))
    && AllReconciled(begun.withdrawals, chosen, reached, now.withdrawals)
    && count == Reached(chosen, reached)
  }

  /** The next row is still as it was selected. */
  lemma TurnComes(begun: World, chosen: seq<nat>, i: nat, reached: set<nat>, now: World, count: nat)
    requires i < |chosen| && StaleRows(begun.withdrawals, chosen) && SweptTo(begun, chosen[..i], reached, now, count)
    ensures chosen[i] < |now.withdrawals| && now.withdrawals[chosen[i]] == begun.withdrawals[chosen[i]]
  {
    assert chosen[i] !in chosen[..i];
  }

  /** What one pass of the loop makes of the state. */
  ghost predicate Passed(before: World, at: nat, reached: set<nat>, after: World)
    requires at < |before.withdrawals|
  {
    if at in reached then
      && after == Step(Step(before, EvAskProvider(at)), EvReconcile(at, before.withdrawals[at].call.Shipped?))
      && after.withdrawals == before.withdrawals[at := Reconciled(before.withdrawals[at])]
    else after == before
  }

  lemma OneMoreEvent(rows: seq<Withdrawal>, chosen: seq<nat>, i: nat, reached: set<nat>, e: Event, f: Event)
    requires i < |chosen| && StaleRows(rows, chosen)
    requires e == EvAskProvider(chosen[i]) && f == EvReconcile(chosen[i], rows[chosen[i]].call.Shipped?)
    ensures Reconciliations(rows, chosen[..i + 1], reached)
         == Reconciliations(rows, chosen[..i], reached) + if chosen[i] in reached then [e, f] else []
  {
    assert chosen[..i + 1][..i] == chosen[..i];
  }

  /** Two more events, or none. */
  lemma RunGrows(begun: World, events: seq<Event>, both: bool, e: Event, f: Event, before: World, after: World)
    requires before == Run(begun, events) && after == if both then Step(Step(before, e), f) else before
    ensures after == Run(begun, events + if both then [e, f] else [])
  {
    if both {
      RunTwoMore(begun, events, e, f);
    } else {
      assert events + [] == events;
    }
  }

  lemma OneMoreReconciled(rows: seq<Withdrawal>, chosen: seq<nat>, i: nat, reached: set<nat>, before: seq<Withdrawal>,
                          after: seq<Withdrawal>)
    requires i < |chosen| && StaleRows(rows, chosen) && AllReconciled(rows, chosen[..i], reached, before)
    requires after == if chosen[i] in reached then before[chosen[i] := Reconciled(before[chosen[i]])] else before
    ensures AllReconciled(rows, chosen[..i + 1], reached, after)
  {
    assert chosen[..i + 1] == chosen[..i] + [chosen[i]];
    assert chosen[i] !in chosen[..i];
  }

  lemma SweptOneMore(begun: World, chosen: seq<nat>, i: nat, reached: set<nat>, before: World, count: nat, after: World)
    requires i < |chosen| && StaleRows(begun.withdrawals, chosen) && SweptTo(begun, chosen[..i], reached, before, count)
    requires chosen[i] < |before.withdrawals| && before.withdrawals[chosen[i]] == begun.withdrawals[chosen[i]]
    requires Passed(before, chosen[i], reached, after)
    ensures SweptTo(begun, chosen[..i + 1], reached, after, count + if chosen[i] in reached then 1 else 0)
  {
    var rows, at := begun.withdrawals, chosen[i];
    var e, f := EvAskProvider(at), EvReconcile(at, rows[at].call.Shipped?);
    assert chosen[..i + 1][..i] == chosen[..i];
    OneMoreEvent(rows, chosen, i, reached, e, f);
    RunGrows(begun, Reconciliations(rows, chosen[..i], reached), at in reached, e, f, before, after);
    OneMoreReconciled(begun.withdrawals, chosen, i, reached, before.withdrawals, after.withdrawals);
  }

  /** An API error skips the row. */
  method ReconcileIfReached(db: Db, at: nat, reached: set<nat>)
    requires at < |db.withdrawals| && db.withdrawals[at].stale && db.withdrawals[at].status.Awaiting?
    modifies db
    ensures Passed(old(db.State()), at, reached, db.State())
  {
    if at in reached {
      ReconcileOne(db, at);
    }
  }

  /** sweep_stale_withdrawals; it is enabled when CryptoBot is configured and a threshold is set. */
  method SweepStaleWithdrawals(db: Db, enabled: bool, reached: set<nat>) returns (reconciled: nat)
    modifies db
    ensures var chosen := if enabled then Candidates(old(db.withdrawals)) else [];
            SweptTo(old(db.State()), chosen, reached, db.State(), reconciled)
  {
    ghost var begun := db.State();
    if !enabled {
      return 0;
    }
    var chosen := SelectStale(db);
    reconciled := 0;
    assert SweptTo(begun, [], reached, begun, 0);
    for i := 0 to |chosen|
      invariant SweptTo(begun, chosen[..i], reached, db.State(), reconciled)
    {
      ghost var before := db.State();
      TurnComes(begun, chosen, i, reached, before, reconciled);
      ReconcileIfReached(db, chosen[i], reached);
      SweptOneMore(begun, chosen, i, reached, before, reconciled, db.State());
      reconciled := reconciled + if chosen[i] in reached then 1 else 0;
    }
    assert chosen[..|chosen|] == chosen;
  }
}
