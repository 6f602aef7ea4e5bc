/**
  The withdrawal protocol: request, transfer call and settlement are separate steps, any of
  which may be cut short, and a sweep settles what is left over.
 */
module Withdrawals {
  import opened Common
  import opened Sums
  import opened Tables
  import opened Services
  import opened Books
  import opened Safety
  import opened Ledger

  /** `sent` means shipped and `rejected` means never shipped, for good, in every state of every fair run. */
  lemma StatusTellsTheTruth(w: World, events: seq<Event>, i: nat)
    requires Fresh(w) && Fair(w, events) && i < |Run(w, events).withdrawals|
    ensures var x := Run(w, events).withdrawals[i];
            && (x.status.Sent? ==> x.call.Shipped?)
            && (x.status.Rejected? ==> !x.call.Shipped? && !x.call.InFlight?)
  {
    BooksAlwaysBalance(w, events);
    assert WithdrawalOk(Run(w, events), Run(w, events).withdrawals[i]);
  }

  // ---------------------------------------------------------- released once

  /** The call settles withdrawal i: it moves money in its name after the request. */
  predicate Settling(w: World, e: Event, i: nat)
  {
    var plan := PlanOf(w, e);
    plan.Ok? && plan.value.first.Posting? && plan.value.first.source == FromWithdrawal(i) && !e.EvRequestWithdrawal?
  }

  /** How often a run has settled withdrawal i. */
  function Settlements(w: World, events: seq<Event>, i: nat): (count: nat)
  {
    if events == [] then 0 else
      var n := |events| - 1;
      Settlements(w, events[..n], i) + if Settling(Run(w, events[..n]), events[n], i) then 1 else 0
  }

  predicate SettledAt(w: World, i: nat)
  {
    i < |w.withdrawals| && !w.withdrawals[i].status.Awaiting?
  }

  /** A settlement ends the wait of one row, releases exactly its amount, and refunds it if it rejects it. */
  ghost predicate SettlesExactly(w: World, e: Effect, i: nat)
  {
    && i < |w.withdrawals| && w.withdrawals[i].status.Awaiting?
    && e.withdrawal.Put? && e.withdrawal.at == i
    && var x, y := w.withdrawals[i], e.withdrawal.row;
       && y.amount == x.amount && WithdrawalKey(y) == WithdrawalKey(x) && !y.status.Awaiting?
       && e.first.Posting? && e.first.key == WithdrawalKey(x) && e.first.locked == -x.amount && e.second.NoPosting?
       && e.first.amount == if y.status.Rejected? then x.amount else 0
  }

  /** A settlement of a waiting row that its lock covers, whichever of the three calls makes it. */
  lemma CoveredIsExact(w: World, e: Event, plan: Plan, i: nat)
    requires i < |w.withdrawals| && w.withdrawals[i].status.Awaiting? && plan.Ok? && plan.value.first.Posting?
    requires Unlock(Bal(w, WithdrawalKey(w.withdrawals[i])), w.withdrawals[i].amount) == -w.withdrawals[i].amount
    requires (e.EvFinishSent? || e.EvFinishFailed? || e.EvReconcile?) && e.withdrawal == i
    requires plan == WithdrawalPlan(w, e)
    ensures SettlesExactly(w, plan.value, i)
  {
  }

  lemma SettlementIsExact(w: World, e: Event, plan: Plan, i: nat)
    requires Valid(w) && Settling(w, e, i) && plan == PlanOf(w, e)
    ensures SettlesExactly(w, plan.value, i)
  {
    SettlingEvents(w, e, plan, i);
    LockCoversWithdrawal(w, i);
    CoveredIsExact(w, e, plan, i);
  }

  lemma SettlingEvents(w: World, e: Event, plan: Plan, i: nat)
    requires Valid(w) && Settling(w, e, i) && plan == PlanOf(w, e)
    ensures e.EvFinishSent? || e.EvFinishFailed? || e.EvReconcile?
    ensures e.withdrawal == i && i < |w.withdrawals| && w.withdrawals[i].status.Awaiting?
    ensures plan == WithdrawalPlan(w, e)
  {
    if OnWithdrawal(e) {
      assert WithdrawalOk(w, w.withdrawals[e.withdrawal]);
    } else if OnDeposit(e) {
      assert false;
    } else {
      NoDealSettles(w, e, plan, i);
    }
  }

  lemma NoDealSettles(w: World, e: Event, plan: Plan, i: nat)
    requires !OnWithdrawal(e) && !OnDeposit(e) && plan == PlanOf(w, e)
    ensures plan.Ok? && plan.value.first.Posting? ==> plan.value.first.source != FromWithdrawal(i)
  {
  }

  /** Nothing but a settlement changes whether a row is settled. */
  lemma OnlySettlementsSettle(w: World, e: Event, plan: Plan, after: World, i: nat)
    requires Valid(w) && plan == PlanOf(w, e) && plan.Ok? && after == Apply(w, plan.value) && !Settling(w, e, i)
    requires RowsFit(w, plan.value)
    ensures SettledAt(after, i) <==> SettledAt(w, i)
  {
    if plan.value.withdrawal.Put? && plan.value.withdrawal.at == i {
      QuietRow(w, e, plan, i);
    }
    SettledAfter(w, plan.value, after, i);
  }

  lemma SettledAfter(w: World, e: Effect, after: World, i: nat)
    requires after == Apply(w, e) && (e.withdrawal.Put? ==> e.withdrawal.at <= |w.withdrawals|)
    requires e.withdrawal.Put? && e.withdrawal.at == i ==>
               if i < |w.withdrawals| then e.withdrawal.row.status == w.withdrawals[i].status
                   else e.withdrawal.row.status.Awaiting?
    ensures SettledAt(after, i) <==> SettledAt(w, i)
  {
  }

  lemma QuietRow(w: World, e: Event, plan: Plan, i: nat)
    requires Valid(w) && plan == PlanOf(w, e) && plan.Ok? && !Settling(w, e, i) && i <= |w.withdrawals|
    requires plan.value.withdrawal.Put? && plan.value.withdrawal.at == i
    ensures if i < |w.withdrawals| then plan.value.withdrawal.row.status == w.withdrawals[i].status
            else plan.value.withdrawal.row.status.Awaiting?
  {
    if !e.EvRequestWithdrawal? && OnWithdrawal(e) && e.withdrawal < |w.withdrawals| {
      assert WithdrawalOk(w, w.withdrawals[e.withdrawal]);
    }
  }

  /** In every fair run a withdrawal is settled at most once, and exactly once when it no longer waits. */
  lemma {:induction false} SettledExactlyOnce(w: World, events: seq<Event>, i: nat)
    requires Fresh(w) && Fair(w, events)
    ensures Settlements(w, events, i) == if SettledAt(Run(w, events), i) then 1 else 0
  {
    if events != [] {
      var n := |events| - 1;
      var before, e := Run(w, events[..n]), events[n];
      SettledExactlyOnce(w, events[..n], i);
      BooksAlwaysBalance(w, events[..n]);
      SettlementStep(before, e, PlanOf(before, e), Step(before, e), i);
    }
  }

  lemma SettlementStep(w: World, e: Event, plan: Plan, after: World, i: nat)
    requires Valid(w) && Assumed(w, e) && plan == PlanOf(w, e) && after == Step(w, e)
    ensures Settling(w, e, i) ==> !SettledAt(w, i) && SettledAt(after, i)
    ensures !Settling(w, e, i) ==> (SettledAt(after, i) <==> SettledAt(w, i))
  {
    if Settling(w, e, i) {
      SettlementIsExact(w, e, plan, i);
    } else if plan.Ok? {
      EveryCallHonest(w, e);
      OnlySettlementsSettle(w, e, plan, after, i);
    }
  }
}
