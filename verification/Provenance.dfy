/** How every deal came to be where it is: each status but the first has its call, by the one entitled to make it. */
module Provenance {
  import opened Common
  import opened Money
  import opened Sums
  import opened Tables
  import opened Services
  import opened Books
  import opened Safety
  import opened Profiles
  import opened Rulebook

  /** Statuses that a deal is created in, or reaches by being paid. */
  predicate Early(s: DealStatus)
  {
    s.PendingTopup? || s.PendingConfirmation?
  }

  /** Event i of the run was a call on deal j that the rules allowed, and made the row what it still is. */
  ghost predicate Made(w: World, events: seq<Event>, j: nat, i: nat)
  {
    && i < |events| && OnDeal(events[i]) && events[i].deal == j
    && var before, now := Run(w, events[..i]), Run(w, events);
       && j < |before.deals| && j < |now.deals| && May(before.deals[j], events[i])
       && now.deals[j] == Rulebook.RowAfter(before.deals[j], events[i])
  }

  lemma PaymentKeepsRow(w: World, e: Event, j: nat, plan: Plan, after: World)
    requires OnDeposit(e) && plan == DepositPlan(w, e) && plan.Ok? && after == Apply(w, plan.value) && j < |after.deals|
    ensures Early(after.deals[j].status) || (j < |w.deals| && after.deals[j] == w.deals[j])
  {
  }

  lemma WithdrawalKeepsRow(w: World, e: Event, j: nat, plan: Plan, after: World)
    requires OnWithdrawal(e) && plan == WithdrawalPlan(w, e) && plan.Ok? && after == Apply(w, plan.value)
    requires j < |after.deals|
    ensures j < |w.deals| && after.deals[j] == w.deals[j]
  {
    WithdrawalPlanIdle(w, e, plan);
  }

  lemma OpeningKeepsRow(w: World, e: Event, j: nat, plan: Plan, after: World)
    requires e.EvCreateDeal? || e.EvCreateDealWithTopup? || e.EvOpenDeposit?
    requires plan == DealPlan(w, e) && plan.Ok? && after == Apply(w, plan.value) && j < |after.deals|
    ensures Early(after.deals[j].status) || (j < |w.deals| && after.deals[j] == w.deals[j])
  {
  }

  /** Apart from the calls on it, nothing moves a deal out of its first statuses or rewrites it after them. */
  lemma OthersKeepRow(w: World, e: Event, j: nat)
    requires Valid(w) && j < |Step(w, e).deals|
    ensures || Early(Step(w, e).deals[j].status)
            || (j < |w.deals| && Step(w, e).deals[j] == w.deals[j])
            || (j < |w.deals| && OnDeal(e) && e.deal == j && May(w.deals[j], e)
                && Step(w, e).deals[j] == Rulebook.RowAfter(w.deals[j], e))
  {
    var plan := PlanOf(w, e);
    if OnDeal(e) {
      CallsKeepToTheRules(w, e);
    } else if plan.Ok? {
      if OnDeposit(e) {
        PaymentKeepsRow(w, e, j, plan, Step(w, e));
      } else if OnWithdrawal(e) {
        WithdrawalKeepsRow(w, e, j, plan, Step(w, e));
      } else {
        OpeningKeepsRow(w, e, j, plan, Step(w, e));
      }
    }
  }

  lemma MadeBefore(w: World, events: seq<Event>, j: nat, i: nat)
    requires events != [] && Made(w, events[..|events| - 1], j, i) && j < |Run(w, events).deals|
    requires Run(w, events).deals[j] == Run(w, events[..|events| - 1]).deals[j]
    ensures Made(w, events, j, i)
  {
    assert events[..|events| - 1][..i] == events[..i];
  }

  /** In every run, a deal beyond its first statuses is as some allowed call on it has left it. */
  lemma {:induction false} EveryStatusHasItsCall(w: World, events: seq<Event>, j: nat) returns (i: nat)
    requires Fresh(w) && Fair(w, events) && j < |Run(w, events).deals| && !Early(Run(w, events).deals[j].status)
    ensures Made(w, events, j, i)
  {
    var n := |events| - 1;
    var before, e := Run(w, events[..n]), events[n];
    BooksAlwaysBalance(w, events[..n]);
    OthersKeepRow(before, e, j);
    if j < |before.deals| && Run(w, events).deals[j] == before.deals[j] {
      i := EveryStatusHasItsCall(w, events[..n], j);
      MadeBefore(w, events, j, i);
    } else {
      i := n;
    }
  }

  function OtherParty(d: Deal, u: nat): nat
  {
    if u == d.buyer then d.seller else d.buyer
  }

  /** A deal that waits for the answer to a request to cancel names the party that made it. */
  lemma RequestIsNamed(w: World, events: seq<Event>, j: nat)
    requires Fresh(w) && Fair(w, events) && j < |Run(w, events).deals|
    requires Run(w, events).deals[j].status.PendingCancellation?
    ensures var d := Run(w, events).deals[j]; d.cancelBy.Some? && Party(d, d.cancelBy.value)
  {
    var i := EveryStatusHasItsCall(w, events, j);
  }

  /**
    What that means status by status: the principal went to the seller because the buyer
    finished or an arbiter ruled so, back to the buyer by a verdict because an arbiter ruled
    so, and an open request to cancel names the party that made it while the deal was in
    progress.
   */
  lemma {:induction false} EscrowEndsByRight(w: World, events: seq<Event>, j: nat) returns (i: nat)
    requires Fresh(w) && Fair(w, events) && j < |Run(w, events).deals| && !Early(Run(w, events).deals[j].status)
    ensures i < |events| && j < |Run(w, events[..i]).deals|
    ensures var d, before := Run(w, events).deals[j], Run(w, events[..i]).deals[j];
            match d.status
            case Completed => before.status.InProgress? && events[i] == EvFinish(j, d.buyer)
            case ResolvedForSeller => before.status.Arbitration?
                && events[i] == EvResolveArbitration(j, true, ForSeller)
            case ResolvedForBuyer => before.status.Arbitration? && events[i] == EvResolveArbitration(j, true, ForBuyer)
            case PendingCancellation =>
              && before.status.InProgress? && d.cancelBy.Some? && Party(d, d.cancelBy.value)
              && events[i] == EvRequestCancel(j, d.cancelBy.value)
            case Arbitration =>
              && d.disputedBy.Some? && Party(d, d.disputedBy.value)
              && events[i] == EvStartArbitration(j, d.disputedBy.value, true)
            case InProgress =>
              || events[i] == EvAccept(j, d.seller)
              || (before.cancelBy.Some? && events[i] == EvRevokeCancel(j, before.cancelBy.value))
            case Cancelled =>
              || events[i] == EvCancelPendingTopup(j, d.buyer) || events[i] == EvDecline(j, d.seller)
              || (before.status.PendingCancellation? && events[i] == EvRefundInactive(j))
              || (before.status.PendingCancellation? && before.cancelBy.Some?
                  && {before.cancelBy.value, OtherParty(d, before.cancelBy.value)} == {d.buyer, d.seller}
                  && events[i] == EvAcceptCancel(j, OtherParty(d, before.cancelBy.value)))
            case CancelledForInactivity => events[i] == EvExpirePendingTopup(j) || events[i] == EvRefundInactive(j)
            case _ => true
  {
    i := EveryStatusHasItsCall(w, events, j);
    if Run(w, events[..i]).deals[j].status.PendingCancellation? {
      FairPrefix(w, events, i);
      RequestIsNamed(w, events[..i], j);
    }
  }
}
