/** Public counters and trust balances are functions of the deal and deposit tables. */
module Profiles {
  import opened Common
  import opened Sums
  import opened Tables
  import opened Services
  import opened Books
  import opened Safety

  predicate Party(d: Deal, u: nat)
  {
    d.buyer == u || d.seller == u
  }

  /** What one deal contributes to the counters of user u. */
  function Share(d: Deal, u: nat): Tally
  {
    if !Party(d, u) then Tally(0, 0, 0, 0) else
      var won := d.status.Completed? || (d.status.ResolvedForBuyer? && d.buyer == u)
                 || (d.status.ResolvedForSeller? && d.seller == u);
      var lost := (d.status.ResolvedForBuyer? && d.seller == u) || (d.status.ResolvedForSeller? && d.buyer == u);
      Tally(if d.inProgress then 1 else 0, if d.disputedBy.Some? then 1 else 0,
            if won then 1 else 0, if lost then 1 else 0)
  }

  function Totals(u: nat): Deal -> int { (d: Deal) => Share(d, u).total }
  function Arbitrages(u: nat): Deal -> int { (d: Deal) => Share(d, u).arbitrage }
  function Successes(u: nat): Deal -> int { (d: Deal) => Share(d, u).success }
  function Failures(u: nat): Deal -> int { (d: Deal) => Share(d, u).failed }

  function TrustPaid(u: nat): Deposit -> int
  {
    (p: Deposit) => if p.user == u && p.purpose.Trust? && p.status.Paid? then p.amount else 0
  }

  ghost predicate ProfileOk(w: World, u: nat)
  {
    u in w.users ==>
      && w.users[u].tally.total == Sum(w.deals, Totals(u))
      && w.users[u].tally.arbitrage == Sum(w.deals, Arbitrages(u))
      && w.users[u].tally.success == Sum(w.deals, Successes(u))
      && w.users[u].tally.failed == Sum(w.deals, Failures(u))
      && w.users[u].trust == Sum(w.deposits, TrustPaid(u))
  }

  const NONE := Tally(0, 0, 0, 0)

  function BuyerPart(b: Bump, u: nat): Tally
  {
    if b.Bump? && b.buyer == u then b.forBuyer else NONE
  }

  function SellerPart(b: Bump, u: nat): Tally
  {
    if b.Bump? && b.seller == u then b.forSeller else NONE
  }

  function BumpAt(b: Bump, u: nat): Tally
  {
    var x, y := BuyerPart(b, u), SellerPart(b, u);
    Tally(x.total + y.total, x.arbitrage + y.arbitrage, x.success + y.success, x.failed + y.failed)
  }

  function TrustAt(t: TrustCredit, u: nat): int
  {
    if t.TrustCredit? && t.user == u then t.amount else 0
  }

  /** The counters an effect bumps are those its deal row asks for. */
  ghost predicate BumpFits(w: World, e: Effect, u: nat)
  {
    var b := BumpAt(e.bump, u);
    && b.total == Change(w.deals, e.deal, Totals(u))
    && b.arbitrage == Change(w.deals, e.deal, Arbitrages(u))
    && b.success == Change(w.deals, e.deal, Successes(u))
    && b.failed == Change(w.deals, e.deal, Failures(u))
  }

  ghost predicate TrustFits(w: World, e: Effect, u: nat)
  {
    TrustAt(e.trust, u) == Change(w.deposits, e.deposit, TrustPaid(u))
                           + Change(Written(w.deposits, e.deposit), e.invoice, TrustPaid(u))
  }

  /** c is a plus b, counter by counter. */
  predicate Adds(a: Tally, b: Tally, c: Tally)
  {
    && c.total == a.total + b.total && c.arbitrage == a.arbitrage + b.arbitrage
    && c.success == a.success + b.success && c.failed == a.failed + b.failed
  }

  lemma CountedAt(users: map<nat, User>, who: nat, t: Tally, u: nat)
    requires u in users
    ensures u in Counted(users, who, t)
    ensures who == u ==> Adds(users[u].tally, t, Counted(users, who, t)[u].tally)
    ensures who != u ==> Counted(users, who, t)[u] == users[u]
    ensures Counted(users, who, t)[u].trust == users[u].trust
  {
  }

  lemma BumpedAt(users: map<nat, User>, b: Bump, u: nat)
    requires u in users
    ensures u in Bumped(users, b) && Bumped(users, b)[u].trust == users[u].trust
    ensures Adds(users[u].tally, BumpAt(b, u), Bumped(users, b)[u].tally)
  {
    if b.Bump? {
      var once := Counted(users, b.buyer, b.forBuyer);
      CountedAt(users, b.buyer, b.forBuyer, u);
      CountedAt(once, b.seller, b.forSeller, u);
    }
  }

  lemma TrustedAt(users: map<nat, User>, t: TrustCredit, u: nat)
    requires u in users
    ensures u in Trusted(users, t) && Trusted(users, t)[u].trust == users[u].trust + TrustAt(t, u)
    ensures Trusted(users, t)[u].tally == users[u].tally
  {
  }

  lemma UserAfter(w: World, e: Effect, u: nat)
    requires u in w.users
    ensures u in Apply(w, e).users
    ensures Adds(w.users[u].tally, BumpAt(e.bump, u), Apply(w, e).users[u].tally)
    ensures Apply(w, e).users[u].trust == w.users[u].trust + TrustAt(e.trust, u)
  {
    TrustedAt(w.users, e.trust, u);
    BumpedAt(Trusted(w.users, e.trust), e.bump, u);
  }

  lemma DealSumAfter(w: World, e: Effect, f: Deal -> int)
    ensures Sum(Apply(w, e).deals, f) == Sum(w.deals, f) + Change(w.deals, e.deal, f)
  {
    SumWritten(w.deals, e.deal, f);
  }

  lemma TrustSumAfter(w: World, e: Effect, u: nat)
    ensures Sum(Apply(w, e).deposits, TrustPaid(u))
         == Sum(w.deposits, TrustPaid(u)) + Change(w.deposits, e.deposit, TrustPaid(u))
            + Change(Written(w.deposits, e.deposit), e.invoice, TrustPaid(u))
  {
    SumWritten(w.deposits, e.deposit, TrustPaid(u));
    SumWritten(Written(w.deposits, e.deposit), e.invoice, TrustPaid(u));
  }

  lemma FittingKeepsProfile(w: World, e: Effect, after: World, u: nat)
    requires ProfileOk(w, u) && BumpFits(w, e, u) && TrustFits(w, e, u) && after == Apply(w, e)
    ensures ProfileOk(after, u)
  {
    assert after.users.Keys == w.users.Keys by { ApplyKeepsUsers(w, e); }
    if u in w.users {
      UserAfter(w, e, u);
      DealSumAfter(w, e, Totals(u));
      DealSumAfter(w, e, Arbitrages(u));
      DealSumAfter(w, e, Successes(u));
      DealSumAfter(w, e, Failures(u));
      TrustSumAfter(w, e, u);
    }
  }

  /** The bump of a rewritten deal row is the change of its share. */
  ghost predicate RowBump(d: Deal, after: Deal, b: Bump, u: nat)
  {
    Adds(Share(d, u), BumpAt(b, u), Share(after, u))
  }

  lemma RowBumpFits(w: World, e: Effect, u: nat)
    requires e.deal.Put? && e.deal.at < |w.deals| && RowBump(w.deals[e.deal.at], e.deal.row, e.bump, u)
    ensures BumpFits(w, e, u)
  {
    ChangeOfUpdate(w.deals, e.deal, Totals(u));
    ChangeOfUpdate(w.deals, e.deal, Arbitrages(u));
    ChangeOfUpdate(w.deals, e.deal, Successes(u));
    ChangeOfUpdate(w.deals, e.deal, Failures(u));
  }

  /** The events that act on one stored deal. */
  predicate OnDeal(e: Event)
  {
    e.EvCancelPendingTopup? || e.EvExpirePendingTopup? || e.EvAccept? || e.EvDecline? || e.EvFinish?
        || e.EvRequestCancel?
    || e.EvRevokeCancel? || e.EvAcceptCancel? || e.EvStartArbitration? || e.EvResolveArbitration? || e.EvRefundInactive?
  }

  predicate DealEvent(e: Event)
  {
    !OnDeposit(e) && !OnWithdrawal(e)
  }

  lemma SteppingBumps(w: World, e: Event, u: nat, plan: Plan)
    requires Valid(w) && DealEvent(e) && plan == DealPlan(w, e) && plan.Ok?
    requires e.EvAccept? || e.EvRequestCancel? || e.EvRevokeCancel? || e.EvStartArbitration?
    ensures BumpFits(w, plan.value, u)
  {
    assert DealOk(w, w.deals[e.deal]);
    RowBumpFits(w, plan.value, u);
  }

  lemma CancellingBumps(w: World, e: Event, u: nat, plan: Plan)
    requires Valid(w) && DealEvent(e) && plan == DealPlan(w, e) && plan.Ok?
    requires e.EvCancelPendingTopup? || e.EvExpirePendingTopup? || e.EvDecline? || e.EvAcceptCancel?
        || e.EvRefundInactive?
    ensures BumpFits(w, plan.value, u)
  {
    assert DealOk(w, w.deals[e.deal]);
    RowBumpFits(w, plan.value, u);
  }

  lemma ClosingBumps(w: World, e: Event, u: nat, plan: Plan)
    requires Valid(w) && DealEvent(e) && plan == DealPlan(w, e) && plan.Ok? && (e.EvFinish? || e.EvResolveArbitration?)
    ensures BumpFits(w, plan.value, u)
  {
    assert DealOk(w, w.deals[e.deal]);
    if e.EvFinish? {
      FinishingBumps(w, e.deal, e.user, u, plan);
    } else {
      ResolvingBumps(w, e.deal, e.entitled, e.verdict, u, plan);
    }
  }

  lemma FinishingBumps(w: World, deal: nat, user: nat, u: nat, plan: Plan)
    requires deal < |w.deals| ==> DealOk(w, w.deals[deal])
    requires plan == FinishDeal(w, deal, user) && plan.Ok?
    ensures BumpFits(w, plan.value, u)
  {
    RowBumpFits(w, plan.value, u);
  }

  lemma ResolvingBumps(w: World, deal: nat, entitled: bool, verdict: Verdict, u: nat, plan: Plan)
    requires deal < |w.deals| ==> DealOk(w, w.deals[deal])
    requires plan == ResolveArbitration(w, deal, entitled, verdict) && plan.Ok?
    ensures BumpFits(w, plan.value, u)
  {
    RowBumpFits(w, plan.value, u);
  }

  lemma CreationBumps(w: World, e: Event, u: nat, plan: Plan)
    requires plan == PlanOf(w, e) && plan.Ok? && (e.EvCreateDeal? || e.EvCreateDealWithTopup?)
    ensures BumpFits(w, plan.value, u)
  {
  }

  lemma PayingBumps(w: World, u: nat, plan: Plan)
    requires PaysOnce(w, plan) && plan.Ok? && DealsOk(w)
    ensures BumpFits(w, plan.value, u)
  {
    var e := plan.value;
    if e.deal.Put? {
      assert DealOk(w, w.deals[e.deal.at]);
      RowBumpFits(w, e, u);
    }
  }

  lemma PayingTrust(w: World, u: nat, plan: Plan)
    requires PaysOnce(w, plan) && plan.Ok?
    ensures TrustFits(w, plan.value, u)
  {
  }

  lemma NotPayingTrust(w: World, u: nat, plan: Plan)
    requires PaysNothing(w, plan) && plan.Ok?
    ensures TrustFits(w, plan.value, u)
  {
  }

  lemma EveryCallCounts(w: World, e: Event, u: nat, plan: Plan)
    requires Valid(w) && plan == PlanOf(w, e) && plan.Ok?
    ensures BumpFits(w, plan.value, u) && TrustFits(w, plan.value, u)
  {
    if OnDeposit(e) {
      PayingBumps(w, u, plan);
      PayingTrust(w, u, plan);
    } else {
      NotPayingTrust(w, u, plan);
      if e.EvCreateDeal? || e.EvCreateDealWithTopup? {
        CreationBumps(w, e, u, plan);
      } else if e.EvAccept? || e.EvRequestCancel? || e.EvRevokeCancel? || e.EvStartArbitration? {
        SteppingBumps(w, e, u, plan);
      } else if e.EvFinish? || e.EvResolveArbitration? {
        ClosingBumps(w, e, u, plan);
      } else if OnDeal(e) {
        CancellingBumps(w, e, u, plan);
      } else {
        IdleBumps(w, e, u, plan);
      }
    }
  }

  lemma IdleBumps(w: World, e: Event, u: nat, plan: Plan)
    requires plan == PlanOf(w, e) && plan.Ok? && (e.EvOpenDeposit? || OnWithdrawal(e))
    ensures BumpFits(w, plan.value, u)
  {
    if OnWithdrawal(e) {
      WithdrawalPlanIdle(w, e, plan);
    }
  }

  /** No call of the withdrawal protocol writes a deal or a counter. */
  lemma WithdrawalPlanIdle(w: World, e: Event, plan: Plan)
    requires OnWithdrawal(e) && plan == WithdrawalPlan(w, e) && plan.Ok?
    ensures plan.value.deal.Keep? && plan.value.bump.NoBump?
  {
  }

  /** In every reachable state the counters and the trust balance of a user follow from the tables. */
  lemma {:induction false} ProfilesFollowTables(w: World, events: seq<Event>, u: nat)
    requires Fresh(w) && Fair(w, events)
    ensures ProfileOk(Run(w, events), u)
  {
    if events != [] {
      var n := |events| - 1;
      var before := Run(w, events[..n]);
      ProfilesFollowTables(w, events[..n], u);
      BooksAlwaysBalance(w, events[..n]);
      if PlanOf(before, events[n]).Ok? {
        EveryCallCounts(before, events[n], u, PlanOf(before, events[n]));
        FittingKeepsProfile(before, PlanOf(before, events[n]).value, Run(w, events), u);
      }
    }
  }

  /** Trust balances never fall: no call takes from them and no credit is negative. */
  lemma TrustNeverFalls(w: World, e: Event, u: nat)
    requires Valid(w) && Assumed(w, e) && u in w.users
    ensures u in Step(w, e).users && Step(w, e).users[u].trust >= w.users[u].trust
  {
    var plan := PlanOf(w, e);
    if plan.Ok? {
      EveryCallHonest(w, e);
      CreditNotNegative(w, plan);
      UserAfter(w, plan.value, u);
    }
  }

  lemma CreditNotNegative(w: World, plan: Plan)
    requires plan.Ok? && RowsFit(w, plan.value) && (PaysOnce(w, plan) || PaysNothing(w, plan))
    ensures plan.value.trust.TrustCredit? ==> plan.value.trust.amount >= 0
  {
  }

  lemma {:induction false} SumAtMost(rows: seq<Deal>, f: Deal -> int, g: Deal -> int)
    requires forall i :: 0 <= i < |rows| ==> f(rows[i]) <= g(rows[i])
    ensures Sum(rows, f) <= Sum(rows, g)
  {
    if rows != [] {
      SumAtMost(rows[..|rows| - 1], f, g);
    }
  }

  /** Nobody has more outcomes or disputes than deals. */
  lemma {:induction false} CountersAreBounded(w: World, u: nat)
    requires Valid(w) && ProfileOk(w, u) && u in w.users
    ensures var t := w.users[u].tally;
            && t.success >= 0 && t.failed >= 0 && t.arbitrage >= 0
            && t.success + t.failed <= t.total && t.arbitrage <= t.total
  {
    assert DealsOk(w);
    var decided := (d: Deal) => Share(d, u).success + Share(d, u).failed;
    SumPlus(w.deals, decided, Successes(u), Failures(u));
    SumAtMost(w.deals, decided, Totals(u));
    SumAtMost(w.deals, Arbitrages(u), Totals(u));
    SumNonNegative(w.deals, Successes(u));
    SumNonNegative(w.deals, Failures(u));
    SumNonNegative(w.deals, Arbitrages(u));
  }

  predicate Terminal(s: DealStatus)
  {
    s.Completed? || s.ResolvedForBuyer? || s.ResolvedForSeller? || s.Cancelled? || s.CancelledForInactivity?
  }

  /** Every call on a deal refuses one that has ended. */
  lemma DealCallOpen(w: World, e: Event, at: nat, plan: Plan)
    requires OnDeal(e) && plan == DealPlan(w, e) && plan.Ok? && at < |w.deals| && Terminal(w.deals[at].status)
    ensures plan.value.deal.Put? ==> plan.value.deal.at != at
  {
  }

  lemma TerminalDealUntouched(w: World, e: Event, at: nat, plan: Plan)
    requires plan == PlanOf(w, e) && plan.Ok? && at < |w.deals| && Terminal(w.deals[at].status)
    ensures plan.value.deal.Put? ==> plan.value.deal.at != at
  {
    if OnDeal(e) {
      DealCallOpen(w, e, at, plan);
    } else if OnWithdrawal(e) {
      WithdrawalPlanIdle(w, e, plan);
    }
  }

  lemma UntouchedRow(w: World, e: Effect, at: nat, after: World)
    requires after == Apply(w, e) && at < |w.deals| && (e.deal.Put? ==> e.deal.at != at)
    ensures at < |after.deals| && after.deals[at] == w.deals[at]
  {
  }

  lemma StepKeepsTerminal(w: World, e: Event, at: nat)
    requires at < |w.deals| && Terminal(w.deals[at].status)
    ensures at < |Step(w, e).deals| && Step(w, e).deals[at] == w.deals[at]
  {
    var plan := PlanOf(w, e);
    if plan.Ok? {
      TerminalDealUntouched(w, e, at, plan);
      UntouchedRow(w, plan.value, at, Step(w, e));
    }
  }

  /** A deal in a terminal status is never written again, whatever happens. */
  lemma {:induction false} TerminalIsForever(w: World, events: seq<Event>, at: nat)
    requires at < |w.deals| && Terminal(w.deals[at].status)
    ensures at < |Run(w, events).deals| && Run(w, events).deals[at] == w.deals[at]
  {
    if events != [] {
      var n := |events| - 1;
      TerminalIsForever(w, events[..n], at);
      StepKeepsTerminal(Run(w, events[..n]), events[n], at);
    }
  }
}
