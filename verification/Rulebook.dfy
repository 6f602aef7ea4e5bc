/**
  Who may do what to a deal, and what it does: one table for all calls on a stored deal, and
  every call keeps to it.
 */
module Rulebook {
  import opened Common
  import opened Money
  import opened Sums
  import opened Tables
  import opened Services
  import opened Books
  import opened Safety
  import opened Profiles

  // ----------------------------------------------------------------- the table

  /** Who may make the call; the sweeps answer to nobody. */
  predicate ByRight(d: Deal, e: Event)
    requires OnDeal(e)
  {
    match e
    case EvAccept(_, u) => u == d.seller
    case EvDecline(_, u) => u == d.seller
    case EvFinish(_, u) => u == d.buyer
    case EvCancelPendingTopup(_, u) => u == d.buyer
    case EvRequestCancel(_, u) => u == d.buyer || u == d.seller
    case EvRevokeCancel(_, u) => d.cancelBy == Some(u)
    case EvAcceptCancel(_, u) => (u == d.buyer || u == d.seller) && d.cancelBy != Some(u)
    case EvStartArbitration(_, u, _) => u == d.buyer || u == d.seller
    case EvResolveArbitration(_, adminOrArbiter, _) => adminOrArbiter
    case EvExpirePendingTopup(_) => true
    case EvRefundInactive(_) => true
  }

  /** In which status it may be made, and what else it takes. */
  predicate InTime(s: DealStatus, e: Event)
    requires OnDeal(e)
  {
    match e
    case EvAccept(_, _) => s == PendingConfirmation
    case EvDecline(_, _) => s == PendingConfirmation
    case EvFinish(_, _) => s == InProgress
    case EvCancelPendingTopup(_, _) => s == PendingTopup
    case EvRequestCancel(_, _) => s == InProgress
    case EvRevokeCancel(_, _) => s == PendingCancellation
    case EvAcceptCancel(_, _) => s == PendingCancellation
    case EvStartArbitration(_, _, reasonGiven) => (s == InProgress || s == PendingCancellation) && reasonGiven
    case EvResolveArbitration(_, _, verdict) => s == Arbitration && (verdict == ForBuyer || verdict == ForSeller)
    case EvExpirePendingTopup(_) => s == PendingTopup
    case EvRefundInactive(_) => s == PendingConfirmation || s == PendingCancellation
  }

  predicate May(d: Deal, e: Event)
    requires OnDeal(e)
  {
    ByRight(d, e) && InTime(d.status, e)
  }

  /** The status it leads to. */
  function Next(s: DealStatus, e: Event): DealStatus
    requires OnDeal(e)
  {
    match e
    case EvAccept(_, _) => InProgress
    case EvDecline(_, _) => Cancelled
    case EvFinish(_, _) => Completed
    case EvCancelPendingTopup(_, _) => Cancelled
    case EvRequestCancel(_, _) => PendingCancellation
    case EvRevokeCancel(_, _) => InProgress
    case EvAcceptCancel(_, _) => Cancelled
    case EvStartArbitration(_, _, _) => Arbitration
    case EvResolveArbitration(_, _, verdict) => if verdict == ForBuyer then ResolvedForBuyer else ResolvedForSeller
    case EvExpirePendingTopup(_) => CancelledForInactivity
    case EvRefundInactive(_) => if s == PendingConfirmation then CancelledForInactivity else Cancelled
  }

  /** The whole row it leads to: who asked for a cancel and who went to arbitration is written down. */
  function RowAfter(d: Deal, e: Event): Deal
    requires OnDeal(e)
  {
    d.(status := Next(d.status, e),
       inProgress := d.inProgress || e.EvAccept?,
       cancelBy := if e.EvRequestCancel? then Some(e.user) else if e.EvRevokeCancel? then None else d.cancelBy,
       disputedBy := if e.EvStartArbitration? then Some(e.user) else d.disputedBy)
  }

  datatype Payout = Nobody | ToBuyer | ToSeller

  /** To whom the principal goes. */
  function PayoutOf(e: Event): Payout
    requires OnDeal(e)
  {
    match e
    case EvDecline(_, _) => ToBuyer
    case EvAcceptCancel(_, _) => ToBuyer
    case EvRefundInactive(_) => ToBuyer
    case EvFinish(_, _) => ToSeller
    case EvResolveArbitration(_, _, verdict) => if verdict == ForBuyer then ToBuyer else ToSeller
    case _ => Nobody
  }

  /** What it counts for user u. */
  function Counts(d: Deal, e: Event, u: nat): Tally
    requires OnDeal(e)
  {
    var party := u == d.buyer || u == d.seller;
    if !party then Tally(0, 0, 0, 0)
    else match e
      case EvAccept(_, _) => Tally(1, 0, 0, 0)
      case EvStartArbitration(_, _, _) => Tally(0, 1, 0, 0)
      case EvFinish(_, _) => Tally(0, 0, 1, 0)
      case EvResolveArbitration(_, _, verdict) =>
        if (verdict == ForBuyer) == (u == d.buyer) then Tally(0, 0, 1, 0) else Tally(0, 0, 0, 1)
      case _ => Tally(0, 0, 0, 0)
  }

  /** Ending a top-up closes the outstanding invoice if it is pending. */
  function InvoicesAfter(deposits: seq<Deposit>, d: Deal, e: Event): seq<Deposit>
    requires OnDeal(e)
  {
    if (e.EvCancelPendingTopup? || e.EvExpirePendingTopup?) && d.topup.Some? && d.topup.value < |deposits|
       && deposits[d.topup.value].status.Pending?
    then deposits[d.topup.value := deposits[d.topup.value].(status := Expired)]
    else deposits
  }

  /** The balance of account k after the principal of d has been paid out. */
  function PaidOutBalance(b: Balance, d: Deal, to: Payout, k: Key): Balance
  {
    var released := if to != Nobody && k == Key(d.buyer, d.currency) then d.amount else 0;
    var toBuyer := to == ToBuyer && k == Key(d.buyer, d.currency);
    var toSeller := to == ToSeller && k == Key(d.seller, d.currency);
    var received := if toBuyer || toSeller then d.amount else 0;
    Balance(b.amount + received, b.locked - released)
  }

  function EntriesFor(buyer: Balance, seller: Balance, d: Deal, to: Payout): seq<Entry>
  {
    var b, s := Key(d.buyer, d.currency), Key(d.seller, d.currency);
    match to
    case Nobody => []
    case ToBuyer =>
      [Entry(b, DealRefundPrincipal, FromDeal(None), None, buyer.amount, d.amount, buyer.amount + d.amount,
             buyer.locked, -d.amount, buyer.locked - d.amount)]
    case ToSeller =>
      [Entry(b, DealReleaseDebit, FromDeal(None), None, buyer.amount, 0, buyer.amount,
             buyer.locked, -d.amount, buyer.locked - d.amount),
       Entry(s, DealReleaseCredit, FromDeal(None), None, seller.amount, d.amount, seller.amount + d.amount,
             seller.locked, 0, seller.locked)]
  }

  /** The call has been carried out: every table holds what the rules say, and nothing else has changed. */
  ghost predicate CarriedOut(w: World, j: nat, e: Event, after: World)
    requires OnDeal(e) && j < |w.deals|
  {
    var d := w.deals[j];
    && after.currencies == w.currencies && after.withdrawals == w.withdrawals
    && after.deals == w.deals[j := RowAfter(d, e)]
    && after.deposits == InvoicesAfter(w.deposits, d, e)
    && (forall k :: Bal(after, k) == PaidOutBalance(Bal(w, k), d, PayoutOf(e), k))
    && CountersFollow(w.users, d, e, after.users)
    && after.ledger == w.ledger + EntriesFor(Bal(w, BuyerKey(d)), Bal(w, SellerKey(d)), d, PayoutOf(e))
  }

  ghost predicate CountersFollow(users: map<nat, User>, d: Deal, e: Event, after: map<nat, User>)
    requires OnDeal(e)
  {
    && after.Keys == users.Keys
    && forall u :: u in users ==> after[u] == users[u].(tally := Plus(users[u].tally, Counts(d, e, u)))
  }

  // ---------------------------------------------------------- calls and the table

  /** The postings that pay the principal out. */
  function FirstPosting(d: Deal, to: Payout): Posting
  {
    match to
    case Nobody => NoPosting
    case ToBuyer => Posting(BuyerKey(d), d.amount, -d.amount, DealRefundPrincipal, FromDeal(None), None, true)
    case ToSeller => Posting(BuyerKey(d), 0, -d.amount, DealReleaseDebit, FromDeal(None), None, true)
  }

  function SecondPosting(d: Deal, to: Payout): Posting
  {
    if to == ToSeller then Posting(SellerKey(d), d.amount, 0, DealReleaseCredit, FromDeal(None), None, true)
    else NoPosting
  }

  lemma PostedBalances(w: World, d: Deal, to: Payout, e: Effect, after: World)
    requires d.buyer != d.seller && d.amount > 0 && after == Apply(w, e) && e.trust.NoTrust?
    requires e.first == FirstPosting(d, to) && e.second == SecondPosting(d, to)
    ensures forall k :: Bal(after, k) == PaidOutBalance(Bal(w, k), d, to, k)
    ensures after.ledger == w.ledger + EntriesFor(Bal(w, BuyerKey(d)), Bal(w, SellerKey(d)), d, to)
  {
  }

  /** The counters of an effect are those of the table. */
  ghost predicate BumpsFor(b: Bump, d: Deal, e: Event)
    requires OnDeal(e)
  {
    if b.NoBump? then forall u :: Counts(d, e, u) == Tally(0, 0, 0, 0)
    else
      && b.buyer == d.buyer && b.seller == d.seller
      && b.forBuyer == Counts(d, e, d.buyer) && b.forSeller == Counts(d, e, d.seller)
  }

  lemma BumpedUsers(users: map<nat, User>, b: Bump, d: Deal, e: Event)
    requires OnDeal(e) && d.buyer != d.seller && BumpsFor(b, d, e)
    ensures CountersFollow(users, d, e, Bumped(users, b))
  {
  }

  lemma EffectCarriesOut(w: World, j: nat, e: Event, eff: Effect, after: World)
    requires OnDeal(e) && j < |w.deals| && DealOk(w, w.deals[j]) && after == Apply(w, eff)
    requires eff.deal == Put.Put(j, RowAfter(w.deals[j], e))
    requires eff.invoice.Keep? && eff.withdrawal.Keep? && eff.trust.NoTrust?
    requires Written(w.deposits, eff.deposit) == InvoicesAfter(w.deposits, w.deals[j], e)
    requires eff.first == FirstPosting(w.deals[j], PayoutOf(e)) && eff.second == SecondPosting(w.deals[j], PayoutOf(e))
    requires BumpsFor(eff.bump, w.deals[j], e)
    ensures CarriedOut(w, j, e, after)
  {
    PostedBalances(w, w.deals[j], PayoutOf(e), eff, after);
    BumpedUsers(w.users, eff.bump, w.deals[j], e);
  }

  /** The effect of a call that the table allows. */
  ghost predicate Tabled(w: World, j: nat, e: Event, plan: Plan)
    requires OnDeal(e) && j < |w.deals|
  {
    && plan.Ok?
    && var d, eff := w.deals[j], plan.value;
       && eff.deal == Put.Put(j, RowAfter(d, e))
       && eff.invoice.Keep? && eff.withdrawal.Keep? && eff.trust.NoTrust?
       && Written(w.deposits, eff.deposit) == InvoicesAfter(w.deposits, d, e)
       && eff.first == FirstPosting(d, PayoutOf(e)) && eff.second == SecondPosting(d, PayoutOf(e))
       && BumpsFor(eff.bump, d, e)
  }

  lemma QuietTabled(w: World, j: nat, e: Event, plan: Plan)
    requires OnDeal(e) && e.deal == j && j < |w.deals| && plan == DealPlan(w, e) && PayoutOf(e) == Nobody
    ensures if May(w.deals[j], e) then Tabled(w, j, e, plan) else plan.Err?
  {
  }

  lemma RefundTabled(w: World, j: nat, e: Event, closed: DealStatus, bump: Bump, plan: Plan)
    requires Valid(w) && OnDeal(e) && j < |w.deals| && Holding(w.deals[j].status) && !closed.PendingTopup?
    requires PayoutOf(e) == ToBuyer && closed == Next(w.deals[j].status, e) && BumpsFor(bump, w.deals[j], e)
    requires plan == Refund(w, j, closed, bump)
    ensures Tabled(w, j, e, plan)
  {
    StoredOnGrid(w, j);
    LockCoversDeal(w, j);
  }

  lemma ReleaseTabled(w: World, j: nat, e: Event, closed: DealStatus, bump: Bump, plan: Plan)
    requires Valid(w) && OnDeal(e) && j < |w.deals| && Holding(w.deals[j].status) && !closed.PendingTopup?
    requires PayoutOf(e) == ToSeller && closed == Next(w.deals[j].status, e) && BumpsFor(bump, w.deals[j], e)
    requires plan == Release(w, j, closed, bump)
    ensures Tabled(w, j, e, plan)
  {
    StoredOnGrid(w, j);
    LockCoversDeal(w, j);
  }

  lemma RefundingTabled(w: World, j: nat, e: Event, plan: Plan)
    requires Valid(w) && j < |w.deals| && (e.EvDecline? || e.EvAcceptCancel? || e.EvRefundInactive?) && e.deal == j
    requires plan == DealPlan(w, e)
    ensures if May(w.deals[j], e) then Tabled(w, j, e, plan) else plan.Err?
  {
    if May(w.deals[j], e) {
      RefundTabled(w, j, e, Next(w.deals[j].status, e), NoBump, plan);
    }
  }

  lemma FinishTabled(w: World, j: nat, e: Event, plan: Plan)
    requires Valid(w) && j < |w.deals| && e.EvFinish? && e.deal == j && plan == DealPlan(w, e)
    ensures if May(w.deals[j], e) then Tabled(w, j, e, plan) else plan.Err?
  {
    if May(w.deals[j], e) {
      ReleaseTabled(w, j, e, Completed, Both(w.deals[j], Tally(0, 0, 1, 0)), plan);
    }
  }

  lemma VerdictTabled(w: World, j: nat, e: Event, plan: Plan)
    requires Valid(w) && j < |w.deals| && e.EvResolveArbitration? && e.deal == j && plan == DealPlan(w, e)
    ensures if May(w.deals[j], e) then Tabled(w, j, e, plan) else plan.Err?
  {
    var d, won, lost := w.deals[j], Tally(0, 0, 1, 0), Tally(0, 0, 0, 1);
    if May(d, e) {
      assert DealOk(w, d);
      if e.verdict == ForBuyer {
        RefundTabled(w, j, e, ResolvedForBuyer, Bump(d.buyer, won, d.seller, lost), plan);
      } else {
        ReleaseTabled(w, j, e, ResolvedForSeller, Bump(d.buyer, lost, d.seller, won), plan);
      }
    }
  }

  lemma CallTabled(w: World, j: nat, e: Event, plan: Plan)
    requires Valid(w) && OnDeal(e) && e.deal == j && j < |w.deals| && plan == DealPlan(w, e)
    ensures if May(w.deals[j], e) then Tabled(w, j, e, plan) else plan.Err?
  {
    if PayoutOf(e) == Nobody {
      QuietTabled(w, j, e, plan);
    } else if e.EvFinish? {
      FinishTabled(w, j, e, plan);
    } else if e.EvResolveArbitration? {
      VerdictTabled(w, j, e, plan);
    } else {
      RefundingTabled(w, j, e, plan);
    }
  }

  lemma NoSuchDeal(w: World, e: Event, plan: Plan)
    requires OnDeal(e) && e.deal >= |w.deals| && plan == DealPlan(w, e)
    ensures plan.Err?
  {
  }

  /**
    The law of the table: a call on a deal is carried out to the letter if the table allows
    it, and changes nothing at all if not.
   */
  lemma {:induction false} CallsKeepToTheRules(w: World, e: Event)
    requires Valid(w) && OnDeal(e)
    ensures if e.deal < |w.deals| && May(w.deals[e.deal], e) then CarriedOut(w, e.deal, e, Step(w, e))
            else Step(w, e) == w
  {
    var plan := PlanOf(w, e);
    if e.deal < |w.deals| {
      assert DealOk(w, w.deals[e.deal]);
      CallTabled(w, e.deal, e, plan);
      if May(w.deals[e.deal], e) {
        EffectCarriesOut(w, e.deal, e, plan.value, Step(w, e));
      }
    } else {
      NoSuchDeal(w, e, plan);
    }
  }

  /** The error of a call the table does not allow: of the failing checks, the one that is made first. */
  function ReasonOf(d: Deal, e: Event): Error
    requires OnDeal(e) && !May(d, e)
  {
    match e
    case EvRevokeCancel(_, _) => if d.status == PendingCancellation then WrongUser else WrongStatus
    case EvAcceptCancel(_, _) => if d.status == PendingCancellation then WrongUser else WrongStatus
    case EvStartArbitration(_, _, _) =>
      if !ByRight(d, e) then WrongUser
      else if d.status != InProgress && d.status != PendingCancellation then WrongStatus else NoReason
    case EvResolveArbitration(_, _, _) =>
      if !ByRight(d, e) then NotEntitled else if d.status != Arbitration then WrongStatus else BadVerdict
    case _ => if !ByRight(d, e) then WrongUser else WrongStatus
  }

  lemma {:induction false} RefusalsNameTheReason(w: World, e: Event)
    requires OnDeal(e)
    ensures e.deal >= |w.deals| ==> PlanOf(w, e) == Err(NotFound)
    ensures e.deal < |w.deals| && !May(w.deals[e.deal], e) ==> PlanOf(w, e) == Err(ReasonOf(w.deals[e.deal], e))
  {
  }

  // -------------------------------------------------- the two that pay people out

  /** Deal j has ended: the buyer's lock is released, `winner` gets the principal, nobody else's balance moves. */
  ghost predicate PaidTo(w: World, j: nat, winner: nat, ended: DealStatus, after: World)
    requires j < |w.deals|
  {
    var d := w.deals[j];
    var buyer := Key(d.buyer, d.currency);
    && |after.deals| == |w.deals| && after.deals[j] == d.(status := ended)
    && Bal(after, buyer).locked == Bal(w, buyer).locked - d.amount
    && Bal(after, Key(winner, d.currency)).amount == Bal(w, Key(winner, d.currency)).amount + d.amount
    && (forall k :: k != buyer ==> Bal(after, k).locked == Bal(w, k).locked)
    && (forall k :: k != Key(winner, d.currency) ==> Bal(after, k).amount == Bal(w, k).amount)
  }

  /** One more success, failure or neither for user u. */
  ghost predicate Scored(w: World, u: nat, success: nat, failed: nat, after: World)
  {
    u in w.users && u in after.users &&
    var t := w.users[u].tally;
    after.users[u] == w.users[u].(tally := t.(success := t.success + success, failed := t.failed + failed))
  }

  lemma ScoredBy(w: World, j: nat, e: Event, u: nat, success: nat, failed: nat, after: World)
    requires OnDeal(e) && j < |w.deals| && CountersFollow(w.users, w.deals[j], e, after.users) && u in w.users
    requires Counts(w.deals[j], e, u) == Tally(0, 0, success, failed)
    ensures Scored(w, u, success, failed, after)
  {
    assert after.users[u] == w.users[u].(tally := Plus(w.users[u].tally, Tally(0, 0, success, failed)));
  }

  /** The one with the verdict gets the principal and the success, the other one the failure. */
  lemma {:induction false} VerdictIsCarriedOut(w: World, j: nat, entitled: bool, verdict: Verdict)
    requires Valid(w) && j < |w.deals|
    ensures var d, after := w.deals[j], Step(w, EvResolveArbitration(j, entitled, verdict));
            if entitled && d.status.Arbitration? && verdict.ForBuyer? then
              && PaidTo(w, j, d.buyer, ResolvedForBuyer, after)
              && Scored(w, d.buyer, 1, 0, after) && Scored(w, d.seller, 0, 1, after)
            else if entitled && d.status.Arbitration? && verdict.ForSeller? then
              && PaidTo(w, j, d.seller, ResolvedForSeller, after)
              && Scored(w, d.seller, 1, 0, after) && Scored(w, d.buyer, 0, 1, after)
            else after == w
  {
    var d, e := w.deals[j], EvResolveArbitration(j, entitled, verdict);
    assert DealOk(w, d);
    CallsKeepToTheRules(w, e);
    if May(d, e) {
      var winner, loser := if verdict.ForBuyer? then d.buyer else d.seller,
          if verdict.ForBuyer? then d.seller else d.buyer;
      PaidOutTo(w, j, e, winner, Step(w, e));
      ScoredBy(w, j, e, winner, 1, 0, Step(w, e));
      ScoredBy(w, j, e, loser, 0, 1, Step(w, e));
    }
  }

  lemma PaidOutTo(w: World, j: nat, e: Event, winner: nat, after: World)
    requires OnDeal(e) && j < |w.deals| && CarriedOut(w, j, e, after) && w.deals[j].buyer != w.deals[j].seller
    requires PayoutOf(e) != Nobody && (e.EvFinish? || e.EvResolveArbitration?)
    requires winner == if PayoutOf(e) == ToBuyer then w.deals[j].buyer else w.deals[j].seller
    ensures PaidTo(w, j, winner, Next(w.deals[j].status, e), after)
  {
  }

  /** Only the buyer, and only while the deal is in progress, can release the principal to the seller. */
  lemma {:induction false} OnlyTheBuyerFinishes(w: World, j: nat, user: nat)
    requires Valid(w) && j < |w.deals|
    ensures var d, after := w.deals[j], Step(w, EvFinish(j, user));
            if user == d.buyer && d.status.InProgress? then
              && PaidTo(w, j, d.seller, Completed, after)
              && Scored(w, d.buyer, 1, 0, after) && Scored(w, d.seller, 1, 0, after)
            else after == w
  {
    var d, e := w.deals[j], EvFinish(j, user);
    assert DealOk(w, d);
    CallsKeepToTheRules(w, e);
    if May(d, e) {
      PaidOutTo(w, j, e, d.seller, Step(w, e));
      ScoredBy(w, j, e, d.buyer, 1, 0, Step(w, e));
      ScoredBy(w, j, e, d.seller, 1, 0, Step(w, e));
    }
  }
}
