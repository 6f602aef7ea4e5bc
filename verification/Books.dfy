/**
  The books of the platform: in every reachable state each balance is determined by the
  other tables, and what is locked is exactly what open deals and withdrawals hold.
 */
module Books {
  import opened Common
  import opened Money
  import opened Sums
  import opened Tables
  import opened Services

  // ------------------------------------------------------------ who owns what

  /** Statuses in which the buyer's principal sits in `locked`. */
  predicate Holding(s: DealStatus)
  {
    s.PendingConfirmation? || s.InProgress? || s.PendingCancellation? || s.Arbitration?
  }

  /** Statuses in which the principal has been paid out to the seller. */
  predicate PaidOut(s: DealStatus)
  {
    s.Completed? || s.ResolvedForSeller?
  }

  function CommissionTaken(d: Deal): int
  {
    if d.commissionPaid && !d.origin.Legacy? then d.commission else 0
  }

  function HeldByDeal(k: Key): Deal -> int
  {
    (d: Deal) => if BuyerKey(d) == k && Holding(d.status) then d.amount else 0
  }

  function HeldByWithdrawal(k: Key): Withdrawal -> int
  {
    (x: Withdrawal) => if WithdrawalKey(x) == k && x.status.Awaiting? then x.amount else 0
  }

  /** What a deal has moved on the account k: commission and payout off the buyer, payout to the seller. */
  function MovedByDeal(k: Key): Deal -> int
  {
    (d: Deal) =>
      (if BuyerKey(d) == k then -CommissionTaken(d) - (if PaidOut(d.status) then d.amount else 0) else 0)
      + (if SellerKey(d) == k && PaidOut(d.status) then d.amount else 0)
  }

  /** What a deposit row has brought in. */
  function Collected(p: Deposit): int
  {
    if !p.status.Paid? then 0
    else match p.purpose
      case Wallet => p.amount
      case Trust => 0
      case DealTopup => if p.paidAmount.Some? then p.paidAmount.value else 0
  }

  function BroughtIn(k: Key): Deposit -> int
  {
    (p: Deposit) => if Key(p.user, p.currency) == k then Collected(p) else 0
  }

  function SentOut(k: Key): Withdrawal -> int
  {
    (x: Withdrawal) => if WithdrawalKey(x) == k && x.status.Sent? then x.amount else 0
  }

  function LockedFor(w: World, k: Key): int
  {
    Sum(w.deals, HeldByDeal(k)) + Sum(w.withdrawals, HeldByWithdrawal(k))
  }

  /** The account statement of k, computed without looking at the balances. */
  function Statement(w: World, k: Key): int
  {
    Sum(w.deposits, BroughtIn(k)) + Sum(w.deals, MovedByDeal(k)) - Sum(w.withdrawals, SentOut(k))
  }

  ghost predicate Balanced(w: World, k: Key)
  {
    && Bal(w, k).locked == LockedFor(w, k)
    && Bal(w, k).amount + Bal(w, k).locked == Statement(w, k)
    && Bal(w, k).amount >= 0
  }

  // ------------------------------------------------------------- row validity

  predicate Started(s: DealStatus)
  {
    s.InProgress? || s.PendingCancellation? || s.Arbitration? || s.Completed? || Resolved(s)
  }

  predicate Resolved(s: DealStatus)
  {
    s.ResolvedForBuyer? || s.ResolvedForSeller?
  }

  ghost predicate DealOk(w: World, d: Deal)
  {
    && d.buyer in w.users && d.seller in w.users && d.buyer != d.seller
    && d.currency in w.currencies
    && d.amount > 0 && OnGrid(d.amount, GridOf(w, d.currency))
    && d.commission >= 0 && OnGrid(d.commission, GridOf(w, d.currency))
    && (d.origin.TopupFunded? <==> d.topup.Some?)
    && (d.topup.Some? ==> d.topup.value < |w.deposits|)
    && (d.status.PendingTopup? ==> d.origin.TopupFunded?)
    && (!d.origin.TopupFunded? ==> d.commissionPaid)
    && (Started(d.status) ==> d.inProgress)
    && (d.status.PendingTopup? || d.status.PendingConfirmation? ==> !d.inProgress)
    && (d.disputedBy.Some? <==> d.status.Arbitration? || Resolved(d.status))
  }

  ghost predicate DepositOk(w: World, p: Deposit)
  {
    && p.user in w.users && p.currency in w.currencies
    && p.amount >= 0 && OnGrid(p.amount, GridOf(w, p.currency))
    && !p.status.Refunded?
    && (p.purpose.DealTopup? <==> p.deal.Some?)
    && (p.deal.Some? ==>
          && p.deal.value < |w.deals|
          && p.user == w.deals[p.deal.value].buyer
          && p.currency == w.deals[p.deal.value].currency
          && w.deals[p.deal.value].origin.TopupFunded?)
    && (p.purpose.DealTopup? && p.status.Paid? ==>
          p.paidAmount.Some? && p.paidAmount.value >= 0 && OnGrid(p.paidAmount.value, GridOf(w, p.currency)))
  }

  /**
    The request that made x may still give its amount back: it will err, or has, and no
    admin exists to leave it to.
   */
  predicate MayRefund(x: Withdrawal)
  {
    (x.worker.Calling? || x.worker.GotError?) && !x.admins && x.call.Lost?
  }

  ghost predicate WithdrawalOk(w: World, x: Withdrawal)
  {
    && x.user in w.users && x.currency in w.currencies && x.amount >= 0
    && (x.status.Sent? ==> x.call.Shipped?)
    && (x.status.Rejected? ==> x.call.Lost? || x.call.NotSent?)
    && (x.status.Awaiting? <==> x.note.NoNote?)
    && (x.status.Sent? <==> x.note.Transferred? || x.note.SweepSent?)
    && (x.call.InFlight? ==> x.status.Awaiting? && !x.stale)
    && (MayRefund(x) ==> x.status.Awaiting? && !x.stale)
    && (x.worker.Calling? ==> !x.call.NotSent?)
    && (x.worker.GotOk? ==> x.call.Shipped?)
    && (x.worker.GotError? && !x.admins ==> x.call.Lost?)
    && (x.heardYes || x.heardNo ==> x.stale)
    && (x.heardYes ==> x.call.Shipped?)
    && (x.heardNo ==> x.call.Lost? || x.call.NotSent?)
  }

  ghost predicate DealsOk(w: World)
  {
    forall i :: 0 <= i < |w.deals| ==> DealOk(w, w.deals[i])
  }

  ghost predicate DepositsOk(w: World)
  {
    forall i :: 0 <= i < |w.deposits| ==> DepositOk(w, w.deposits[i])
  }

  ghost predicate WithdrawalsOk(w: World)
  {
    forall i :: 0 <= i < |w.withdrawals| ==> WithdrawalOk(w, w.withdrawals[i])
  }

  /** The unique constraint on (provider, provider_invoice_id). */
  ghost predicate InvoicesDistinct(deposits: seq<Deposit>)
  {
    forall i, j :: 0 <= i < j < |deposits| ==>
                     !(deposits[i].provider == deposits[j].provider && deposits[i].invoice == deposits[j].invoice)
  }

  /** So an invoice is found at its own row. */
  lemma InvoiceFound(deposits: seq<Deposit>, at: nat)
    requires at < |deposits| && InvoicesDistinct(deposits)
    ensures FindDeposit(deposits, deposits[at].provider, deposits[at].invoice) == Some(at)
  {
    var found := FindDeposit(deposits, deposits[at].provider, deposits[at].invoice);
    assert found.Some?;
  }

  ghost predicate Valid(w: World)
  {
    && DealsOk(w) && DepositsOk(w) && WithdrawalsOk(w) && InvoicesDistinct(w.deposits)
    && forall k :: Balanced(w, k)
  }

  // -------------------------------------------------- what the runs assume

  /** A provider never reports a negative payment. */
  predicate Sane(r: Reported)
  {
    r.Reported? ==> r.value.num >= 0
  }

  /**
    The assumptions on the outside world: providers report no negative payment; a row grows
    stale neither while its transfer may still ship nor while its request may still refund
    it; and a call that errs when no admin exists is lost.
   */
  predicate Assumed(w: World, e: Event)
  {
    match e
    case EvInvoicePaid(_, _, r, _) => Sane(r)
    case EvCrystalpayNotice(_, _, r, _) => Sane(r)
    case EvOutside(at, o) =>
      at < |w.withdrawals| ==>
        var x := w.withdrawals[at];
        && (o.GrowStale? ==> !x.call.InFlight? && !MayRefund(x))
        && (o.ReplyError? && x.worker.Calling? && !x.admins ==> x.call.Lost?)
    case _ => true
  }

  // --------------------------------------------------------- local conditions

  predicate SameTerms(a: Deal, b: Deal)
  {
    && a.buyer == b.buyer && a.seller == b.seller && a.currency == b.currency && a.amount == b.amount
    && a.commission == b.commission && a.origin == b.origin
  }

  predicate SameInvoice(a: Deposit, b: Deposit)
  {
    && a.user == b.user && a.currency == b.currency && a.provider == b.provider && a.invoice == b.invoice
    && a.purpose == b.purpose && a.deal == b.deal && a.seen == b.seen
  }

  /** The rows an effect writes are valid in the world it makes. */
  ghost predicate RowsFit(w: World, e: Effect)
  {
    var after := Apply(w, e);
    && (e.deal.Put? ==>
          && e.deal.at <= |w.deals| && DealOk(after, e.deal.row)
          && (e.deal.at < |w.deals| ==> SameTerms(w.deals[e.deal.at], e.deal.row)))
    && (e.deposit.Put? ==>
          && e.deposit.at < |w.deposits| && DepositOk(after, e.deposit.row)
          && SameInvoice(w.deposits[e.deposit.at], e.deposit.row))
    && (e.invoice.Put? ==>
          && e.invoice.at == |w.deposits| && DepositOk(after, e.invoice.row)
          && FindDeposit(w.deposits, e.invoice.row.provider, e.invoice.row.invoice).None?)
    && (e.withdrawal.Put? ==> e.withdrawal.at <= |w.withdrawals| && WithdrawalOk(after, e.withdrawal.row))
  }

  /** The postings of an effect at account k match the rows it writes. */
  ghost predicate Fits(w: World, e: Effect, k: Key)
  {
    var amount := AmountAt(e.first, k) + AmountAt(e.second, k);
    var locked := LockedAt(e.first, k) + LockedAt(e.second, k);
    && locked == Change(w.deals, e.deal, HeldByDeal(k)) + Change(w.withdrawals, e.withdrawal, HeldByWithdrawal(k))
    && amount + locked == Change(w.deals, e.deal, MovedByDeal(k)) - Change(w.withdrawals, e.withdrawal, SentOut(k))
                          + Change(w.deposits, e.deposit, BroughtIn(k))
                          + Change(Written(w.deposits, e.deposit), e.invoice, BroughtIn(k))
    && Bal(w, k).amount + amount >= 0
  }

  lemma FittingKeepsBalance(w: World, e: Effect, k: Key)
    requires Balanced(w, k) && Fits(w, e, k)
    ensures Balanced(Apply(w, e), k)
  {
    ApplyMovesBalance(w, e, k);
    ApplySums(w, e, HeldByDeal(k), BroughtIn(k), HeldByWithdrawal(k));
    ApplySums(w, e, MovedByDeal(k), BroughtIn(k), SentOut(k));
  }

  lemma FittingKeepsDeals(w: World, e: Effect)
    requires DealsOk(w) && RowsFit(w, e)
    ensures DealsOk(Apply(w, e))
  {
    var after := Apply(w, e);
    ApplyKeepsUsers(w, e);
    forall i | 0 <= i < |after.deals| ensures DealOk(after, after.deals[i]) {
      if i < |w.deals| { assert DealOk(w, w.deals[i]); }
    }
  }

  lemma FittingKeepsDeposits(w: World, e: Effect)
    requires DealsOk(w) && DepositsOk(w) && InvoicesDistinct(w.deposits) && RowsFit(w, e)
    ensures DepositsOk(Apply(w, e)) && InvoicesDistinct(Apply(w, e).deposits)
  {
    var after := Apply(w, e);
    ApplyKeepsUsers(w, e);
    forall i | 0 <= i < |after.deposits| ensures DepositOk(after, after.deposits[i]) {
      if i < |w.deposits| { assert DepositOk(w, w.deposits[i]); }
    }
  }

  lemma FittingKeepsWithdrawals(w: World, e: Effect)
    requires WithdrawalsOk(w) && RowsFit(w, e)
    ensures WithdrawalsOk(Apply(w, e))
  {
    var after := Apply(w, e);
    ApplyKeepsUsers(w, e);
    forall i | 0 <= i < |after.withdrawals| ensures WithdrawalOk(after, after.withdrawals[i]) {
      if i < |w.withdrawals| { assert WithdrawalOk(w, w.withdrawals[i]); }
    }
  }

  lemma FittingKeepsValid(w: World, e: Effect)
    requires Valid(w) && RowsFit(w, e) && forall k :: Fits(w, e, k)
    ensures Valid(Apply(w, e))
  {
    FittingKeepsDeals(w, e);
    FittingKeepsDeposits(w, e);
    FittingKeepsWithdrawals(w, e);
    forall k ensures Balanced(Apply(w, e), k) {
      FittingKeepsBalance(w, e, k);
    }
  }

  /** The clamps never bite: the balance covers every open deal and withdrawal. */
  lemma {:induction false} LockCoversDeal(w: World, at: nat)
    requires Valid(w) && at < |w.deals| && Holding(w.deals[at].status)
    ensures Bal(w, BuyerKey(w.deals[at])).locked >= w.deals[at].amount
    ensures Unlock(Bal(w, BuyerKey(w.deals[at])), w.deals[at].amount) == -w.deals[at].amount
  {
    var k := BuyerKey(w.deals[at]);
    assert Balanced(w, k);
    assert DealsOk(w) && WithdrawalsOk(w);
    SumAtLeast(w.deals, at, HeldByDeal(k));
    SumNonNegative(w.withdrawals, HeldByWithdrawal(k));
  }

  lemma {:induction false} LockCoversWithdrawal(w: World, at: nat)
    requires Valid(w) && at < |w.withdrawals| && w.withdrawals[at].status.Awaiting?
    ensures Bal(w, WithdrawalKey(w.withdrawals[at])).locked >= w.withdrawals[at].amount
    ensures Unlock(Bal(w, WithdrawalKey(w.withdrawals[at])), w.withdrawals[at].amount) == -w.withdrawals[at].amount
  {
    var k := WithdrawalKey(w.withdrawals[at]);
    assert Balanced(w, k);
    assert DealsOk(w) && WithdrawalsOk(w);
    SumAtLeast(w.withdrawals, at, HeldByWithdrawal(k));
    SumNonNegative(w.deals, HeldByDeal(k));
  }
}
