/**
  The services behind one entry point: every call a run may contain, made on the tables, is one
  step of that run and keeps the books in order.
 */
module Platform {
  import opened Common
  import opened Sums
  import opened Tables
  import opened Services
  import opened Books
  import opened Safety
  import opened Database
  import DealService
  import WalletService
  import WithdrawalService

  /** No deal of a valid database is between a user and himself. */
  lemma TwoParties(w: World, deal: nat)
    requires Valid(w)
    ensures deal < |w.deals| ==> w.deals[deal].buyer != w.deals[deal].seller
  {
    if deal < |w.deals| {
      assert DealOk(w, w.deals[deal]);
    }
  }

  /** One row of sweep_pending_topup, picked again by its status. */
  method ExpirePendingTopup(db: Db, deal: nat) returns (failure: Option<Error>)
    modifies db
    ensures Commits(old(db.State()), Services.ExpirePendingTopup(old(db.State()), deal), db.State(), failure)
  {
    if deal >= |db.deals| { return Some(NotFound); }
    if !db.deals[deal].status.PendingTopup? { return Some(WrongStatus); }
    DealService.CloseTopup(db, deal, CancelledForInactivity);
    failure := None;
  }

  /** One row of sweep_inactivity, picked again by its status. */
  method RefundInactive(db: Db, deal: nat) returns (failure: Option<Error>)
    modifies db
    ensures Commits(old(db.State()), Services.RefundInactive(old(db.State()), deal), db.State(), failure)
  {
    if deal >= |db.deals| { return Some(NotFound); }
    if db.deals[deal].status.PendingConfirmation? {
      failure := DealService.Refund(db, deal, CancelledForInactivity, NoBump);
    } else if db.deals[deal].status.PendingCancellation? {
      failure := DealService.Refund(db, deal, Cancelled, NoBump);
    } else {
      failure := Some(WrongStatus);
    }
  }

  /** A step of the outside world on one withdrawal. */
  method Happen(db: Db, at: nat, o: Outside) returns (failure: Option<Error>)
    modifies db`withdrawals
    ensures Commits(old(db.State()), Services.Happen(old(db.State()), at, o), db.State(), failure)
  {
    var plan := Services.Happen(db.State(), at, o);
    if plan.Err? { return Some(plan.error); }
    db.withdrawals := Written(db.withdrawals, plan.value.withdrawal);
    failure := None;
  }

  // --------------------------------------------------------------- one call each

  method HandleDeal(db: Db, e: Event) returns (failure: Option<Error>)
    requires !OnDeposit(e) && !OnWithdrawal(e) && Valid(db.State())
    modifies db
    ensures Commits(old(db.State()), DealPlan(old(db.State()), e), db.State(), failure)
  {
    match e
    case EvCreateDeal(o, t) => failure := DealService.CreateDeal(db, o, t);
    case EvCreateDealWithTopup(o, t, i) => failure := DealService.CreateDealWithTopup(db, o, t, i);
    case EvCancelPendingTopup(d, u) => failure := DealService.CancelPendingTopup(db, d, u);
    case EvExpirePendingTopup(d) => failure := ExpirePendingTopup(db, d);
    case EvAccept(d, u) => failure := DealService.AcceptDeal(db, d, u);
    case EvDecline(d, u) => failure := DealService.DeclineDeal(db, d, u);
    case EvFinish(d, u) =>
      TwoParties(db.State(), d);
      failure := DealService.FinishDeal(db, d, u);
    case EvRequestCancel(d, u) => failure := DealService.RequestCancel(db, d, u);
    case EvRevokeCancel(d, u) => failure := DealService.RevokeCancel(db, d, u);
    case EvAcceptCancel(d, u) => failure := DealService.AcceptCancel(db, d, u);
    case EvStartArbitration(d, u, r) => failure := DealService.StartArbitration(db, d, u, r);
    case EvResolveArbitration(d, n, v) =>
      TwoParties(db.State(), d);
      failure := DealService.ResolveArbitration(db, d, n, v);
    case EvRefundInactive(d) => failure := RefundInactive(db, d);
    case EvOpenDeposit(u, c, a, t, p, i) => failure := WalletService.OpenDeposit(db, u, c, a, t, p, i);
  }

  method HandleDeposit(db: Db, e: Event) returns (failure: Option<Error>)
    requires OnDeposit(e)
    modifies db
    ensures Commits(old(db.State()), DepositPlan(old(db.State()), e), db.State(), failure)
  {
    match e
    case EvInvoicePaid(s, n, r, i) => failure := WalletService.HandleInvoicePaid(db, s, n, r, i);
    case EvInvoiceExpired(n) => failure := WalletService.HandleInvoiceExpired(db, n);
    case EvCrystalpayNotice(n, s, r, i) => failure := WalletService.HandleCrystalpayInvoice(db, n, s, r, i);
    case EvPollPaid(p, i) => failure := WalletService.LockAndCredit(db, p, i);
    case EvExpireDeposit(p) => failure := WalletService.LockAndExpire(db, p);
  }

  method HandleWithdrawal(db: Db, e: Event) returns (failure: Option<Error>)
    requires OnWithdrawal(e)
    modifies db
    ensures Commits(old(db.State()), WithdrawalPlan(old(db.State()), e), db.State(), failure)
  {
    match e
    case EvRequestWithdrawal(u, c, a, f, n, m) => failure := WithdrawalService.RequestWithdrawal(db, u, c, a, f, n, m);
    case EvFinishSent(x) => failure := WithdrawalService.FinishSent(db, x);
    case EvFinishFailed(x) => failure := WithdrawalService.FinishFailed(db, x);
    case EvAskProvider(x) =>
      var _, refused := WithdrawalService.AskProvider(db, x);
      failure := refused;
    case EvReconcile(x, m) => failure := WithdrawalService.Reconcile(db, x, m);
    case EvOutside(x, o) => failure := Happen(db, x, o);
  }

  /** Any call, whatever its outcome, is one step of the run, and within the assumptions it keeps the books in order. */
  method Handle(db: Db, e: Event) returns (failure: Option<Error>)
    requires Valid(db.State())
    modifies db
    ensures Commits(old(db.State()), PlanOf(old(db.State()), e), db.State(), failure)
    ensures db.State() == Step(old(db.State()), e)
    ensures Assumed(old(db.State()), e) ==> Valid(db.State())
  {
    ghost var w := db.State();
    if OnDeposit(e) {
      failure := HandleDeposit(db, e);
    } else if OnWithdrawal(e) {
      failure := HandleWithdrawal(db, e);
    } else {
      failure := HandleDeal(db, e);
    }
    CommitIsStep(w, e, PlanOf(w, e), db.State(), failure);
    if Assumed(w, e) {
      StepKeepsValid(w, e);
    }
  }

  /**
    The platform serves a fair series of calls: its tables go through the run, and their
    books balance at every point.
   */
  method Serve(db: Db, events: seq<Event>)
    requires Valid(db.State()) && Fair(db.State(), events)
    modifies db
    ensures db.State() == Run(old(db.State()), events) && Valid(db.State())
  {
    ghost var begun := db.State();
    for i := 0 to |events|
      invariant Valid(db.State()) && db.State() == Run(begun, events[..i])
    {
      FairPrefix(begun, events, i);
      assert events[..i + 1][..i] == events[..i];
      var _ := Handle(db, events[i]);
    }
    assert events[..|events|] == events;
  }
}
