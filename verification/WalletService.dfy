/** Deposits, webhook handlers and withdrawals, statement by statement, against their plans. */
module WalletService {
  import opened Common
  import opened Money
  import opened Sums
  import opened Tables
  import opened Services
  import opened Database
  import InvoiceService
  import TopupService

  // ---------------------------------------------------------------- deposits

  /** create_deposit_invoice as the wallet page calls it. */
  method OpenDeposit(db: Db, user: nat, currency: nat, amount: Asked, trust: bool, provider: Provider,
                     issued: Option<nat>)
    returns (failure: Option<Error>)
    modifies db
    ensures Commits(old(db.State()),
                    Services.OpenDeposit(old(db.State()), user, currency, amount, trust, provider, issued),
                    db.State(), failure)
  {
    if user !in db.users || currency !in db.currencies { return Some(NotFound); }
    if amount.NotFinite? { return Some(BadAmount); }
    var sum := Quantize(amount.value, GridStep(db.currencies[currency].decimals));
    if sum < db.currencies[currency].minDeposit { return Some(BelowMinimum); }
    var purpose := if trust then Trust else Wallet;
    failure := InvoiceService.AddInvoice(db, Deposit(user, currency, sum, provider, 0, Pending, purpose, None, None, 0),
                                         issued);
  }

  /** The trust branch of credit_deposit. */
  method CreditTrust(db: Db, at: nat, sum: int, reported: Option<int>)
    requires at < |db.deposits| && db.deposits[at].user in db.users
    modifies db
    ensures var p := old(db.deposits)[at];
            db.State() == Apply(old(db.State()), NOTHING.(
                                  deposit := Put(at, p.(status := Paid, amount := sum, paidAmount := reported)),
                                  trust := TrustCredit(p.user, p.currency, sum, at)))
  {
    ghost var begun := db.State();
    var p := db.deposits[at];
    var user := db.users[p.user];
    var before := user.trust;
    var after := before + sum;
    db.users := db.users[p.user := user.(trust := after)];
    db.deposits := db.deposits[at := p.(status := Paid, amount := sum, paidAmount := reported)];
    db.RecordSyntheticLedger(Key(p.user, p.currency), before, after, FromDeposit(at));
    AllWritten(begun, NOTHING.(deposit := Put(at, p.(status := Paid, amount := sum, paidAmount := reported)),
                               trust := TrustCredit(p.user, p.currency, sum, at)), db.State());
  }

  /** The wallet branch of credit_deposit. */
  method CreditWallet(db: Db, at: nat, sum: int, reported: Option<int>)
    requires at < |db.deposits|
    modifies db
    ensures var p := old(db.deposits)[at];
            db.State() == Apply(old(db.State()), NOTHING.(
                                  deposit := Put(at, p.(status := Paid, amount := sum, paidAmount := reported)),
                                  first := Posting(Key(p.user, p.currency), sum, 0, DepositWalletCredit,
                                                   FromDeposit(at), None, true)))
  {
    ghost var begun := db.State();
    var p := db.deposits[at];
    var k := Key(p.user, p.currency);
    var b := db.LockUserBalance(k);
    db.Store(k, b, b.(amount := b.amount + sum), DepositWalletCredit, FromDeposit(at), None);
    db.deposits := db.deposits[at := p.(status := Paid, amount := sum, paidAmount := reported)];
    ghost var e := NOTHING.(deposit := Put(at, p.(status := Paid, amount := sum, paidAmount := reported)),
                            first := Posting(k, sum, 0, DepositWalletCredit, FromDeposit(at), None, true));
    assert db.balances == PostBalance(begun.balances, e.first);
    AllWritten(begun, e, db.State());
  }

  method CreditDeposit(db: Db, at: nat, paid: Option<Raw>, reissued: Option<nat>) returns (failure: Option<Error>)
    requires at < |db.deposits|
    modifies db
    ensures Commits(old(db.State()), Services.CreditDeposit(old(db.State()), at, paid, reissued), db.State(), failure)
  {
    var p := db.deposits[at];
    if p.status.Paid? { return None; }
    if p.purpose.DealTopup? {
      failure := TopupService.CompleteDealTopupPayment(db, at, paid, reissued);
      return;
    }
    var decimals := if p.currency in db.currencies then db.currencies[p.currency].decimals else 8;
    var sum := Q(p.amount, GridStep(decimals));
    var reported := p.paidAmount;
    if paid.Some? {
      var seen := Quantize(paid.value, GridStep(decimals));
      reported := Some(seen);
      if seen > sum {
        sum := seen;
      }
    }
    if p.purpose.Trust? {
      if p.user !in db.users { return Some(NotFound); }
      CreditTrust(db, at, sum, reported);
    } else {
      CreditWallet(db, at, sum, reported);
    }
    failure := None;
  }

  /** Flip a pending row to expired; the same steps in the webhooks, the poll and the sweep. */
  method Expire(db: Db, at: nat) returns (failure: Option<Error>)
    requires at < |db.deposits|
    modifies db`deposits
    ensures Commits(old(db.State()), Services.Expire(old(db.State()), at), db.State(), failure)
  {
    var p := db.deposits[at];
    if p.status.Pending? {
      db.deposits := db.deposits[at := p.(status := Expired)];
    }
    failure := None;
  }

  /** _lock_and_credit_deposit: the poll saw the invoice paid. */
  method LockAndCredit(db: Db, at: nat, reissued: Option<nat>) returns (failure: Option<Error>)
    modifies db
    ensures Commits(old(db.State()), PollPaid(old(db.State()), at, reissued), db.State(), failure)
  {
    if at >= |db.deposits| { return Some(NotFound); }
    if !db.deposits[at].status.Pending? { return None; }
    failure := CreditDeposit(db, at, None, reissued);
  }

  /** _lock_and_expire_deposit: the poll saw the invoice closed. */
  method LockAndExpire(db: Db, at: nat) returns (failure: Option<Error>)
    modifies db`deposits
    ensures Commits(old(db.State()), ExpireDeposit(old(db.State()), at), db.State(), failure)
  {
    if at >= |db.deposits| { return Some(NotFound); }
    failure := Expire(db, at);
  }

  // ---------------------------------------------------------------- webhooks

  method CreditReported(db: Db, at: nat, reported: Reported, reissued: Option<nat>) returns (failure: Option<Error>)
    requires at < |db.deposits|
    modifies db
    ensures Commits(old(db.State()), Services.CreditReported(old(db.State()), at, reported, reissued), db.State(),
                    failure)
  {
    if reported.NonFinite? { return Some(Aborted); }
    if !db.deposits[at].purpose.DealTopup? && !AmountsMatch(reported, db.deposits[at].amount) {
      return Some(AmountMismatch);
    }
    var paid := if reported.Reported? then Some(reported.value) else None;
    failure := CreditDeposit(db, at, paid, reissued);
  }

  method HandleInvoicePaid(db: Db, statusPaid: bool, invoice: Option<nat>, reported: Reported, reissued: Option<nat>)
    returns (failure: Option<Error>)
    modifies db
    ensures Commits(old(db.State()), InvoicePaid(old(db.State()), statusPaid, invoice, reported, reissued), db.State(),
                    failure)
  {
    if !statusPaid { return Some(NotPaid); }
    if invoice.None? { return Some(MissingInvoice); }
    var at := InvoiceService.Lookup(db, CryptoBot, invoice.value);
    if at.None? { return Some(UnknownInvoice); }
    if db.deposits[at.value].status.Paid? { return None; }
    failure := CreditReported(db, at.value, reported, reissued);
  }

  method HandleInvoiceExpired(db: Db, invoice: Option<nat>) returns (failure: Option<Error>)
    modifies db
    ensures Commits(old(db.State()), InvoiceExpired(old(db.State()), invoice), db.State(), failure)
  {
    if invoice.None? { return Some(MissingInvoice); }
    var at := InvoiceService.Lookup(db, CryptoBot, invoice.value);
    if at.None? { return Some(UnknownInvoice); }
    failure := Expire(db, at.value);
  }

  method HandleCrystalpayInvoice(db: Db, invoice: Option<nat>, state: CrystalState, reported: Reported,
                                 reissued: Option<nat>)
    returns (failure: Option<Error>)
    modifies db
    ensures Commits(old(db.State()), CrystalpayNotice(old(db.State()), invoice, state, reported, reissued), db.State(),
                    failure)
  {
    if invoice.None? { return Some(MissingInvoice); }
    var found := InvoiceService.Lookup(db, Crystalpay, invoice.value);
    if found.None? { return Some(UnknownInvoice); }
    var at := found.value;
    match state
    case Payed =>
      if db.deposits[at].status.Paid? { return None; }
      if !db.deposits[at].status.Pending? { return Some(NotPending); }
      failure := CreditReported(db, at, reported, reissued);
    case Unavailable => failure := Expire(db, at);
    case Failed => failure := Expire(db, at);
    case OtherState => failure := None;
  }
}
