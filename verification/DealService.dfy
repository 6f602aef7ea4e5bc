/** The deal services, statement by statement, against their plans. */
module DealService {
  import opened Common
  import opened Money
  import opened Sums
  import opened Tables
  import opened Services
  import opened Database
  import InvoiceService

  /** _debit: take the principal from `amount` into `locked`. */
  method Debit(db: Db, k: Key, amount: int) returns (failure: Option<Error>)
    modifies db`balances, db`ledger
    ensures var b := BalanceOf(old(db.balances), k);
            if b.amount < amount then
              failure == Some(InsufficientFunds(amount, b.amount, amount - b.amount)) && db.ledger == old(db.ledger)
            else failure.None? && Posts(old(db.balances), old(db.ledger), db.balances, db.ledger,
                                        Posting(k, -amount, amount, DealLock, FromDeal(None), None, true))
  {
    var before := db.LockUserBalance(k);
    if before.amount < amount {
      return Some(InsufficientFunds(amount, before.amount, amount - before.amount));
    }
    db.Store(k, before, Balance(before.amount - amount, before.locked + amount), DealLock, FromDeal(None), None);
    failure := None;
  }

  /** _refund_principal: unlock the principal, clamping at zero, and credit it back. */
  method RefundPrincipal(db: Db, k: Key, principal: int)
    modifies db`balances, db`ledger
    ensures Posts(old(db.balances), old(db.ledger), db.balances, db.ledger,
                  Posting(k, principal, Unlock(BalanceOf(old(db.balances), k), principal),
                          DealRefundPrincipal, FromDeal(None), None, true))
  {
    var before := db.LockUserBalance(k);
    var b := before.(locked := Max(0, before.locked - principal));
    b := b.(amount := b.amount + principal);
    db.Store(k, before, b, DealRefundPrincipal, FromDeal(None), None);
    assert b.amount - before.amount == principal;
    assert b.locked - before.locked == Unlock(before, principal);
  }

  /** The two locks of _release_to, taken in ascending user id and then handed out as payer and payee. */
  method LockPair(db: Db, payer: nat, payee: nat, currency: nat) returns (from: Balance, to: Balance)
    requires payer != payee
    modifies db`balances
    ensures from == BalanceOf(old(db.balances), Key(payer, currency))
    ensures to == BalanceOf(old(db.balances), Key(payee, currency))
    ensures db.balances == old(db.balances)[Key(payer, currency) := from][Key(payee, currency) := to]
  {
    var firstId, secondId := if payer < payee then payer else payee, if payer < payee then payee else payer;
    var first := db.LockUserBalance(Key(firstId, currency));
    var second := db.LockUserBalance(Key(secondId, currency));
    from, to := if payer == firstId then first else second, if payer == firstId then second else first;
  }

  /** _release_to: lock both rows, then debit the payer and credit the payee. */
  method ReleaseTo(db: Db, payer: nat, payee: nat, currency: nat, locked: int, payout: int)
    requires payer != payee
    modifies db`balances, db`ledger
    ensures var p := Posting(Key(payer, currency), 0, Unlock(BalanceOf(old(db.balances), Key(payer, currency)), locked),
                             DealReleaseDebit, FromDeal(None), None, true);
            var q := Posting(Key(payee, currency), payout, 0, DealReleaseCredit, FromDeal(None), None, true);
            && db.balances == PostBalance(PostBalance(old(db.balances), p), q)
            && db.ledger == PostLedger(PostBalance(old(db.balances), p),
                                       PostLedger(old(db.balances), old(db.ledger), p), q)
  {
    ghost var begun := db.balances;
    var from, to := LockPair(db, payer, payee, currency);
    var fromNow := from.(locked := Max(0, from.locked - locked));
    var toNow := to.(amount := to.amount + payout);
    ghost var p := Posting(Key(payer, currency), 0, Unlock(from, locked), DealReleaseDebit, FromDeal(None), None, true);
    ghost var q := Posting(Key(payee, currency), payout, 0, DealReleaseCredit, FromDeal(None), None, true);
    LockingPostsTheSame(begun, db.balances, db.ledger, p, q);
    assert fromNow.amount - from.amount == 0 && fromNow.locked - from.locked == Unlock(from, locked);
    assert toNow.amount - to.amount == payout && toNow.locked - to.locked == 0;
    db.Store(Key(payer, currency), from, fromNow, DealReleaseDebit, FromDeal(None), None);
    db.Store(Key(payee, currency), to, toNow, DealReleaseCredit, FromDeal(None), None);
  }

  /** Locking a missing row inserts zeros, which no later posting can tell. */
  lemma LockingPostsTheSame(begun: map<Key, Balance>, locked: map<Key, Balance>, ledger: seq<Entry>, p: Posting,
                            q: Posting)
    requires p.Posting? && q.Posting? && p.key != q.key
    requires locked == begun[p.key := BalanceOf(begun, p.key)][q.key := BalanceOf(begun, q.key)]
    ensures PostBalance(PostBalance(locked, p), q) == PostBalance(PostBalance(begun, p), q)
    ensures PostLedger(locked, ledger, p) == PostLedger(begun, ledger, p)
    ensures forall l :: PostLedger(PostBalance(locked, p), l, q) == PostLedger(PostBalance(begun, p), l, q)
  {
  }

  /** Refund `amount` to the buyer of a deal and close it. */
  method RefundAndClose(db: Db, deal: nat, amount: int, closed: DealStatus, bump: Bump)
    requires deal < |db.deals|
    modifies db
    ensures var d := old(db.deals)[deal];
            db.State() == Apply(old(db.State()), NOTHING.(first := RefundPosting(old(db.State()), d, amount),
                                                          deal := Put(deal, d.(status := closed)), bump := bump))
  {
    var d := db.deals[deal];
    ghost var begun := db.State();
    ghost var p := RefundPosting(begun, d, amount);
    RefundPrincipal(db, BuyerKey(d), amount);
    assert Posts(begun.balances, begun.ledger, db.balances, db.ledger, p);
    db.deals := db.deals[deal := d.(status := closed)];
    db.BumpUsers(bump);
    AllWritten(begun, NOTHING.(first := p, deal := Put(deal, d.(status := closed)), bump := bump), db.State());
  }

  /** Pay `amount` out to the seller of a deal and close it. */
  method ReleaseAndClose(db: Db, deal: nat, amount: int, closed: DealStatus, bump: Bump)
    requires deal < |db.deals| && db.deals[deal].buyer != db.deals[deal].seller
    modifies db
    ensures var d := old(db.deals)[deal];
            db.State() == Apply(old(db.State()), NOTHING.(first := ReleaseDebit(old(db.State()), d, amount),
                                                          second := ReleaseCredit(d, amount),
                                                          deal := Put(deal, d.(status := closed)), bump := bump))
  {
    var d := db.deals[deal];
    ghost var begun := db.State();
    ghost var p, q := ReleaseDebit(begun, d, amount), ReleaseCredit(d, amount);
    ReleaseTo(db, d.buyer, d.seller, d.currency, amount, amount);
    assert db.balances == PostBalance(PostBalance(begun.balances, p), q);
    assert db.ledger == PostLedger(PostBalance(begun.balances, p), PostLedger(begun.balances, begun.ledger, p), q);
    db.deals := db.deals[deal := d.(status := closed)];
    db.BumpUsers(bump);
    AllWritten(begun, NOTHING.(first := p, second := q, deal := Put(deal, d.(status := closed)), bump := bump),
               db.State());
  }

  /** The part that every refunding step shares: price the deal, refund its buyer, close it. */
  method Refund(db: Db, deal: nat, closed: DealStatus, bump: Bump) returns (failure: Option<Error>)
    requires deal < |db.deals| && Activated(db.deals[deal].status) && !closed.PendingTopup?
    modifies db
    ensures Commits(old(db.State()), Services.Refund(old(db.State()), deal, closed, bump), db.State(), failure)
  {
    var d := db.deals[deal];
    if d.currency !in db.currencies { return Some(CurrencyVanished); }
    var amount := Q(d.amount, GridStep(db.currencies[d.currency].decimals));
    RefundAndClose(db, deal, amount, closed, bump);
    failure := None;
  }

  /** The part that both paying steps share: price the deal, pay its seller, close it. */
  method Release(db: Db, deal: nat, closed: DealStatus, bump: Bump) returns (failure: Option<Error>)
    requires deal < |db.deals| && Activated(db.deals[deal].status) && !closed.PendingTopup?
    requires db.deals[deal].buyer != db.deals[deal].seller
    modifies db
    ensures Commits(old(db.State()), Services.Release(old(db.State()), deal, closed, bump), db.State(), failure)
  {
    var d := db.deals[deal];
    if d.currency !in db.currencies { return Some(CurrencyVanished); }
    var amount := Q(d.amount, GridStep(db.currencies[d.currency].decimals));
    ReleaseAndClose(db, deal, amount, closed, bump);
    failure := None;
  }

  method AcceptDeal(db: Db, deal: nat, user: nat) returns (failure: Option<Error>)
    modifies db
    ensures Commits(old(db.State()), Services.AcceptDeal(old(db.State()), deal, user), db.State(), failure)
  {
    if deal >= |db.deals| { return Some(NotFound); }
    var d := db.deals[deal];
    if user != d.seller { return Some(WrongUser); }
    if !d.status.PendingConfirmation? { return Some(WrongStatus); }
    db.deals := db.deals[deal := d.(status := InProgress, inProgress := true)];
    db.BumpUsers(Both(d, Tally(1, 0, 0, 0)));
    failure := None;
  }

  method DeclineDeal(db: Db, deal: nat, user: nat) returns (failure: Option<Error>)
    modifies db
    ensures Commits(old(db.State()), Services.DeclineDeal(old(db.State()), deal, user), db.State(), failure)
  {
    if deal >= |db.deals| { return Some(NotFound); }
    if user != db.deals[deal].seller { return Some(WrongUser); }
    if !db.deals[deal].status.PendingConfirmation? { return Some(WrongStatus); }
    failure := Refund(db, deal, Cancelled, NoBump);
  }

  method FinishDeal(db: Db, deal: nat, user: nat) returns (failure: Option<Error>)
    requires deal < |db.deals| ==> db.deals[deal].buyer != db.deals[deal].seller
    modifies db
    ensures Commits(old(db.State()), Services.FinishDeal(old(db.State()), deal, user), db.State(), failure)
  {
    if deal >= |db.deals| { return Some(NotFound); }
    if user != db.deals[deal].buyer { return Some(WrongUser); }
    if !db.deals[deal].status.InProgress? { return Some(WrongStatus); }
    failure := Release(db, deal, Completed, Both(db.deals[deal], Tally(0, 0, 1, 0)));
  }

  method RequestCancel(db: Db, deal: nat, user: nat) returns (failure: Option<Error>)
    modifies db
    ensures Commits(old(db.State()), Services.RequestCancel(old(db.State()), deal, user), db.State(), failure)
  {
    if deal >= |db.deals| { return Some(NotFound); }
    var d := db.deals[deal];
    if user != d.buyer && user != d.seller { return Some(WrongUser); }
    if !d.status.InProgress? { return Some(WrongStatus); }
    db.deals := db.deals[deal := d.(status := PendingCancellation, cancelBy := Some(user))];
    failure := None;
  }

  method RevokeCancel(db: Db, deal: nat, user: nat) returns (failure: Option<Error>)
    modifies db
    ensures Commits(old(db.State()), Services.RevokeCancel(old(db.State()), deal, user), db.State(), failure)
  {
    if deal >= |db.deals| { return Some(NotFound); }
    var d := db.deals[deal];
    if !d.status.PendingCancellation? { return Some(WrongStatus); }
    if d.cancelBy != Some(user) { return Some(WrongUser); }
    db.deals := db.deals[deal := d.(status := InProgress, cancelBy := None)];
    failure := None;
  }

  method AcceptCancel(db: Db, deal: nat, user: nat) returns (failure: Option<Error>)
    modifies db
    ensures Commits(old(db.State()), Services.AcceptCancel(old(db.State()), deal, user), db.State(), failure)
  {
    if deal >= |db.deals| { return Some(NotFound); }
    var d := db.deals[deal];
    if !d.status.PendingCancellation? { return Some(WrongStatus); }
    if user != d.buyer && user != d.seller { return Some(WrongUser); }
    if d.cancelBy == Some(user) { return Some(WrongUser); }
    failure := Refund(db, deal, Cancelled, NoBump);
  }

  method StartArbitration(db: Db, deal: nat, user: nat, reasonGiven: bool) returns (failure: Option<Error>)
    modifies db
    ensures Commits(old(db.State()), Services.StartArbitration(old(db.State()), deal, user, reasonGiven), db.State(),
                    failure)
  {
    if deal >= |db.deals| { return Some(NotFound); }
    var d := db.deals[deal];
    if user != d.buyer && user != d.seller { return Some(WrongUser); }
    if !d.status.InProgress? && !d.status.PendingCancellation? { return Some(WrongStatus); }
    if !reasonGiven { return Some(NoReason); }
    db.deals := db.deals[deal := d.(status := Arbitration, disputedBy := Some(user))];
    db.BumpUsers(Both(d, Tally(0, 1, 0, 0)));
    failure := None;
  }

  method ResolveArbitration(db: Db, deal: nat, entitled: bool, verdict: Verdict) returns (failure: Option<Error>)
    requires deal < |db.deals| ==> db.deals[deal].buyer != db.deals[deal].seller
    modifies db
    ensures Commits(old(db.State()), Services.ResolveArbitration(old(db.State()), deal, entitled, verdict), db.State(),
                    failure)
  {
    if deal >= |db.deals| { return Some(NotFound); }
    if !entitled { return Some(NotEntitled); }
    var d := db.deals[deal];
    if !d.status.Arbitration? { return Some(WrongStatus); }
    var won, lost := Tally(0, 0, 1, 0), Tally(0, 0, 0, 1);
    match verdict
    case ForBuyer => failure := Refund(db, deal, ResolvedForBuyer, Bump(d.buyer, won, d.seller, lost));
    case ForSeller => failure := Release(db, deal, ResolvedForSeller, Bump(d.buyer, lost, d.seller, won));
    case Unknown => failure := Some(BadVerdict);
  }

  // ---------------------------------------------------------- deal creation

  /** The checks and the rounding that both creating calls start with. */
  method PriceOffer(db: Db, o: Offer) returns (r: Result<int, Error>)
    ensures r == Principal(db.State(), o)
  {
    if o.buyer !in db.users || o.seller !in db.users { return Err(NotFound); }
    if o.buyer == o.seller { return Err(SelfDeal); }
    if o.currency !in db.currencies { return Err(NotFound); }
    if o.amount.NotFinite? || o.amount.value.num <= 0 { return Err(BadAmount); }
    var amount := Quantize(o.amount.value, GridStep(db.currencies[o.currency].decimals));
    if amount <= 0 { return Err(BadAmount); }
    r := Ok(amount);
  }

  method CreateDeal(db: Db, o: Offer, terms: Terms) returns (failure: Option<Error>)
    modifies db
    ensures Commits(old(db.State()), Services.CreateDeal(old(db.State()), o, terms), db.State(), failure)
  {
    var begun := db.State();
    var priced := PriceOffer(db, o);
    if priced.Err? { return Some(priced.error); }
    var amount := priced.value;
    var fee := Services.Fee(db.State(), o, terms, amount);
    failure := Debit(db, Key(o.buyer, o.currency), amount);
    if failure.Some? {
      db.Rollback(begun);
      return;
    }
    db.deals := db.deals + [Deal(o.buyer, o.seller, o.currency, amount, fee, PendingConfirmation, o.provider, true,
                                 Legacy, None, false, None, None)];
  }

  /** The balance covers everything: lock the principal and burn the commission. */
  method FundFromBalance(db: Db, d: Deal, needed: int)
    modifies db
    ensures var k := BuyerKey(d);
            db.State() == Apply(old(db.State()), NOTHING.(
                                  first := Posting(k, -needed, d.amount, DealCreateBalanceFunded,
                                                   FromDeal(Some(|old(db.deals)|)), None, true),
                                  deal := Put(|old(db.deals)|, d)))
  {
    ghost var begun := db.State();
    var k := BuyerKey(d);
    var before := db.LockUserBalance(k);
    var id := |db.deals|;
    db.deals := db.deals + [d];
    db.Store(k, before, Balance(before.amount - needed, before.locked + d.amount),
             DealCreateBalanceFunded, FromDeal(Some(id)), None);
    ghost var p := Posting(k, -needed, d.amount, DealCreateBalanceFunded, FromDeal(Some(id)), None, true);
    assert db.balances == PostBalance(begun.balances, p);
    AllWritten(begun, NOTHING.(first := p, deal := Put(id, d)), db.State());
  }

  /** Insert the waiting deal, then its invoice, then the links between them. */
  method OpenTopup(db: Db, d: Deal, total: int, issued: Option<nat>) returns (failure: Option<Error>)
    requires d.topup.None?
    modifies db
    ensures var w, k := old(db.State()), BuyerKey(d);
            var waiting := d.(topup := Some(|w.deposits|));
            var invoice := NewInvoice(w, TopupRow(waiting, |w.deals|, total, Bal(w, k).amount), issued);
            Commits(w, if invoice.Err? then Err(invoice.error) else
                      Ok(NOTHING.(first := Posting(k, 0, 0, DealLock, FromDeal(None), None, true),
                                  deal := Put(|w.deals|, waiting), invoice := Put(|w.deposits|, invoice.value))),
                    db.State(), failure)
  {
    var begun := db.State();
    var k := BuyerKey(d);
    var before := db.LockUserBalance(k);
    var id, deposit := |db.deals|, |db.deposits|;
    db.deals := db.deals + [d];
    failure := InvoiceService.AddInvoice(db, TopupRow(d, id, total, before.amount).(deal := None), issued);
    if failure.Some? {
      db.Rollback(begun);
      return;
    }
    db.deposits := db.deposits[deposit := db.deposits[deposit].(deal := Some(id))];
    db.deals := db.deals[id := d.(topup := Some(deposit))];
    ghost var p := Posting(k, 0, 0, DealLock, FromDeal(None), None, true);
    assert db.balances == PostBalance(begun.balances, p);
    ghost var waiting := d.(topup := Some(deposit));
    ghost var row := TopupRow(waiting, id, total, before.amount).(invoice := issued.value);
    assert db.deposits == begun.deposits + [row];
    AllWritten(begun, NOTHING.(first := p, deal := Put(id, waiting), invoice := Put(deposit, row)), db.State());
  }

  method OpenPriced(db: Db, o: Offer, amount: int, fee: int, needed: int, total: int, issued: Option<nat>)
    returns (failure: Option<Error>)
    modifies db
    ensures Commits(old(db.State()), Services.OpenPriced(old(db.State()), o, amount, fee, needed, total, issued),
                    db.State(), failure)
  {
    var deal := Deal(o.buyer, o.seller, o.currency, amount, fee, PendingConfirmation, o.provider, true,
                     BalanceFunded, None, false, None, None);
    if BalanceOf(db.balances, Key(o.buyer, o.currency)).amount >= needed {
      FundFromBalance(db, deal, needed);
      return None;
    }
    if total <= 0 { return Some(CommissionTooSmall); }
    failure := OpenTopup(db, deal.(status := PendingTopup, commissionPaid := false, origin := TopupFunded), total,
                         issued);
  }

  method CreateDealWithTopup(db: Db, o: Offer, terms: Terms, issued: Option<nat>) returns (failure: Option<Error>)
    modifies db
    ensures Commits(old(db.State()), Services.CreateDealWithTopup(old(db.State()), o, terms, issued), db.State(),
                    failure)
  {
    var priced := PriceOffer(db, o);
    if priced.Err? { return Some(priced.error); }
    var amount := priced.value;
    var fee := Services.Fee(db.State(), o, terms, amount);
    var step := GridStep(db.currencies[o.currency].decimals);
    var balance := BalanceOf(db.balances, Key(o.buyer, o.currency)).amount;
    var needed := Q(amount + fee, step);
    var gap := Q(Max(0, amount - balance), step);
    var total := Q(gap + fee, step);
    failure := OpenPriced(db, o, amount, fee, needed, total, issued);
  }

  // ------------------------------------------------------ ending a top-up

  /** Close the outstanding invoice of a waiting deal, then the deal. */
  method CloseTopup(db: Db, deal: nat, closed: DealStatus)
    requires deal < |db.deals|
    modifies db`deals, db`deposits
    ensures db.deals == old(db.deals)[deal := old(db.deals)[deal].(status := closed)]
    ensures db.deposits == Written(old(db.deposits), ExpireLinked(old(db.State()), old(db.deals)[deal]))
  {
    var d := db.deals[deal];
    if d.topup.Some? && d.topup.value < |db.deposits| {
      var p := db.deposits[d.topup.value];
      if p.status.Pending? {
        db.deposits := db.deposits[d.topup.value := p.(status := Expired)];
      }
    }
    db.deals := db.deals[deal := d.(status := closed)];
  }

  method CancelPendingTopup(db: Db, deal: nat, user: nat) returns (failure: Option<Error>)
    modifies db
    ensures Commits(old(db.State()), Services.CancelPendingTopup(old(db.State()), deal, user), db.State(), failure)
  {
    if deal >= |db.deals| { return Some(NotFound); }
    if user != db.deals[deal].buyer { return Some(WrongUser); }
    if !db.deals[deal].status.PendingTopup? { return Some(WrongStatus); }
    CloseTopup(db, deal, Cancelled);
    failure := None;
  }
}
