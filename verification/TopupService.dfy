/** complete_deal_topup_payment, statement by statement, against its plan. */
module TopupService {
  import opened Common
  import opened Money
  import opened Sums
  import opened Tables
  import opened Services
  import opened Database
  import InvoiceService

  /** _issue_remaining_topup_invoice: attach a new invoice for what is still missing, if anything is. */
  method IssueRemaining(db: Db, deal: nat, balance: int, step: nat, reissued: Option<nat>)
    returns (failure: Option<Error>)
    requires deal < |db.deals| && step > 0
    modifies db`deals, db`deposits
    ensures var d := old(db.deals)[deal];
            var total := Remaining(d, balance, step);
            var invoice := NewInvoice(old(db.State()), TopupRow(d, deal, total, balance), reissued);
            if total <= 0 then failure.None? && db.deals == old(db.deals) && db.deposits == old(db.deposits)
            else if invoice.Err? then
              failure == Some(invoice.error) && db.deals == old(db.deals) && db.deposits == old(db.deposits)
            else
              && failure.None? && db.deposits == old(db.deposits) + [invoice.value]
              && db.deals == old(db.deals)[deal := d.(topup := Some(|old(db.deposits)|))]
  {
    var d := db.deals[deal];
    var amount, commission := Q(d.amount, step), Q(d.commission, step);
    var due := if d.commissionPaid then 0 else commission;
    var gap := Max(0, amount - balance);
    var total := Q(gap + due, step);
    if total <= 0 { return None; }
    var id := |db.deposits|;
    failure := InvoiceService.AddInvoice(db, TopupRow(d, deal, total, balance).(deal := None), reissued);
    if failure.Some? { return; }
    ghost var stored := db.deposits[id];
    db.deposits := db.deposits[id := db.deposits[id].(deal := Some(deal))];
    db.deals := db.deals[deal := d.(topup := Some(id))];
  }

  /** Rewriting a row without touching its invoice does not change what is found. */
  lemma {:induction false} FindIgnoresStatus(deposits: seq<Deposit>, at: nat, row: Deposit, provider: Provider,
                                             invoice: nat)
    requires at < |deposits| && row.provider == deposits[at].provider && row.invoice == deposits[at].invoice
    ensures FindDeposit(deposits[at := row], provider, invoice) == FindDeposit(deposits, provider, invoice)
  {
    var n := |deposits| - 1;
    if at == n {
      assert deposits[at := row][..n] == deposits[..n];
    } else {
      FindIgnoresStatus(deposits[..n], at, row, provider, invoice);
      assert deposits[at := row][..n] == deposits[..n][at := row];
    }
  }

  /** Mark the deposit paid. */
  method MarkPaid(db: Db, at: nat, sum: int)
    requires at < |db.deposits|
    modifies db`deposits
    ensures db.deposits == old(db.deposits)[at := old(db.deposits)[at].(status := Paid, paidAmount := Some(sum))]
  {
    var p := db.deposits[at];
    p := p.(status := Paid);
    p := p.(paidAmount := Some(sum));
    db.deposits := db.deposits[at := p];
  }

  /** A payment that arrives after the deal stopped waiting is credited whole. */
  method CreditLate(db: Db, at: nat, sum: int, deal: nat)
    requires at < |db.deposits| && deal < |db.deals|
    modifies db
    ensures db.State() == Apply(old(db.State()), LateEffect(old(db.State()), at, sum, deal))
  {
    ghost var begun := db.State();
    var k := BuyerKey(db.deals[deal]);
    var b := db.LockUserBalance(k);
    db.Store(k, b, b.(amount := b.amount + sum), TopupLateCredit, FromDeposit(at), Some(deal));
    MarkPaid(db, at, sum);
    ghost var p := CreditPosting(begun.deals[deal], sum, TopupLateCredit, at, deal);
    assert db.balances == PostBalance(begun.balances, p);
    AllWritten(begun, LateEffect(begun, at, sum, deal), db.State());
  }

  lemma SameInvoices(w: World, at: nat, e: Effect, row: Deposit, issued: Option<nat>)
    requires at < |w.deposits| && e.deposit.Put? && e.deposit.at == at && e.invoice.Keep?
    requires e.deposit.row.provider == w.deposits[at].provider && e.deposit.row.invoice == w.deposits[at].invoice
    ensures NewInvoice(Apply(w, e), row, issued) == NewInvoice(w, row, issued)
  {
    if issued.Some? {
      FindIgnoresStatus(w.deposits, at, e.deposit.row, row.provider, issued.value);
    }
  }

  /** Attaching the new invoice to the written effect is writing the effect with the invoice. */
  lemma Attached(w: World, at: nat, sum: int, e: Effect, balance: int, step: nat, reissued: Option<nat>,
                 paid: World, after: World)
    requires step > 0 && at < |w.deposits| && paid == Apply(w, e) && e.second.NoPosting? && e.trust.NoTrust?
    requires e.bump.NoBump?
    requires e.invoice.Keep? && e.deposit.Put? && e.deposit.at == at && e.deal.Put? && e.deal.at < |w.deals|
    requires e.withdrawal.Keep?
    requires after == paid.(deals := after.deals, deposits := after.deposits)
    requires var d := e.deal.row;
             var total := Remaining(d, balance, step);
             var invoice := NewInvoice(w, TopupRow(d, e.deal.at, total, balance), reissued);
             if total <= 0 then after == paid
             else
               && invoice.Ok? && after.deposits == paid.deposits + [invoice.value]
               && after.deals == paid.deals[e.deal.at := d.(topup := Some(|paid.deposits|))]
    ensures WithReplacement(w, e, balance, step, reissued).Ok?
    ensures after == Apply(w, WithReplacement(w, e, balance, step, reissued).value)
  {
    var total := Remaining(e.deal.row, balance, step);
    if total > 0 {
      var e1 := WithReplacement(w, e, balance, step, reissued).value;
      assert after.deals == Written(w.deals, e1.deal);
      AllWritten(w, e1, after);
    }
  }

  /** Credit part of a payment that does not suffice. */
  method CreditPart(db: Db, at: nat, sum: int, credit: int, deal: nat, collected: bool) returns (balance: int)
    requires at < |db.deposits| && deal < |db.deals|
    modifies db
    ensures var w := old(db.State());
            && balance == Bal(w, BuyerKey(w.deals[deal])).amount + credit
            && db.State() == Apply(w, PartialEffect(w, at, sum, credit, deal, Marked(w.deals[deal], collected)))
  {
    ghost var begun := db.State();
    var d := db.deals[deal];
    var k := BuyerKey(d);
    var b := db.LockUserBalance(k);
    balance := b.amount + credit;
    if collected {
      d := d.(commissionPaid := true);
      db.deals := db.deals[deal := d];
    }
    MarkPaid(db, at, sum);
    db.Store(k, b, b.(amount := balance), TopupPartialCredit, FromDeposit(at), Some(deal));
    ghost var e := PartialEffect(begun, at, sum, credit, deal, d);
    assert db.balances == PostBalance(begun.balances, e.first);
    assert db.deals == Written(begun.deals, e.deal);
    AllWritten(begun, e, db.State());
  }

  /** The payment does not suffice: credit it, keep the deal waiting, ask for the rest. */
  method CreditPartly(db: Db, at: nat, sum: int, credit: int, deal: nat, collected: bool, step: nat,
                      reissued: Option<nat>)
    returns (failure: Option<Error>)
    requires at < |db.deposits| && deal < |db.deals| && step > 0
    modifies db
    ensures var w := old(db.State());
            var e := PartialEffect(w, at, sum, credit, deal, Marked(w.deals[deal], collected));
            Commits(w, WithReplacement(w, e, Bal(w, BuyerKey(w.deals[deal])).amount + credit, step, reissued),
                    db.State(), failure)
  {
    var begun := db.State();
    var balance := CreditPart(db, at, sum, credit, deal, collected);
    ghost var e := PartialEffect(begun, at, sum, credit, deal, Marked(begun.deals[deal], collected));
    ghost var paid, d := db.State(), e.deal.row;
    assert db.deals[deal] == d;
    SameInvoices(begun, at, e, TopupRow(d, deal, Remaining(d, balance, step), balance), reissued);
    failure := IssueRemaining(db, deal, balance, step, reissued);
    if failure.Some? {
      db.Rollback(begun);
    } else {
      Attached(begun, at, sum, e, balance, step, reissued, paid, db.State());
    }
  }

  /** The payment suffices: credit it, lock the principal, hand the deal to the seller. */
  method Activate(db: Db, at: nat, sum: int, credit: int, amount: int, deal: nat)
    requires at < |db.deposits| && deal < |db.deals|
    modifies db
    ensures db.State() == Apply(old(db.State()), ActivateEffect(old(db.State()), at, sum, credit, amount, deal))
  {
    ghost var begun := db.State();
    var d := db.deals[deal];
    var k := BuyerKey(d);
    var b := db.LockUserBalance(k);
    var now := b.(amount := b.amount + credit);
    now := now.(amount := now.amount - amount);
    now := now.(locked := now.locked + amount);
    db.Store(k, b, now, TopupActivate, FromDeposit(at), Some(deal));
    assert now.amount - b.amount == credit - amount;
    MarkPaid(db, at, sum);
    db.deals := db.deals[deal := d.(status := PendingConfirmation, commissionPaid := true)];
    ghost var e := ActivateEffect(begun, at, sum, credit, amount, deal);
    assert db.balances == PostBalance(begun.balances, e.first);
    AllWritten(begun, e, db.State());
  }

  /** A payment that SettlePending is about, with what is due of it. */
  ghost predicate Waits(w: World, at: nat, deal: nat, step: nat, due: int)
  {
    && at < |w.deposits| && deal < |w.deals| && step > 0 && w.deposits[at].purpose.DealTopup?
    && !w.deposits[at].status.Paid? && w.deposits[at].deal == Some(deal) && w.deals[deal].status.PendingTopup?
    && due == DueOf(w.deals[deal], step)
  }

  /** The branches of SettlePending, one equation each. */
  lemma BelowBranch(w: World, at: nat, sum: int, deal: nat, step: nat, reissued: Option<nat>, due: int)
    requires Waits(w, at, deal, step, due) && sum < due
    ensures var d := w.deals[deal];
            SettlePending(w, at, sum, deal, step, reissued)
            == WithReplacement(w, PartialEffect(w, at, sum, sum, deal, Marked(d, false)),
                               Bal(w, BuyerKey(d)).amount + sum,
                               step, reissued)
  {
  }

  lemma ShortBranch(w: World, at: nat, sum: int, deal: nat, step: nat, reissued: Option<nat>, due: int, credit: int)
    requires Waits(w, at, deal, step, due) && sum >= due && credit == Q(sum - due, step)
    requires Bal(w, BuyerKey(w.deals[deal])).amount + credit < Q(w.deals[deal].amount, step)
    ensures var d := w.deals[deal];
            SettlePending(w, at, sum, deal, step, reissued)
            == WithReplacement(w, PartialEffect(w, at, sum, credit, deal, Marked(d, due > 0)),
                               Bal(w, BuyerKey(d)).amount + credit, step, reissued)
  {
  }

  lemma EnoughBranch(w: World, at: nat, sum: int, deal: nat, step: nat, reissued: Option<nat>, due: int, credit: int)
    requires Waits(w, at, deal, step, due) && sum >= due && credit == Q(sum - due, step)
    requires Bal(w, BuyerKey(w.deals[deal])).amount + credit >= Q(w.deals[deal].amount, step)
    ensures SettlePending(w, at, sum, deal, step, reissued)
         == Ok(ActivateEffect(w, at, sum, credit, Q(w.deals[deal].amount, step), deal))
  {
  }

  /** The three ways a payment settles while the deal waits for it. */
  method SettleWaiting(db: Db, at: nat, sum: int, deal: nat, step: nat, reissued: Option<nat>)
    returns (failure: Option<Error>)
    requires at < |db.deposits| && deal < |db.deals| && step > 0 && db.deposits[at].purpose.DealTopup?
    requires !db.deposits[at].status.Paid? && db.deposits[at].deal == Some(deal) && db.deals[deal].status.PendingTopup?
    modifies db
    ensures Commits(old(db.State()), SettlePending(old(db.State()), at, sum, deal, step, reissued), db.State(), failure)
  {
    var d := db.deals[deal];
    var amount := Q(d.amount, step);
    var due := if d.commissionPaid then 0 else Q(d.commission, step);
    if sum < due {
      BelowBranch(db.State(), at, sum, deal, step, reissued, due);
      failure := CreditPartly(db, at, sum, sum, deal, false, step, reissued);
      return;
    }
    var credit := Q(sum - due, step);
    if BalanceOf(db.balances, BuyerKey(d)).amount + credit < amount {
      ShortBranch(db.State(), at, sum, deal, step, reissued, due, credit);
      failure := CreditPartly(db, at, sum, credit, deal, due > 0, step, reissued);
      return;
    }
    EnoughBranch(db.State(), at, sum, deal, step, reissued, due, credit);
    Activate(db, at, sum, credit, amount, deal);
    failure := None;
  }

  method CompleteDealTopupPayment(db: Db, at: nat, paid: Option<Raw>, reissued: Option<nat>)
    returns (failure: Option<Error>)
    requires at < |db.deposits| && db.deposits[at].purpose.DealTopup?
    modifies db
    ensures Commits(old(db.State()), SettleTopup(old(db.State()), at, paid, reissued), db.State(), failure)
  {
    var p := db.deposits[at];
    if p.status.Paid? { return None; }
    if p.deal.None? || p.deal.value >= |db.deals| {
      var reported := if paid.Some? then Some(Quantize(paid.value, 1)) else p.paidAmount;
      db.deposits := db.deposits[at := p.(status := Paid, paidAmount := reported)];
      return None;
    }
    var deal := p.deal.value;
    var d := db.deals[deal];
    if d.currency !in db.currencies { return Some(CurrencyVanished); }
    var step := GridStep(db.currencies[d.currency].decimals);
    var sum := if paid.Some? then Quantize(paid.value, step) else Q(p.amount, step);
    if !d.status.PendingTopup? {
      CreditLate(db, at, sum, deal);
      return None;
    }
    failure := SettleWaiting(db, at, sum, deal, step, reissued);
  }
}
