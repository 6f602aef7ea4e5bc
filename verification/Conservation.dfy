/**
  Conservation: per currency, everything ever collected from paid invoices is on some
  user's balance, taken as commission, or sent out.
 */
module Conservation {
  import opened Common
  import opened Sums
  import opened Tables
  import opened Services
  import opened Books
  import opened Safety

  function Holdings(w: World, currency: nat): nat -> int
  {
    (u: nat) => Bal(w, Key(u, currency)).amount + Bal(w, Key(u, currency)).locked
  }

  function CommissionIn(currency: nat): Deal -> int
  {
    (d: Deal) => if d.currency == currency then CommissionTaken(d) else 0
  }

  function SentIn(currency: nat): Withdrawal -> int
  {
    (x: Withdrawal) => if x.currency == currency && x.status.Sent? then x.amount else 0
  }

  function CollectedIn(currency: nat): Deposit -> int
  {
    (p: Deposit) => if p.currency == currency then Collected(p) else 0
  }

  function MovedFor(currency: nat): nat -> Deal -> int
  {
    (u: nat) => MovedByDeal(Key(u, currency))
  }

  function BroughtInFor(currency: nat): nat -> Deposit -> int
  {
    (u: nat) => BroughtIn(Key(u, currency))
  }

  function SentOutFor(currency: nat): nat -> Withdrawal -> int
  {
    (u: nat) => SentOut(Key(u, currency))
  }

  function Minus<T>(f: T -> int): T -> int
  {
    (row: T) => -f(row)
  }

  lemma {:induction false} SumOfMinus<T>(rows: seq<T>, f: T -> int)
    ensures Sum(rows, Minus(f)) == -Sum(rows, f)
  {
    if rows != [] {
      SumOfMinus(rows[..|rows| - 1], f);
    }
  }

  /** A deal moves money between two users and loses only its commission. */
  lemma DealShares(w: World, d: Deal, currency: nat)
    requires DealOk(w, d)
    ensures Total(w.users.Keys, Shares(MovedFor(currency), d)) == Minus(CommissionIn(currency))(d)
  {
    var f := Shares(MovedFor(currency), d);
    TotalOfTwo(w.users.Keys, d.buyer, d.seller, f);
  }

  lemma DepositShares(w: World, p: Deposit, currency: nat)
    requires DepositOk(w, p)
    ensures Total(w.users.Keys, Shares(BroughtInFor(currency), p)) == CollectedIn(currency)(p)
  {
    TotalOfOne(w.users.Keys, p.user, Shares(BroughtInFor(currency), p));
  }

  lemma WithdrawalShares(w: World, x: Withdrawal, currency: nat)
    requires WithdrawalOk(w, x)
    ensures Total(w.users.Keys, Shares(SentOutFor(currency), x)) == SentIn(currency)(x)
  {
    TotalOfOne(w.users.Keys, x.user, Shares(SentOutFor(currency), x));
  }

  /** All that was ever collected in a currency is with the users, taken as commission, or sent out. */
  ghost predicate Conserved(w: World, currency: nat)
  {
    Total(w.users.Keys, Holdings(w, currency)) + Sum(w.deals, CommissionIn(currency))
        + Sum(w.withdrawals, SentIn(currency))
    == Sum(w.deposits, CollectedIn(currency))
  }

  lemma {:induction false} MoneyIsConserved(w: World, currency: nat)
    requires Valid(w)
    ensures Conserved(w, currency)
  {
    var ids := w.users.Keys;
    forall i | 0 <= i < |w.deals|
      ensures Total(ids, Shares(MovedFor(currency), w.deals[i])) == Minus(CommissionIn(currency))(w.deals[i])
    {
      DealShares(w, w.deals[i], currency);
    }
    forall i | 0 <= i < |w.deposits|
      ensures Total(ids, Shares(BroughtInFor(currency), w.deposits[i])) == CollectedIn(currency)(w.deposits[i])
    {
      DepositShares(w, w.deposits[i], currency);
    }
    forall i | 0 <= i < |w.withdrawals|
      ensures Total(ids, Shares(SentOutFor(currency), w.withdrawals[i])) == SentIn(currency)(w.withdrawals[i])
    {
      WithdrawalShares(w, w.withdrawals[i], currency);
    }
    TotalOfSums(ids, w.deals, MovedFor(currency), Minus(CommissionIn(currency)));
    TotalOfSums(ids, w.deposits, BroughtInFor(currency), CollectedIn(currency));
    TotalOfSums(ids, w.withdrawals, SentOutFor(currency), SentIn(currency));
    SumOfMinus(w.deals, CommissionIn(currency));
    StatementsAddUp(w, currency);
  }

  /** The holdings of all users are their statements, added up table by table. */
  lemma StatementsAddUp(w: World, currency: nat)
    requires Valid(w)
    ensures Total(w.users.Keys, Holdings(w, currency))
         == Total(w.users.Keys, TableShares(w.deposits, BroughtInFor(currency)))
            + Total(w.users.Keys, TableShares(w.deals, MovedFor(currency)))
            - Total(w.users.Keys, TableShares(w.withdrawals, SentOutFor(currency)))
  {
    var ids := w.users.Keys;
    var deposits, deals := TableShares(w.deposits, BroughtInFor(currency)), TableShares(w.deals, MovedFor(currency));
    var sent := TableShares(w.withdrawals, SentOutFor(currency));
    var both := (u: nat) => deposits(u) + deals(u);
    forall u | u in ids ensures both(u) == Holdings(w, currency)(u) + sent(u) {
      assert Balanced(w, Key(u, currency));
    }
    TotalPlus(ids, both, deposits, deals);
    TotalPlus(ids, both, Holdings(w, currency), sent);
  }

  /** Conservation in every reachable state. */
  lemma ConservedAlways(w: World, events: seq<Event>, currency: nat)
    requires Fresh(w) && Fair(w, events)
    ensures Conserved(Run(w, events), currency)
  {
    BooksAlwaysBalance(w, events);
    MoneyIsConserved(Run(w, events), currency);
  }
}
