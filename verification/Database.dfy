/** The tables as the services see them: mutable fields, row locks taken, one transaction at a time. */
module Database {
  import opened Common
  import opened Money
  import opened Sums
  import opened Tables
  import opened Services

  /** The outcome of a service call is the outcome of its plan: all of its writes, or an error and none. */
  ghost predicate Commits(before: World, plan: Plan, after: World, failure: Option<Error>)
  {
    match plan
    case Ok(e) => failure.None? && after == Apply(before, e)
    case Err(error) => failure == Some(error) && after == before
  }

  /** So a call that commits its plan is a step of the run. */
  lemma CommitIsStep(w: World, e: Event, plan: Plan, after: World, failure: Option<Error>)
    requires plan == PlanOf(w, e) && Commits(w, plan, after, failure)
    ensures after == Step(w, e)
  {
  }

  /** A balance row has changed by p, and the ledger says so. */
  ghost predicate Posts(balances: map<Key, Balance>, ledger: seq<Entry>,
                        newBalances: map<Key, Balance>, newLedger: seq<Entry>, p: Posting)
  {
    newBalances == PostBalance(balances, p) && newLedger == PostLedger(balances, ledger, p)
  }

  /** An effect has been written when each table holds what it says. */
  lemma AllWritten(w: World, e: Effect, after: World)
    requires after.currencies == w.currencies && after.users == Bumped(Trusted(w.users, e.trust), e.bump)
    requires after.balances == PostBalance(PostBalance(w.balances, e.first), e.second)
    requires after.deals == Sums.Written(w.deals, e.deal)
    requires after.withdrawals == Sums.Written(w.withdrawals, e.withdrawal)
    requires after.deposits == Sums.Written(Sums.Written(w.deposits, e.deposit), e.invoice)
    requires var ledger := PostLedger(w.balances, w.ledger, e.first);
             after.ledger == TrustLedger(w.users, PostLedger(PostBalance(w.balances, e.first), ledger, e.second),
                                         e.trust)
    ensures after == Apply(w, e)
  {
  }

  class Db {
    var currencies: map<nat, Currency>
    var users: map<nat, User>
    var balances: map<Key, Balance>
    var deals: seq<Deal>
    var deposits: seq<Deposit>
    var withdrawals: seq<Withdrawal>
    var ledger: seq<Entry>

    constructor (currencies: map<nat, Currency>, users: map<nat, User>)
      ensures State() == World(currencies, users, map[], [], [], [], [])
    {
      this.currencies, this.users := currencies, users;
      balances, deals, deposits, withdrawals, ledger := map[], [], [], [], [];
    }

    function State(): World
      reads this
    {
      World(currencies, users, balances, deals, deposits, withdrawals, ledger)
    }

    /** Undo everything since the transaction began. */
    method Rollback(begun: World)
      modifies this
      ensures State() == begun
    {
      currencies, users, balances := begun.currencies, begun.users, begun.balances;
      deals, deposits, withdrawals := begun.deals, begun.deposits, begun.withdrawals;
      ledger := begun.ledger;
    }

    /** lock_user_balance: insert the row if it is missing, then read it. */
    method LockUserBalance(k: Key) returns (b: Balance)
      modifies `balances
      ensures b == BalanceOf(old(balances), k) && balances == old(balances)[k := b]
    {
      if k !in balances {
        balances := balances[k := Balance(0, 0)];
      }
      b := balances[k];
    }

    /** record_balance_ledger: append what changed since `before`; nothing if nothing did. */
    method RecordBalanceLedger(k: Key, before: Balance, event: EventType, source: Source, deal: Option<nat>)
      requires k in balances
      modifies `ledger
      ensures var p := Posting(k, balances[k].amount - before.amount, balances[k].locked - before.locked,
                               event, source, deal, true);
              ledger == if Leaves(p) then old(ledger) + [EntryFor(before, p)] else old(ledger)
    {
      var now := balances[k];
      var amountDelta := now.amount - before.amount;
      var lockedDelta := now.locked - before.locked;
      if amountDelta == 0 && lockedDelta == 0 {
        return;
      }
      var entry := Entry(k, event, source, deal, before.amount, amountDelta, now.amount,
                         before.locked, lockedDelta, now.locked);
      ledger := ledger + [entry];
    }

    /** record_synthetic_ledger, for trust credits. */
    method RecordSyntheticLedger(k: Key, before: int, after: int, source: Source)
      modifies `ledger
      ensures ledger == if after == before then old(ledger)
                        else old(ledger) + [Entry(k, DepositTrustCredit, source, None,
                                                  before, after - before, after, 0, 0, 0)]
    {
      var amountDelta := after - before;
      if amountDelta == 0 {
        return;
      }
      ledger := ledger + [Entry(k, DepositTrustCredit, source, None, before, amountDelta, after, 0, 0, 0)];
    }

    /** Write back a locked balance row and record the difference. */
    method Store(k: Key, before: Balance, now: Balance, event: EventType, source: Source, deal: Option<nat>)
      requires before == BalanceOf(balances, k)
      modifies `balances, `ledger
      ensures Posts(old(balances), old(ledger), balances, ledger,
                    Posting(k, now.amount - before.amount, now.locked - before.locked, event, source, deal, true))
    {
      balances := balances[k := now];
      RecordBalanceLedger(k, before, event, source, deal);
    }

    /** Atomic counter updates on two users; a missing user is not touched. */
    method BumpUsers(b: Bump)
      modifies `users
      ensures users == Bumped(old(users), b)
    {
      if b.Bump? {
        if b.buyer in users {
          var u := users[b.buyer];
          users := users[b.buyer := u.(tally := Plus(u.tally, b.forBuyer))];
        }
        if b.seller in users {
          var u := users[b.seller];
          users := users[b.seller := u.(tally := Plus(u.tally, b.forSeller))];
        }
      }
    }
  }
}
