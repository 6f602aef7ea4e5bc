/** Balances stay on the grid of their currency exactly as long as withdrawals do. */
module Grid {
  import opened Common
  import opened Money
  import opened Sums
  import opened Tables
  import opened Services
  import opened Books
  import opened Safety

  ghost predicate GridBalance(w: World, k: Key)
  {
    k.currency in w.currencies ==> OnGrid(Bal(w, k).amount, GridOf(w, k.currency))
  }

  /** create_withdrawal does not quantise; this says that what users asked for was on the grid anyway. */
  ghost predicate GridWithdrawals(w: World)
  {
    forall i :: 0 <= i < |w.withdrawals| ==>
                  var x := w.withdrawals[i];
                  x.currency in w.currencies ==> OnGrid(x.amount, GridOf(w, x.currency))
  }

  lemma {:induction false} SumOnGrid<T>(rows: seq<T>, f: T -> int, step: nat)
    requires step > 0 && forall i :: 0 <= i < |rows| ==> OnGrid(f(rows[i]), step)
    ensures OnGrid(Sum(rows, f), step)
  {
    if rows == [] {
      MultipleOnGrid(0, step);
    } else {
      var n := |rows| - 1;
      SumOnGrid(rows[..n], f, step);
      GridClosed(Sum(rows[..n], f), f(rows[n]), step);
    }
  }

  lemma DealTermsOnGrid(w: World, d: Deal, k: Key)
    requires DealOk(w, d) && k.currency in w.currencies
    ensures OnGrid(HeldByDeal(k)(d), GridOf(w, k.currency)) && OnGrid(MovedByDeal(k)(d), GridOf(w, k.currency))
  {
    var step := GridOf(w, k.currency);
    MultipleOnGrid(0, step);
    if d.currency == k.currency {
      GridClosed(0, d.amount, step);
      GridClosed(0, d.commission, step);
      GridClosed(0 - d.commission, d.amount, step);
    }
  }

  /** With every withdrawal on the grid, every balance is, because everything else is. */
  lemma {:induction false} BalancesOnGrid(w: World, k: Key)
    requires Valid(w) && GridWithdrawals(w)
    ensures GridBalance(w, k)
  {
    if k.currency in w.currencies {
      var step := GridOf(w, k.currency);
      MultipleOnGrid(0, step);
      assert Balanced(w, k);
      forall i | 0 <= i < |w.deals|
        ensures OnGrid(HeldByDeal(k)(w.deals[i]), step) && OnGrid(MovedByDeal(k)(w.deals[i]), step)
      {
        DealTermsOnGrid(w, w.deals[i], k);
      }
      forall i | 0 <= i < |w.deposits| ensures OnGrid(BroughtIn(k)(w.deposits[i]), step) {
        assert DepositOk(w, w.deposits[i]);
      }
      SumOnGrid(w.deals, HeldByDeal(k), step);
      SumOnGrid(w.deals, MovedByDeal(k), step);
      SumOnGrid(w.deposits, BroughtIn(k), step);
      SumOnGrid(w.withdrawals, HeldByWithdrawal(k), step);
      SumOnGrid(w.withdrawals, SentOut(k), step);
      GridClosed(Sum(w.deposits, BroughtIn(k)), Sum(w.deals, MovedByDeal(k)), step);
      GridClosed(Sum(w.deposits, BroughtIn(k)) + Sum(w.deals, MovedByDeal(k)), Sum(w.withdrawals, SentOut(k)), step);
      GridClosed(Sum(w.deals, HeldByDeal(k)), Sum(w.withdrawals, HeldByWithdrawal(k)), step);
      GridClosed(Statement(w, k), LockedFor(w, k), step);
    }
  }

  /** Every withdrawal of the run asks for an amount on the grid of its currency. */
  ghost predicate GridRun(w: World, events: seq<Event>)
  {
    forall i :: 0 <= i < |events| && events[i].EvRequestWithdrawal? && events[i].currency in w.currencies ==>
                  OnGrid(events[i].amount, GridOf(w, events[i].currency))
  }

  lemma RequestOnGrid(w: World, e: Event, plan: Plan, after: World)
    requires Valid(w) && GridWithdrawals(w) && plan == PlanOf(w, e) && plan.Ok? && after == Apply(w, plan.value)
    requires e.EvRequestWithdrawal? && e.currency in w.currencies ==> OnGrid(e.amount, GridOf(w, e.currency))
    requires RowsFit(w, plan.value)
    ensures GridWithdrawals(after)
  {
    if plan.value.withdrawal.Put? {
      AmountKept(w, e, plan);
      WrittenOnGrid(w, plan.value, after);
    }
  }

  lemma WrittenOnGrid(w: World, e: Effect, after: World)
    requires GridWithdrawals(w) && after == Apply(w, e) && e.withdrawal.Put? && e.withdrawal.at <= |w.withdrawals|
    requires var x := e.withdrawal.row; x.currency in w.currencies ==> OnGrid(x.amount, GridOf(w, x.currency))
    ensures GridWithdrawals(after)
  {
  }

  /** A written withdrawal row keeps its amount, or is the one just requested. */
  lemma AmountKept(w: World, e: Event, plan: Plan)
    requires plan == PlanOf(w, e) && plan.Ok? && plan.value.withdrawal.Put?
    ensures var p := plan.value.withdrawal;
            if p.at < |w.withdrawals| then
              p.row.amount == w.withdrawals[p.at].amount && p.row.currency == w.withdrawals[p.at].currency
            else e.EvRequestWithdrawal? && p.row.amount == e.amount && p.row.currency == e.currency
  {
  }

  /** In a run whose withdrawals are on the grid, all balances are on the grid in every state. */
  lemma {:induction false} GridKept(w: World, events: seq<Event>)
    requires Fresh(w) && Fair(w, events) && GridRun(w, events)
    ensures GridWithdrawals(Run(w, events)) && Run(w, events).currencies == w.currencies
    ensures forall k :: GridBalance(Run(w, events), k)
  {
    if events != [] {
      var n := |events| - 1;
      var before := Run(w, events[..n]);
      GridKept(w, events[..n]);
      BooksAlwaysBalance(w, events[..n]);
      var plan := PlanOf(before, events[n]);
      if plan.Ok? {
        EveryCallHonest(before, events[n]);
        RequestOnGrid(before, events[n], plan, Run(w, events));
      }
    }
    BooksAlwaysBalance(w, events);
    forall k ensures GridBalance(Run(w, events), k) {
      BalancesOnGrid(Run(w, events), k);
    }
  }
}
