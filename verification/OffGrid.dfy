/**
  Why progress needs balances on the grid: a withdrawal of one quantum, then a deal, its
  invoice paid in full, and the deal waits for ever with no invoice left to pay.
 */
module OffGrid {
  import opened Common
  import opened Money
  import opened Sums
  import opened Tables
  import opened Services
  import opened Books
  import opened Safety
  import opened Grid

  const BUYER := User(101, false, false, 0, 0, 0, Tally(0, 0, 0, 0))
  const SELLER := User(102, false, false, 0, 0, 0, Tally(0, 0, 0, 0))

  /** One currency with seven fractional digits, so that its grid step is ten quanta. */
  const START := World(map[0 := Currency(7, 0, 0)], map[1 := BUYER, 2 := SELLER], map[], [], [], [], [])

  const OFFER := Offer(1, 2, 0, Exact(Raw(20, 1)), CryptoBot)

  const STORY: seq<Event> := [
    EvOpenDeposit(1, 0, Exact(Raw(20, 1)), false, CryptoBot, Some(0)),
    EvInvoicePaid(true, Some(0), Reported(Raw(20, 1)), None),
    EvRequestWithdrawal(1, 0, 1, false, false, true),
    EvCreateDealWithTopup(OFFER, Terms(5000, -1), Some(1)),
    EvInvoicePaid(true, Some(1), Reported(Raw(10, 1)), Some(2))]

  const WALLET := Deposit(1, 0, 20, CryptoBot, 0, Pending, Wallet, None, None, 0)
  const TOPUP := Deposit(1, 0, 10, CryptoBot, 1, Pending, DealTopup, None, Some(0), 19)
  const DEAL := Deal(1, 2, 0, 20, 10, PendingTopup, CryptoBot, false, TopupFunded, Some(1), false, None, None)

  /** A state of the story; the ledger and the withdrawals are not looked at. */
  ghost predicate Looks(w: World, balance: Balance, deals: seq<Deal>, deposits: seq<Deposit>)
  {
    && w.currencies == START.currencies && w.users == START.users
    && Bal(w, Key(1, 0)).amount == balance.amount && Bal(w, Key(1, 0)).locked == balance.locked
    && w.deals == deals && w.deposits == deposits
  }

  lemma StepSize(w: World)
    requires w.currencies == START.currencies
    ensures 0 in w.currencies && GridOf(w, 0) == 10
  {
    assert Pow10(1) == 10 * Pow10(0);
  }

  const PAID_WALLET := WALLET.(status := Paid, paidAmount := Some(20))
  const PAID_TOPUP := TOPUP.(status := Paid, paidAmount := Some(10))

  lemma OpenPlan(w: World)
    requires Looks(w, Balance(0, 0), [], [])
    ensures OpenDeposit(w, 1, 0, Exact(Raw(20, 1)), false, CryptoBot, Some(0))
        == Ok(NOTHING.(invoice := Put.Put(0, WALLET)))
  {
    StepSize(w);
    assert FindDeposit(w.deposits, CryptoBot, 0).None?;
  }

  lemma DepositOpened(w: World)
    requires Looks(w, Balance(0, 0), [], [])
    ensures Looks(Step(w, STORY[0]), Balance(0, 0), [], [WALLET])
  {
    OpenPlan(w);
  }

  lemma PaidPlan(w: World)
    requires Looks(w, Balance(0, 0), [], [WALLET])
    ensures InvoicePaid(w, true, Some(0), Reported(Raw(20, 1)), None)
         == Ok(NOTHING.(deposit := Put.Put(0, PAID_WALLET),
                        first := Posting(Key(1, 0), 20, 0, DepositWalletCredit, FromDeposit(0), None, true)))
  {
    StepSize(w);
    assert FindDeposit(w.deposits, CryptoBot, 0) == Some(0);
  }

  lemma DepositPaid(w: World)
    requires Looks(w, Balance(0, 0), [], [WALLET])
    ensures Looks(Step(w, STORY[1]), Balance(20, 0), [], [PAID_WALLET])
  {
    PaidPlan(w);
  }

  lemma OneQuantumWithdrawn(w: World)
    requires Looks(w, Balance(20, 0), [], [PAID_WALLET])
    ensures Looks(Step(w, STORY[2]), Balance(19, 1), [], [PAID_WALLET])
  {
  }

  lemma DealPlanned(w: World)
    requires Looks(w, Balance(19, 1), [], [PAID_WALLET])
    ensures CreateDealWithTopup(w, OFFER, Terms(5000, -1), Some(1))
         == Ok(NOTHING.(first := Posting(Key(1, 0), 0, 0, DealLock, FromDeal(None), None, true),
                        deal := Put.Put(0, DEAL), invoice := Put.Put(1, TOPUP)))
  {
    StepSize(w);
    assert FindDeposit(w.deposits, CryptoBot, 1).None?;
    assert Commission(20, 5000, 10) == 10;
  }

  lemma DealOpened(w: World)
    requires Looks(w, Balance(19, 1), [], [PAID_WALLET])
    ensures Looks(Step(w, STORY[3]), Balance(19, 1), [DEAL], [PAID_WALLET, TOPUP])
  {
    DealPlanned(w);
  }

  lemma StuckSettlement(w: World)
    requires Looks(w, Balance(19, 1), [DEAL], [PAID_WALLET, TOPUP])
    ensures SettlePending(w, 1, 10, 0, 10, Some(2))
         == Ok(NOTHING.(deposit := Put.Put(1, PAID_TOPUP), deal := Put.Put(0, DEAL.(commissionPaid := true)),
                        first := Posting(Key(1, 0), 0, 0, TopupPartialCredit, FromDeposit(1), Some(0), true)))
  {
  }

  /** The payment covers the commission, and the gap of one quantum rounds to nothing. */
  lemma StuckPlan(w: World)
    requires Looks(w, Balance(19, 1), [DEAL], [PAID_WALLET, TOPUP])
    ensures InvoicePaid(w, true, Some(1), Reported(Raw(10, 1)), Some(2))
         == Ok(NOTHING.(deposit := Put.Put(1, PAID_TOPUP), deal := Put.Put(0, DEAL.(commissionPaid := true)),
                        first := Posting(Key(1, 0), 0, 0, TopupPartialCredit, FromDeposit(1), Some(0), true)))
  {
    StepSize(w);
    assert FindDeposit(w.deposits, CryptoBot, 1) == Some(1);
    assert Quantize(Raw(10, 1), 10) == 10;
    StuckSettlement(w);
  }

  lemma DealStuck(w: World)
    requires Looks(w, Balance(19, 1), [DEAL], [PAID_WALLET, TOPUP])
    ensures Looks(Step(w, STORY[4]), Balance(19, 1), [DEAL.(commissionPaid := true)], [PAID_WALLET, PAID_TOPUP])
  {
    StuckPlan(w);
  }

  lemma NextState(i: nat)
    requires i < |STORY|
    ensures Run(START, STORY[..i + 1]) == Step(Run(START, STORY[..i]), STORY[i])
  {
    assert STORY[..i + 1][..i] == STORY[..i];
  }

  lemma {:induction false} StoryIsFair(i: nat)
    requires i <= |STORY|
    ensures Fair(START, STORY[..i])
  {
    if i > 0 {
      StoryIsFair(i - 1);
      assert STORY[..i][..i - 1] == STORY[..i - 1];
    }
  }

  /** The state after each event of the story. */
  ghost predicate StateIs(i: nat)
    requires i <= |STORY|
  {
    var now := Run(START, STORY[..i]);
    match i
    case 0 => Looks(now, Balance(0, 0), [], [])
    case 1 => Looks(now, Balance(0, 0), [], [WALLET])
    case 2 => Looks(now, Balance(20, 0), [], [PAID_WALLET])
    case 3 => Looks(now, Balance(19, 1), [], [PAID_WALLET])
    case 4 => Looks(now, Balance(19, 1), [DEAL], [PAID_WALLET, TOPUP])
    case _ => Looks(now, Balance(19, 1), [DEAL.(commissionPaid := true)], [PAID_WALLET, PAID_TOPUP])
  }

  lemma StoryStep(i: nat, now: World, next: World)
    requires i < |STORY| && StateIs(i) && now == Run(START, STORY[..i]) && next == Step(now, STORY[i])
    requires next == Run(START, STORY[..i + 1])
    ensures StateIs(i + 1)
  {
    match i
    case 0 => DepositOpened(now);
    case 1 => DepositPaid(now);
    case 2 => OneQuantumWithdrawn(now);
    case 3 => DealOpened(now);
    case _ => DealStuck(now);
  }

  lemma {:induction false} StoryStates(i: nat)
    requires i <= |STORY|
    ensures StateIs(i)
  {
    if i == 0 {
      assert STORY[..0] == [];
    } else {
      StoryStates(i - 1);
      NextState(i - 1);
      StoryStep(i - 1, Run(START, STORY[..i - 1]), Run(START, STORY[..i]));
    }
  }

  lemma StartIsFresh()
    ensures Fresh(START)
  {
  }

  lemma StoryHappens()
    ensures Fresh(START) && Fair(START, STORY)
  {
    StartIsFresh();
    assert STORY[..5] == STORY;
    StoryIsFair(5);
  }

  lemma LastState(now: World)
    requires now == Run(START, STORY)
    ensures Looks(now, Balance(19, 1), [DEAL.(commissionPaid := true)], [PAID_WALLET, PAID_TOPUP])
  {
    assert STORY[..5] == STORY;
    StoryStates(5);
  }

  /** A reachable state in which the only invoice of a waiting deal was paid in full and no other was issued. */
  lemma OffGridDealGetsStuck(now: World)
    requires now == Run(START, STORY)
    ensures Fresh(START) && Fair(START, STORY)
    ensures now.deals == [DEAL.(commissionPaid := true)]
    ensures |now.deposits| == 2 && now.deposits[1] == TOPUP.(status := Paid, paidAmount := Some(TOPUP.amount))
    ensures Bal(now, Key(1, 0)).amount == TOPUP.seen
  {
    StoryHappens();
    LastState(now);
  }

  lemma TooSmallPlanned(w: World)
    requires Looks(w, Balance(19, 1), [], [PAID_WALLET])
    ensures CreateDealWithTopup(w, OFFER, Terms(0, -1), Some(1)) == Err(CommissionTooSmall)
  {
    StepSize(w);
    assert Commission(20, 0, 10) == 0;
  }

  lemma StateBeforeDeal(now: World)
    requires now == Run(START, STORY[..3])
    ensures Looks(now, Balance(19, 1), [], [PAID_WALLET])
  {
    StoryStates(3);
  }

  /**
    The state before the deal refuses the same offer without a commission: the gap of one
    quantum rounds to nothing.
   */
  lemma TooSmallIsReached(now: World)
    requires now == Run(START, STORY[..3])
    ensures Fresh(START) && Fair(START, STORY[..3])
    ensures CreateDealWithTopup(now, OFFER, Terms(0, -1), Some(1)) == Err(CommissionTooSmall)
  {
    StartIsFresh();
    StoryIsFair(3);
    StateBeforeDeal(now);
    TooSmallPlanned(now);
  }
}
