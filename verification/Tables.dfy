/**
  The database the services work on, and the one way they change it: an Effect, the set of
  writes of one committed transaction.
 */
module Tables {
  import opened Common
  import opened Sums
  import Money

  // ------------------------------------------------------------------- rows

  datatype Currency' = Currency(decimals: nat, minDeposit: nat, minWithdraw: nat)
  type Currency = c: Currency' | c.decimals <= Money.SCALE witness Currency(8, 0, 0)

  /** The public profile counters of a user. */
  datatype Tally = Tally(total: int, arbitrage: int, success: int, failed: int)

  /** `shell` says that the user has no PIN, service or review. */
  datatype User = User(tg: nat, vip: bool, shell: bool, trust: int, pinEpoch: nat, totpEpoch: nat, tally: Tally)

  datatype Key = Key(user: nat, currency: nat)

  datatype Balance = Balance(amount: int, locked: int)

  datatype DealStatus =
    | PendingTopup | PendingConfirmation | InProgress | PendingCancellation | Arbitration
    | Completed | ResolvedForBuyer | ResolvedForSeller | Cancelled | CancelledForInactivity

  /** Which entry point created the deal. */
  datatype Origin = Legacy | BalanceFunded | TopupFunded

  datatype Provider = CryptoBot | Crystalpay

  datatype Deal = Deal(
    buyer: nat, seller: nat, currency: nat, amount: int, commission: int, status: DealStatus,
    provider: Provider, commissionPaid: bool, origin: Origin, topup: Option<nat>,
    inProgress: bool, cancelBy: Option<nat>, disputedBy: Option<nat>)

  datatype DepositStatus = Pending | Paid | Expired | Refunded

  datatype Purpose = Wallet | Trust | DealTopup

  /** `seen` is the spendable balance a deal top-up invoice was computed from. */
  datatype Deposit = Deposit(
    user: nat, currency: nat, amount: int, provider: Provider, invoice: nat, status: DepositStatus,
    purpose: Purpose, paidAmount: Option<int>, deal: Option<nat>, seen: int)

  datatype WithdrawalStatus = Awaiting | Sent | Rejected

  /** Who settled a withdrawal; the service writes this into admin_note. */
  datatype Note = NoNote | Transferred | AutoFailed | SweepSent | SweepRefunded

  /** The provider's side of one transfer call. */
  datatype Call = NotSent | InFlight | Shipped | Lost

  /** The request that created the withdrawal, from its commit on. */
  datatype Worker = Calling | GotOk | GotError | Gone

  datatype Withdrawal = Withdrawal(
    user: nat, currency: nat, amount: int, status: WithdrawalStatus, note: Note, admins: bool,
    call: Call, worker: Worker, stale: bool, heardYes: bool, heardNo: bool)

  datatype EventType =
    | DealLock | DealRefundPrincipal | DealReleaseDebit | DealReleaseCredit | DealCreateBalanceFunded
    | TopupLateCredit | TopupPartialCredit | TopupActivate
    | DepositWalletCredit | DepositTrustCredit
    | WithdrawalLock | WithdrawalAutoFailedRefund | WithdrawalSent

  datatype Source = FromDeal(deal: Option<nat>) | FromDeposit(deposit: nat) | FromWithdrawal(withdrawal: nat)

  /** `deal` is the deal_id that top-up entries carry in their metadata. */
  datatype Entry = Entry(
    key: Key, event: EventType, source: Source, deal: Option<nat>,
    amountBefore: int, amountDelta: int, amountAfter: int,
    lockedBefore: int, lockedDelta: int, lockedAfter: int)

  datatype World = World(
    currencies: map<nat, Currency>, users: map<nat, User>, balances: map<Key, Balance>,
    deals: seq<Deal>, deposits: seq<Deposit>, withdrawals: seq<Withdrawal>, ledger: seq<Entry>)

  /** A missing balance row reads as zero: it is inserted as zero when first locked. */
  function BalanceOf(balances: map<Key, Balance>, k: Key): Balance
  {
    if k in balances then balances[k] else Balance(0, 0)
  }

  function Bal(w: World, k: Key): Balance
  {
    BalanceOf(w.balances, k)
  }

  function GridOf(w: World, currency: nat): (step: nat)
    requires currency in w.currencies
    ensures step > 0
  {
    Money.GridStep(w.currencies[currency].decimals)
  }

  // ---------------------------------------------------------------- effects

  /** A change of one balance row; `recorded` says whether a ledger entry is written for it. */
  datatype Posting =
    | NoPosting
    | Posting(key: Key, amount: int, locked: int, event: EventType, source: Source, deal: Option<nat>, recorded: bool)

  datatype TrustCredit = NoTrust | TrustCredit(user: nat, currency: nat, amount: int, deposit: nat)

  datatype Bump = NoBump | Bump(buyer: nat, forBuyer: Tally, seller: nat, forSeller: Tally)

  /** What one transaction writes: at most two balances, one row in each table, one new invoice. */
  datatype Effect = Effect(
    first: Posting, second: Posting, deal: Put<Deal>, deposit: Put<Deposit>, invoice: Put<Deposit>,
    withdrawal: Put<Withdrawal>, trust: TrustCredit, bump: Bump)

  const NOTHING := Effect(NoPosting, NoPosting, Keep, Keep, Keep, Keep, NoTrust, NoBump)

  function PostBalance(balances: map<Key, Balance>, p: Posting): map<Key, Balance>
  {
    if p.NoPosting? then balances else
      var b := BalanceOf(balances, p.key);
      balances[p.key := Balance(b.amount + p.amount, b.locked + p.locked)]
  }

  /** A posting that changes nothing leaves no ledger entry. */
  predicate Leaves(p: Posting)
  {
    p.Posting? && p.recorded && (p.amount != 0 || p.locked != 0)
  }

  function EntryFor(b: Balance, p: Posting): Entry
    requires p.Posting?
  {
    Entry(p.key, p.event, p.source, p.deal,
          b.amount, p.amount, b.amount + p.amount, b.locked, p.locked, b.locked + p.locked)
  }

  function PostLedger(balances: map<Key, Balance>, ledger: seq<Entry>, p: Posting): seq<Entry>
  {
    if Leaves(p) then ledger + [EntryFor(BalanceOf(balances, p.key), p)] else ledger
  }

  function TrustLedger(users: map<nat, User>, ledger: seq<Entry>, t: TrustCredit): seq<Entry>
  {
    if t.TrustCredit? && t.user in users && t.amount != 0 then
      var before := users[t.user].trust;
      ledger + [Entry(Key(t.user, t.currency), DepositTrustCredit, FromDeposit(t.deposit), None,
                      before, t.amount, before + t.amount, 0, 0, 0)]
    else ledger
  }

  function Trusted(users: map<nat, User>, t: TrustCredit): map<nat, User>
  {
    if t.TrustCredit? && t.user in users then
      users[t.user := users[t.user].(trust := users[t.user].trust + t.amount)]
    else users
  }

  function Plus(a: Tally, b: Tally): Tally
  {
    Tally(a.total + b.total, a.arbitrage + b.arbitrage, a.success + b.success, a.failed + b.failed)
  }

  function Counted(users: map<nat, User>, user: nat, t: Tally): map<nat, User>
  {
    if user in users then users[user := users[user].(tally := Plus(users[user].tally, t))] else users
  }

  function Bumped(users: map<nat, User>, b: Bump): map<nat, User>
  {
    if b.NoBump? then users
    else Counted(Counted(users, b.buyer, b.forBuyer), b.seller, b.forSeller)
  }

  function Apply(w: World, e: Effect): World
  {
    var balances := PostBalance(w.balances, e.first);
    var ledger := PostLedger(w.balances, w.ledger, e.first);
    World(
      w.currencies,
      Bumped(Trusted(w.users, e.trust), e.bump),
      PostBalance(balances, e.second),
      Written(w.deals, e.deal),
      Written(Written(w.deposits, e.deposit), e.invoice),
      Written(w.withdrawals, e.withdrawal),
      TrustLedger(w.users, PostLedger(balances, ledger, e.second), e.trust))
  }

  // -------------------------------------------------------- reading an effect

  function AmountAt(p: Posting, k: Key): int
  {
    if p.Posting? && p.key == k then p.amount else 0
  }

  function LockedAt(p: Posting, k: Key): int
  {
    if p.Posting? && p.key == k then p.locked else 0
  }

  lemma ApplyMovesBalance(w: World, e: Effect, k: Key)
    ensures Bal(Apply(w, e), k)
         == Balance(Bal(w, k).amount + AmountAt(e.first, k) + AmountAt(e.second, k),
                    Bal(w, k).locked + LockedAt(e.first, k) + LockedAt(e.second, k))
  {
  }

  lemma ApplyKeepsUsers(w: World, e: Effect)
    ensures Apply(w, e).users.Keys == w.users.Keys
  {
  }

  lemma {:induction false} ApplySums(w: World, e: Effect, d: Deal -> int, p: Deposit -> int, x: Withdrawal -> int)
    ensures Sum(Apply(w, e).deals, d) == Sum(w.deals, d) + Change(w.deals, e.deal, d)
    ensures Sum(Apply(w, e).deposits, p)
         == Sum(w.deposits, p) + Change(w.deposits, e.deposit, p) + Change(Written(w.deposits, e.deposit), e.invoice, p)
    ensures Sum(Apply(w, e).withdrawals, x) == Sum(w.withdrawals, x) + Change(w.withdrawals, e.withdrawal, x)
  {
    SumWritten(w.deals, e.deal, d);
    SumWritten(w.deposits, e.deposit, p);
    SumWritten(Written(w.deposits, e.deposit), e.invoice, p);
    SumWritten(w.withdrawals, e.withdrawal, x);
  }

  function EntryChange(balances: map<Key, Balance>, p: Posting, f: Entry -> int): int
  {
    if Leaves(p) then f(EntryFor(BalanceOf(balances, p.key), p)) else 0
  }

  lemma {:induction false} ApplyLedgerSum(w: World, e: Effect, f: Entry -> int)
    ensures Sum(Apply(w, e).ledger, f)
         == Sum(w.ledger, f) + EntryChange(w.balances, e.first, f)
            + EntryChange(PostBalance(w.balances, e.first), e.second, f)
            + (var l := TrustLedger(w.users, [], e.trust); if l == [] then 0 else f(l[0]))
  {
    var balances := PostBalance(w.balances, e.first);
    var l1 := PostLedger(w.balances, w.ledger, e.first);
    var l2 := PostLedger(balances, l1, e.second);
    if Leaves(e.first) { SumAppend(w.ledger, EntryFor(BalanceOf(w.balances, e.first.key), e.first), f); }
    if Leaves(e.second) { SumAppend(l1, EntryFor(BalanceOf(balances, e.second.key), e.second), f); }
    var l := TrustLedger(w.users, [], e.trust);
    if l != [] { SumAppend(l2, l[0], f); }
  }
}
