/** An account transfer leaves the books alone, in any mix with all other calls. */
module TransferSafety {
  import opened Common
  import opened Sums
  import opened Tables
  import opened Services
  import opened Books
  import opened Safety
  import opened Conservation
  import opened Ledger
  import opened AccountTransfer

  /** The guard is enough: the deleted user owns nothing. */
  lemma EmptyUserOwnsNothing(w: World, u: nat, k: Key)
    requires Valid(w) && u in w.users && !HasTradableData(w, u) && k.user == u
    ensures Bal(w, k) == Balance(0, 0)
  {
    assert Balanced(w, k);
    assert DealsOk(w) && WithdrawalsOk(w);
    SumNonNegative(w.deals, HeldByDeal(k));
    SumNonNegative(w.withdrawals, HeldByWithdrawal(k));
  }

  lemma MoveKeepsBalance(w: World, source: nat, target: nat, k: Key)
    requires Valid(w) && source in w.users && target in w.users && source != target && !HasTradableData(w, target)
    ensures Bal(Moved(w, source, target), k) == Bal(w, k)
  {
    if k.user == target {
      EmptyUserOwnsNothing(w, target, k);
    }
  }

  /** Everyone else's books are as before, and nobody's row refers to the deleted user. */
  lemma MoveKeepsValid(w: World, source: nat, target: nat, after: World)
    requires Valid(w) && source in w.users && target in w.users && source != target && !HasTradableData(w, target)
    requires after == Moved(w, source, target)
    ensures Valid(after)
  {
    forall i | 0 <= i < |w.deals| ensures DealOk(after, w.deals[i]) {
      assert DealOk(w, w.deals[i]);
    }
    forall i | 0 <= i < |w.deposits| ensures DepositOk(after, w.deposits[i]) {
      assert DepositOk(w, w.deposits[i]);
    }
    forall i | 0 <= i < |w.withdrawals| ensures WithdrawalOk(after, w.withdrawals[i]) {
      assert WithdrawalOk(w, w.withdrawals[i]);
    }
    forall k ensures Balanced(after, k) {
      assert Balanced(w, k);
      MoveKeepsBalance(w, source, target, k);
    }
  }

  /** The users' total holdings do not change. */
  lemma {:induction false} MoveKeepsTotals(w: World, source: nat, target: nat, after: World, currency: nat)
    requires Valid(w) && source in w.users && target in w.users && source != target && !HasTradableData(w, target)
    requires after == Moved(w, source, target)
    ensures Total(after.users.Keys, Holdings(after, currency)) == Total(w.users.Keys, Holdings(w, currency))
  {
    assert after.users.Keys == w.users.Keys - {target};
    EmptyUserOwnsNothing(w, target, Key(target, currency));
    TotalRemove(w.users.Keys, target, Holdings(w, currency));
    forall u | u in after.users.Keys ensures Holdings(after, currency)(u) == Holdings(w, currency)(u) {
      MoveKeepsBalance(w, source, target, Key(u, currency));
    }
    TotalCongruent(after.users.Keys, Holdings(after, currency), Holdings(w, currency));
  }

  // ------------------------------------------------------------------- ledger

  lemma {:induction false} SumWithout(ledger: seq<Entry>, u: nat, f: Entry -> int)
    requires forall i :: 0 <= i < |ledger| && ledger[i].key.user == u ==> f(ledger[i]) == 0
    ensures Sum(Without(ledger, u), f) == Sum(ledger, f)
  {
    if ledger != [] {
      var n := |ledger| - 1;
      SumWithout(ledger[..n], u, f);
      if ledger[n].key.user != u {
        SumAppend(Without(ledger[..n], u), ledger[n], f);
      }
    }
  }

  lemma {:induction false} NoneLeft(ledger: seq<Entry>, u: nat)
    ensures forall i :: 0 <= i < |Without(ledger, u)| ==> Without(ledger, u)[i].key.user != u
  {
    if ledger != [] {
      NoneLeft(ledger[..|ledger| - 1], u);
    }
  }

  lemma {:induction false} ChainWithout(ledger: seq<Entry>, u: nat, k: Key)
    requires k.user != u
    ensures LastAfter(Without(ledger, u), k) == LastAfter(ledger, k)
    ensures Chained(ledger, k) ==> Chained(Without(ledger, u), k)
  {
    if ledger != [] {
      var n := |ledger| - 1;
      ChainWithout(ledger[..n], u, k);
      if ledger[n].key.user != u {
        var kept := Without(ledger, u);
        assert kept[..|kept| - 1] == Without(ledger[..n], u);
      }
    }
  }

  lemma {:induction false} ChainOfNone(ledger: seq<Entry>, k: Key)
    requires forall i :: 0 <= i < |ledger| ==> ledger[i].key != k
    ensures Chained(ledger, k) && LastAfter(ledger, k) == Balance(0, 0)
  {
    if ledger != [] {
      ChainOfNone(ledger[..|ledger| - 1], k);
    }
  }

  /** Deleting the user's entries leaves every other account explained, and the user's own empty. */
  lemma {:induction false} MoveKeepsTracked(w: World, source: nat, target: nat, after: World, k: Key)
    requires Valid(w) && source in w.users && target in w.users && source != target && !HasTradableData(w, target)
    requires after == Moved(w, source, target) && Tracked(w, k)
    ensures Tracked(after, k)
  {
    MoveKeepsBalance(w, source, target, k);
    if k.user == target {
      EmptyUserOwnsNothing(w, target, k);
      NoneLeft(w.ledger, target);
      SumZero(after.ledger, AmountMoved(k));
      SumZero(after.ledger, LockedMoved(k));
      SumZero(w.withdrawals, SweptBack(k));
      SumZero(w.withdrawals, SweptOff(k));
      ChainOfNone(after.ledger, k);
    } else {
      SumWithout(w.ledger, target, AmountMoved(k));
      SumWithout(w.ledger, target, LockedMoved(k));
      ChainWithout(w.ledger, target, k);
      assert NotSwept(after, k) ==> NotSwept(w, k);
    }
  }

  // --------------------------------------------------------------------- runs

  datatype DeskEvent =
    | Service(event: Event)
    | IssueCode(source: nat, now: int, ttl: nat, hash: nat)
    | CancelCode(source: nat, now: int)
    | PurgeCodes(now: int)
    | Confirm(target: nat, typed: Option<nat>, now: int, sweep: bool)

  function DeskStep(d: Desk, e: DeskEvent): Desk
  {
    match e
    case Service(event) => d.(world := Step(d.world, event))
    case IssueCode(source, now, ttl, hash) =>
      if Taken(Cleared(d.codes, source, now), hash) then d else d.(codes := Issued(d.codes, source, now, ttl, hash))
    case CancelCode(source, now) => d.(codes := Invalidated(d.codes, source, now))
    case PurgeCodes(now) => d.(codes := Purged(d.codes, now))
    case Confirm(target, hash, now, sweep) => ConfirmTransfer(d, target, hash, now, sweep).desk
  }

  function DeskRun(d: Desk, events: seq<DeskEvent>): Desk
  {
    if events == [] then d else DeskStep(DeskRun(d, events[..|events| - 1]), events[|events| - 1])
  }

  ghost predicate FairDesk(d: Desk, events: seq<DeskEvent>)
  {
    events == [] ||
    (var n := |events| - 1;
     && FairDesk(d, events[..n])
     && (events[n].Service? ==> Assumed(DeskRun(d, events[..n]).world, events[n].event)))
  }

  ghost predicate DeskOk(d: Desk)
  {
    Valid(d.world) && TgInjective(d.world.users) && CodesOk(d.codes) && forall k :: Tracked(d.world, k)
  }

  lemma ServiceKeepsIdentities(w: World, e: Event)
    requires TgInjective(w.users)
    ensures TgInjective(Step(w, e).users) && Step(w, e).users.Keys == w.users.Keys
  {
    var plan := PlanOf(w, e);
    if plan.Ok? {
      EffectKeepsIdentities(w, plan.value, Apply(w, plan.value));
    }
  }

  lemma EffectKeepsIdentities(w: World, e: Effect, after: World)
    requires after == Apply(w, e)
    ensures after.users.Keys == w.users.Keys
    ensures forall u :: u in w.users ==> after.users[u].tg == w.users[u].tg
  {
  }

  lemma ConfirmKeepsDesk(d: Desk, target: nat, hash: Option<nat>, now: int, sweep: bool, out: Outcome)
    requires DeskOk(d) && out == ConfirmTransfer(d, target, hash, now, sweep)
    ensures DeskOk(out.desk)
  {
    ConfirmKeepsCodes(d, target, hash, now, sweep, out);
    if out.failure.None? {
      var codes := if sweep then Purged(d.codes, now) else d.codes;
      var source := codes[FindLive(codes, hash.value, now).value].source;
      MoveKeepsDesk(d.world, source, target, out.desk.world);
    }
  }

  lemma ConfirmKeepsCodes(d: Desk, target: nat, hash: Option<nat>, now: int, sweep: bool, out: Outcome)
    requires CodesOk(d.codes) && out == ConfirmTransfer(d, target, hash, now, sweep)
    ensures CodesOk(out.desk.codes)
    ensures out.failure.Some? ==> out.desk.world == d.world
  {
    PurgeKeepsOk(d.codes, now);
  }

  lemma MoveKeepsDesk(w: World, source: nat, target: nat, after: World)
    requires Valid(w) && TgInjective(w.users) && forall k :: Tracked(w, k)
    requires source in w.users && target in w.users && source != target && !HasTradableData(w, target)
    requires after == Moved(w, source, target)
    ensures Valid(after) && TgInjective(after.users) && forall k :: Tracked(after, k)
  {
    MoveKeepsInjective(w, source, target);
    MoveKeepsValid(w, source, target, after);
    forall k ensures Tracked(after, k) {
      MoveKeepsTracked(w, source, target, after, k);
    }
  }

  lemma ConsumedIsNotFound(codes: seq<Code>, at: nat, used: Code, later: int)
    requires CodesOk(codes) && at < |codes| && used.hash == codes[at].hash && used.consumed.Some?
    ensures FindLive(codes[at := used], used.hash, later).None?
  {
    var again := FindLive(codes[at := used], used.hash, later);
  }

  /** What a successful transfer leaves in the code table: the table it looked into, with one row used up. */
  lemma UsedRow(d: Desk, target: nat, hash: Option<nat>, now: int, sweep: bool, out: Outcome)
    returns (codes: seq<Code>, at: nat, used: Code)
    requires CodesOk(d.codes) && out == ConfirmTransfer(d, target, hash, now, sweep) && out.failure.None?
    ensures CodesOk(codes) && at < |codes| && out.desk.codes == codes[at := used]
    ensures hash.Some? && used.hash == codes[at].hash == hash.value && used.consumed.Some?
  {
    codes := if sweep then Purged(d.codes, now) else d.codes;
    PurgeKeepsOk(d.codes, now);
    at := FindLive(codes, hash.value, now).value;
    used := codes[at].(consumed := Some(now), target := Some(d.world.users[target].tg));
  }

  /** A successful transfer uses its code up: no later call finds it live. */
  lemma TransferConsumesItsCode(d: Desk, target: nat, hash: Option<nat>, now: int, sweep: bool, out: Outcome,
                                later: int)
    requires CodesOk(d.codes) && out == ConfirmTransfer(d, target, hash, now, sweep) && out.failure.None?
    ensures hash.Some? && FindLive(out.desk.codes, hash.value, later).None?
  {
    var codes, at, used := UsedRow(d, target, hash, now, sweep, out);
    ConsumedIsNotFound(codes, at, used, later);
  }

  lemma StepKeepsDesk(d: Desk, e: DeskEvent)
    requires DeskOk(d) && (e.Service? ==> Assumed(d.world, e.event))
    ensures DeskOk(DeskStep(d, e))
  {
    match e
    case Service(event) =>
      StepKeepsValid(d.world, event);
      ServiceKeepsIdentities(d.world, event);
      forall k ensures Tracked(Step(d.world, event), k) {
        StepKeepsTracked(d.world, event, k);
      }
    case IssueCode(source, now, ttl, hash) =>
      if !Taken(Cleared(d.codes, source, now), hash) {
        IssueKeepsOk(d.codes, source, now, ttl, hash);
      }
    case CancelCode(source, now) =>
    case PurgeCodes(now) => PurgeKeepsOk(d.codes, now);
    case Confirm(target, hash, now, sweep) =>
      ConfirmKeepsDesk(d, target, hash, now, sweep, ConfirmTransfer(d, target, hash, now, sweep));
  }

  /** In every run of services and transfers: balanced books, distinct identities, one live code per source. */
  lemma {:induction false} TransfersKeepEverything(d: Desk, events: seq<DeskEvent>)
    requires Fresh(d.world) && TgInjective(d.world.users) && d.codes == [] && FairDesk(d, events)
    ensures DeskOk(DeskRun(d, events))
  {
    if events == [] {
      BooksAlwaysBalance(d.world, []);
      forall k ensures Tracked(d.world, k) {
        LedgerTracksBalances(d.world, [], k);
      }
    } else {
      var n := |events| - 1;
      TransfersKeepEverything(d, events[..n]);
      StepKeepsDesk(DeskRun(d, events[..n]), events[n]);
    }
  }

  /** No transfer, in any mix with the services, creates or loses money. */
  lemma MoneyConservedWithTransfers(d: Desk, events: seq<DeskEvent>, currency: nat)
    requires Fresh(d.world) && TgInjective(d.world.users) && d.codes == [] && FairDesk(d, events)
    ensures Conserved(DeskRun(d, events).world, currency)
  {
    TransfersKeepEverything(d, events);
    MoneyIsConserved(DeskRun(d, events).world, currency);
  }

  /** What that means for the codes: a hash names one code, a source has one live code. */
  lemma LiveCodesAreDistinct(d: Desk, events: seq<DeskEvent>, i: nat, j: nat, now: int)
    requires Fresh(d.world) && TgInjective(d.world.users) && d.codes == [] && FairDesk(d, events)
    requires var codes := DeskRun(d, events).codes;
             i < |codes| && j < |codes| && Live(codes[i], now) && Live(codes[j], now)
    ensures var codes := DeskRun(d, events).codes;
            codes[i].hash == codes[j].hash || codes[i].source == codes[j].source ==> i == j
  {
    TransfersKeepEverything(d, events);
  }
}
