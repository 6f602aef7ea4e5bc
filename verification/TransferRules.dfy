/** When an account transfer goes through, what it does to the users, and where its code comes from. */
module TransferRules {
  import opened Common
  import opened Tables
  import opened Services
  import opened Safety
  import opened AccountTransfer
  import opened TransferSafety

  // ------------------------------------------------------------ when it goes through

  /** The user has set nothing up, traded nothing and holds nothing. */
  ghost predicate Untouched(w: World, u: nat)
    requires u in w.users
  {
    && w.users[u].shell && w.users[u].trust <= 0
    && (forall d :: d in w.deals ==> d.buyer != u && d.seller != u)
    && (forall p :: p in w.deposits ==> p.user != u)
    && (forall x :: x in w.withdrawals ==> x.user != u)
    && (forall k :: k in w.balances && k.user == u ==> w.balances[k].amount <= 0 && w.balances[k].locked <= 0)
  }

  lemma UntouchedIsClean(w: World, u: nat)
    requires u in w.users
    ensures Untouched(w, u) <==> !HasTradableData(w, u)
  {
  }

  predicate Usable(c: Code, hash: nat, now: int)
  {
    c.hash == hash && c.consumed == None && now < c.expires
  }

  predicate Spent(c: Code, now: int)
  {
    c.consumed.Some? || c.expires < now
  }

  /** `code` lets its source take over the identity of the target. */
  ghost predicate Transferable(d: Desk, target: nat, hash: Option<nat>, now: int, sweep: bool, code: Code)
  {
    && hash.Some? && code in d.codes && Usable(code, hash.value, now)
    && target in d.world.users && code.source in d.world.users && code.source != target
    && Untouched(d.world, target)
    && (forall c :: c in d.codes && c.source == target ==> sweep && Spent(c, now))
  }

  /** The source now has the identity of the target and new epochs, the target is gone, and all else stays. */
  ghost predicate TookOver(w: World, source: nat, target: nat, after: World)
    requires source in w.users && target in w.users && source != target
  {
    && after.users.Keys == w.users.Keys - {target}
    && (forall u :: u in after.users && u != source ==> after.users[u] == w.users[u])
    && after.users[source] == w.users[source].(tg := w.users[target].tg,
                                               pinEpoch := w.users[source].pinEpoch + 1,
                                               totpEpoch := w.users[source].totpEpoch + 1)
    && (forall k: Key :: k.user != target ==> Bal(after, k) == Bal(w, k))
    && after.deals == w.deals && after.deposits == w.deposits && after.withdrawals == w.withdrawals
    && after.currencies == w.currencies
  }

  lemma LiveCodeFound(codes: seq<Code>, code: Code, now: int)
    requires CodesOk(codes) && code in codes && Live(code, now)
    ensures FindLive(codes, code.hash, now).Some? && codes[FindLive(codes, code.hash, now).value] == code
  {
    var i :| 0 <= i < |codes| && codes[i] == code;
    assert codes[i].hash == code.hash && Live(codes[i], now);
    var found := FindLive(codes, code.hash, now);
    assert found.Some?;
  }

  /** What a purge before the lookup leaves: the usable codes, and of the target's none that would be in the way. */
  lemma PurgeKeepsUsable(codes: seq<Code>, sweep: bool, now: int, kept: seq<Code>)
    requires CodesOk(codes) && kept == if sweep then Purged(codes, now) else codes
    ensures CodesOk(kept)
    ensures forall c :: c in kept ==> c in codes
    ensures forall c :: c in codes && Live(c, now) ==> c in kept
    ensures forall u :: Named(kept, u)
                        <==> exists c :: c in codes && c.source == u && !(sweep && Spent(c, now))
  {
    PurgeKeepsOk(codes, now);
    forall u | Named(kept, u)
      ensures exists c :: c in codes && c.source == u && !(sweep && Spent(c, now))
    {
      var i :| 0 <= i < |kept| && kept[i].source == u;
      assert kept[i] in codes;
    }
    forall c | c in codes && !(sweep && Spent(c, now))
      ensures Named(kept, c.source)
    {
      assert c in kept;
      var i :| 0 <= i < |kept| && kept[i] == c;
      assert kept[i].source == c.source;
    }
  }

  /** The code is used up in the name of the new identity, and no other code that was live is touched. */
  ghost predicate UsedUp(d: Desk, code: Code, now: int, tg: nat, after: seq<Code>)
  {
    && code.(consumed := Some(now), target := Some(tg)) in after
    && code !in after
    && forall c :: c in d.codes && Live(c, now) && c != code ==> c in after
  }

  lemma UpdatedRow(codes: seq<Code>, at: nat, row: Code, after: seq<Code>)
    requires CodesOk(codes) && at < |codes| && after == codes[at := row] && row != codes[at]
    ensures row in after && codes[at] !in after
    ensures forall c :: c in codes && c != codes[at] ==> c in after
  {
    assert after[at] == row;
    forall c | c in codes && c != codes[at] ensures c in after {
      var i :| 0 <= i < |codes| && codes[i] == c;
      assert after[i] == c;
    }
  }

  /** A transfer goes through exactly if some code allows it, and then that code's source takes over. */
  lemma {:induction false} TransferGoesThroughIff(d: Desk, target: nat, hash: Option<nat>, now: int, sweep: bool,
                                                 out: Outcome)
    requires CodesOk(d.codes) && out == ConfirmTransfer(d, target, hash, now, sweep)
    ensures out.failure.None? <==> exists code :: Transferable(d, target, hash, now, sweep, code)
    ensures forall code :: Transferable(d, target, hash, now, sweep, code) ==>
                             && TookOver(d.world, code.source, target, out.desk.world)
                             && UsedUp(d, code, now, d.world.users[target].tg, out.desk.codes)
    ensures out.failure.Some? ==> out.desk.world == d.world
  {
    var kept := if sweep then Purged(d.codes, now) else d.codes;
    PurgeKeepsUsable(d.codes, sweep, now, kept);
    forall code | Transferable(d, target, hash, now, sweep, code)
      ensures out.failure.None? && TookOver(d.world, code.source, target, out.desk.world)
      ensures UsedUp(d, code, now, d.world.users[target].tg, out.desk.codes)
    {
      AllowedGoesThrough(d, target, hash, now, sweep, kept, code, out);
    }
    if out.failure.None? {
      UntouchedIsClean(d.world, target);
      var code := kept[FindLive(kept, hash.value, now).value];
      assert Transferable(d, target, hash, now, sweep, code);
    }
  }

  lemma AllowedGoesThrough(d: Desk, target: nat, hash: Option<nat>, now: int, sweep: bool, kept: seq<Code>,
                           code: Code, out: Outcome)
    requires CodesOk(kept) && kept == if sweep then Purged(d.codes, now) else d.codes
    requires Transferable(d, target, hash, now, sweep, code) && code in kept && !Named(kept, target)
    requires forall c :: c in d.codes && Live(c, now) ==> c in kept
    requires out == ConfirmTransfer(d, target, hash, now, sweep)
    ensures out.failure.None? && TookOver(d.world, code.source, target, out.desk.world)
    ensures UsedUp(d, code, now, d.world.users[target].tg, out.desk.codes)
  {
    LiveCodeFound(kept, code, now);
    UntouchedIsClean(d.world, target);
    var at := FindLive(kept, hash.value, now).value;
    UpdatedRow(kept, at, code.(consumed := Some(now), target := Some(d.world.users[target].tg)), out.desk.codes);
  }

  // ------------------------------------------------------------- where its code is from

  /** Event m issued code c, and since then its source has neither cancelled it nor been issued another one. */
  ghost predicate StandsSince(d: Desk, events: seq<DeskEvent>, c: Code, m: nat)
  {
    && m < |events| && events[m].IssueCode?
    && events[m].source == c.source && events[m].hash == c.hash && events[m].now + events[m].ttl == c.expires
    && forall n :: m < n < |events| ==> !Ends(DeskRun(d, events[..n]), events[n], c.source)
  }

  /** The call ends every code of the source. */
  ghost predicate Ends(d: Desk, e: DeskEvent, source: nat)
  {
    || (e.CancelCode? && e.source == source)
    || (e.IssueCode? && e.source == source && DeskStep(d, e) != d)
  }

  lemma UnconsumedAfter(d: Desk, e: DeskEvent, c: Code)
    requires c in DeskStep(d, e).codes && c.consumed.None?
    ensures || (c in d.codes && !Ends(d, e, c.source))
            || (e.IssueCode? && c == Code(e.source, e.hash, e.now + e.ttl, None, None))
  {
    var i :| 0 <= i < |DeskStep(d, e).codes| && DeskStep(d, e).codes[i] == c;
  }

  lemma {:induction false} CodesAreIssued(d: Desk, events: seq<DeskEvent>, c: Code) returns (m: nat)
    requires d.codes == [] && c in DeskRun(d, events).codes && c.consumed.None?
    ensures StandsSince(d, events, c, m)
  {
    var n := |events| - 1;
    var before := DeskRun(d, events[..n]);
    UnconsumedAfter(before, events[n], c);
    if c in before.codes && !Ends(before, events[n], c.source) {
      m := CodesAreIssued(d, events[..n], c);
      forall k | m < k < |events| ensures !Ends(DeskRun(d, events[..k]), events[k], c.source) {
        if k < n { assert events[..n][..k] == events[..k]; }
      }
    } else {
      m := n;
    }
  }

  /**
    In every run, whoever takes over an identity has asked for the code before: it was issued
    to that very user, it has not run out, and it was neither cancelled nor replaced since.
   */
  lemma {:induction false} TransfersHaveTheirCode(d: Desk, events: seq<DeskEvent>, target: nat, hash: Option<nat>,
                                                  now: int, sweep: bool, out: Outcome)
    returns (code: Code, m: nat)
    requires Fresh(d.world) && TgInjective(d.world.users) && d.codes == [] && FairDesk(d, events)
    requires out == ConfirmTransfer(DeskRun(d, events), target, hash, now, sweep) && out.failure.None?
    ensures Transferable(DeskRun(d, events), target, hash, now, sweep, code)
    ensures TookOver(DeskRun(d, events).world, code.source, target, out.desk.world)
    ensures StandsSince(d, events, code, m) && now < events[m].now + events[m].ttl && hash == Some(events[m].hash)
  {
    TransfersKeepEverything(d, events);
    TransferGoesThroughIff(DeskRun(d, events), target, hash, now, sweep, out);
    code :| Transferable(DeskRun(d, events), target, hash, now, sweep, code);
    m := CodesAreIssued(d, events, code);
  }
}
