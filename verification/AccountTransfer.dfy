/**
  Moving an account to another Telegram identity with a one-time code: the code table, and
  what the move does to the escrow tables.
 */
module AccountTransfer {
  import opened Common
  import opened Sums
  import opened Tables
  import opened Services
  import opened Books
  import opened Safety

  // ---------------------------------------------------------------- the codes

  /** `hash` stands for the keyed hash of the digits. */
  datatype Code = Code(source: nat, hash: nat, expires: int, consumed: Option<int>, target: Option<nat>)

  predicate Live(c: Code, now: int)
  {
    c.consumed.None? && c.expires > now
  }

  function Purged(codes: seq<Code>, now: int): (kept: seq<Code>)
    ensures forall c :: c in kept <==> c in codes && !(c.expires < now || c.consumed.Some?)
  {
    if codes == [] then [] else
      var n := |codes| - 1;
      var rest, c := Purged(codes[..n], now), codes[n];
      assert codes == codes[..n] + [c];
      if c.expires < now || c.consumed.Some? then rest else rest + [c]
  }

  function Stamped(c: Code, source: nat, now: int): Code
  {
    if c.source == source && c.consumed.None? then c.(consumed := Some(now)) else c
  }

  function Invalidated(codes: seq<Code>, source: nat, now: int): (after: seq<Code>)
    ensures |after| == |codes| && forall i :: 0 <= i < |codes| ==> after[i] == Stamped(codes[i], source, now)
  {
    seq(|codes|, i requires 0 <= i < |codes| => Stamped(codes[i], source, now))
  }

  function Unconsumed(codes: seq<Code>, source: nat): (count: nat)
  {
    if codes == [] then 0 else
      var n := |codes| - 1;
      Unconsumed(codes[..n], source) + if codes[n].source == source && codes[n].consumed.None? then 1 else 0
  }

  /** What a new code is inserted into. */
  function Cleared(codes: seq<Code>, source: nat, now: int): seq<Code>
  {
    Invalidated(Purged(codes, now), source, now)
  }

  predicate Taken(codes: seq<Code>, hash: nat)
  {
    exists i :: 0 <= i < |codes| && codes[i].hash == hash
  }

  predicate TakenLive(codes: seq<Code>, hash: nat, now: int)
  {
    exists i :: 0 <= i < |codes| && codes[i].hash == hash && Live(codes[i], now)
  }

  /** The first of a series of draws that no row has. */
  ghost predicate IsFirstFree(codes: seq<Code>, draw: nat -> nat, hash: nat)
  {
    !Taken(codes, hash) && exists k: nat :: hash == draw(k) && forall m: nat :: m < k ==> Taken(codes, draw(m))
  }

  function Issued(codes: seq<Code>, source: nat, now: int, ttl: nat, hash: nat): seq<Code>
  {
    Cleared(codes, source, now) + [Code(source, hash, now + ttl, None, None)]
  }

  /** The unique constraint on hashes, and one unconsumed code per source. */
  ghost predicate CodesOk(codes: seq<Code>)
  {
    forall i, j :: 0 <= i < j < |codes| ==>
                     && codes[i].hash != codes[j].hash
                     && !(codes[i].source == codes[j].source && codes[i].consumed.None? && codes[j].consumed.None?)
  }

  class CodeTable {
    var rows: seq<Code>

    constructor ()
      ensures rows == []
    {
      rows := [];
    }

    /** _purge_expired: delete the expired and the consumed codes. */
    method Purge(now: int)
      modifies this
      ensures rows == Purged(old(rows), now)
    {
      var kept: seq<Code> := [];
      for i := 0 to |rows|
        invariant rows == old(rows)
        invariant kept == Purged(rows[..i], now)
      {
        assert rows[..i + 1][..i] == rows[..i];
        if !(rows[i].expires < now || rows[i].consumed.Some?) {
          kept := kept + [rows[i]];
        }
      }
      assert rows[..|rows|] == rows;
      rows := kept;
    }

    /** _invalidate_active_for, and the number of rows it stamps. */
    method Invalidate(source: nat, now: int) returns (stamped: nat)
      modifies this
      ensures rows == Invalidated(old(rows), source, now) && stamped == Unconsumed(old(rows), source)
    {
      stamped := 0;
      for i := 0 to |rows|
        invariant |rows| == |old(rows)| && stamped == Unconsumed(old(rows)[..i], source)
        invariant forall k :: 0 <= k < i ==> rows[k] == Stamped(old(rows)[k], source, now)
        invariant forall k :: i <= k < |rows| ==> rows[k] == old(rows)[k]
      {
        assert old(rows)[..i + 1][..i] == old(rows)[..i];
        if rows[i].source == source && rows[i].consumed.None? {
          rows := rows[i := rows[i].(consumed := Some(now))];
          stamped := stamped + 1;
        }
      }
      assert old(rows)[..|old(rows)|] == old(rows);
    }

    /**
      _generate_unique_code: the first draw whose hash is not that of a live code; it gives
      up after `attempts` draws.
     */
    method DrawUnique(now: int, attempts: nat, draw: nat -> nat, from: nat) returns (hash: Option<nat>, next: nat)
      ensures from <= next <= from + attempts
      ensures hash.Some? ==> next > from && hash.value == draw(next - 1) && !TakenLive(rows, hash.value, now)
      ensures hash.None? ==> next == from + attempts
      ensures forall k: nat :: from <= k < (if hash.Some? then next - 1 else next) ==> TakenLive(rows, draw(k), now)
    {
      next := from;
      for attempt := 0 to attempts
        invariant next == from + attempt
        invariant forall k: nat :: from <= k < next ==> TakenLive(rows, draw(k), now)
      {
        var candidate := draw(next);
        next := next + 1;
        if !TakenLive(rows, candidate, now) {
          return Some(candidate), next;
        }
      }
      hash := None;
    }

    /**
      issue_code: a draw that collides with any stored hash is rolled back and tried again. So
      the new code is the first draw that no stored row has, and the call gives up only after
      `attempts` draws that are all taken.
     */
    method Issue(source: nat, now: int, ttl: nat, attempts: nat, draw: nat -> nat) returns (hash: Option<nat>)
      modifies this
      ensures hash.Some? ==>
                && rows == Issued(old(rows), source, now, ttl, hash.value)
                && IsFirstFree(Cleared(old(rows), source, now), draw, hash.value)
      ensures hash.None? ==>
                && rows == old(rows)
                && forall k: nat :: k < attempts ==> Taken(Cleared(old(rows), source, now), draw(k))
    {
      var begun := rows;
      Purge(now);
      var _ := Invalidate(source, now);
      var next := 0;
      for attempt := 0 to attempts
        invariant rows == Cleared(begun, source, now) && next >= attempt
        invariant forall k: nat :: k < next ==> Taken(Cleared(begun, source, now), draw(k))
      {
        var drawn := next;
        hash, next := DrawUnique(now, attempts, draw, next);
        forall k: nat | drawn <= k < (if hash.Some? then next - 1 else next) ensures Taken(rows, draw(k)) {
          assert TakenLive(rows, draw(k), now);
        }
        if hash.None? {
          rows := begun;
          return;
        }
        if !Taken(rows, hash.value) {
          rows := rows + [Code(source, hash.value, now + ttl, None, None)];
          return;
        }
        rows := begun;
        Purge(now);
        var _ := Invalidate(source, now);
      }
      rows := begun;
      hash := None;
    }
  }

  lemma {:induction false} PurgeKeepsOk(codes: seq<Code>, now: int)
    requires CodesOk(codes)
    ensures CodesOk(Purged(codes, now))
  {
    if codes != [] {
      var n := |codes| - 1;
      PurgeKeepsOk(codes[..n], now);
      var rest := Purged(codes[..n], now);
      forall i | 0 <= i < |rest| ensures rest[i].hash != codes[n].hash
          && !(rest[i].source == codes[n].source && rest[i].consumed.None? && codes[n].consumed.None?)
      {
        assert rest[i] in codes[..n];
      }
    }
  }

  lemma ClearedKeepsOk(codes: seq<Code>, source: nat, now: int)
    requires CodesOk(codes)
    ensures CodesOk(Cleared(codes, source, now))
    ensures forall i :: 0 <= i < |Cleared(codes, source, now)| ==>
                          var c := Cleared(codes, source, now)[i]; c.source == source ==> c.consumed.Some?
  {
    PurgeKeepsOk(codes, now);
  }

  /** Issuing a code ends every other code of its source and clashes with none. */
  lemma IssueKeepsOk(codes: seq<Code>, source: nat, now: int, ttl: nat, hash: nat)
    requires CodesOk(codes) && !Taken(Cleared(codes, source, now), hash)
    ensures CodesOk(Issued(codes, source, now, ttl, hash))
  {
    ClearedKeepsOk(codes, source, now);
    var cleared := Cleared(codes, source, now);
    forall i | 0 <= i < |cleared| ensures cleared[i].hash != hash {
    }
  }

  /** At most one code of a source is unconsumed, so at most one is live. */
  lemma {:induction false} OneUnconsumedCode(codes: seq<Code>, source: nat)
    requires CodesOk(codes)
    ensures Unconsumed(codes, source) <= 1
    ensures Unconsumed(codes, source) == 0 ==>
              forall i :: 0 <= i < |codes| && codes[i].source == source ==> codes[i].consumed.Some?
  {
    if codes != [] {
      var n := |codes| - 1;
      OneUnconsumedCode(codes[..n], source);
      if Unconsumed(codes[..n], source) == 1 {
        SomeUnconsumed(codes[..n], source);
      }
    }
  }

  lemma {:induction false} SomeUnconsumed(codes: seq<Code>, source: nat)
    requires Unconsumed(codes, source) > 0
    ensures exists i :: 0 <= i < |codes| && codes[i].source == source && codes[i].consumed.None?
  {
    var n := |codes| - 1;
    if !(codes[n].source == source && codes[n].consumed.None?) {
      SomeUnconsumed(codes[..n], source);
      var i :| 0 <= i < n && codes[..n][i].source == source && codes[..n][i].consumed.None?;
      assert codes[i].source == source;
    }
  }

  // ----------------------------------------------------------------- the move

  /** A balance row of u with money on it. */
  predicate HasMoney(balances: map<Key, Balance>, u: nat)
  {
    exists k :: k in balances && k.user == u && (balances[k].amount > 0 || balances[k].locked > 0)
  }

  /** _has_tradable_data; `shell` stands for no PIN, no service and no review. */
  predicate HasTradableData(w: World, u: nat)
    requires u in w.users
  {
    || !w.users[u].shell || w.users[u].trust > 0
    || (exists i :: 0 <= i < |w.deals| && (w.deals[i].buyer == u || w.deals[i].seller == u))
    || (exists i :: 0 <= i < |w.deposits| && w.deposits[i].user == u)
    || (exists i :: 0 <= i < |w.withdrawals| && w.withdrawals[i].user == u)
    || HasMoney(w.balances, u)
  }

  function Without(ledger: seq<Entry>, u: nat): seq<Entry>
  {
    if ledger == [] then [] else
      var n := |ledger| - 1;
      var rest := Without(ledger[..n], u);
      if ledger[n].key.user == u then rest else rest + [ledger[n]]
  }

  /** Deleting a user takes its balance rows and ledger entries along. */
  function DeleteUser(w: World, u: nat): World
  {
    w.(users := w.users - {u},
       balances := map k | k in w.balances && k.user != u :: w.balances[k],
       ledger := Without(w.ledger, u))
  }

  /** The source takes over the identity; its sessions end. */
  function TakeOver(u: User, tg: nat): User
  {
    u.(tg := tg, pinEpoch := u.pinEpoch + 1, totpEpoch := u.totpEpoch + 1)
  }

  function Moved(w: World, source: nat, target: nat): World
    requires source in w.users && target in w.users && source != target
  {
    var deleted := DeleteUser(w, target);
    deleted.(users := deleted.users[source := TakeOver(w.users[source], w.users[target].tg)])
  }

  /** The live code with this hash. */
  function FindLive(codes: seq<Code>, hash: nat, now: int): (at: Option<nat>)
    ensures at.Some? ==> at.value < |codes| && codes[at.value].hash == hash && Live(codes[at.value], now)
    ensures at.None? ==> !TakenLive(codes, hash, now)
  {
    if codes == [] then None else
      var n := |codes| - 1;
      if codes[n].hash == hash && Live(codes[n], now) then Some(n) else FindLive(codes[..n], hash, now)
  }

  datatype Desk = Desk(world: World, codes: seq<Code>)

  /** A refused call writes nothing, except that a code whose source is gone is used up. */
  datatype Outcome = Outcome(desk: Desk, failure: Option<Error>)

  /** A code row still names u, so the database refuses to delete u. */
  predicate Named(codes: seq<Code>, u: nat)
  {
    exists i :: 0 <= i < |codes| && codes[i].source == u
  }

  /** confirm_transfer; `hash` is None for a malformed code, `sweep` is the outcome of the sampling. */
  function ConfirmTransfer(d: Desk, target: nat, hash: Option<nat>, now: int, sweep: bool): Outcome
  {
    if target !in d.world.users then Outcome(d, Some(NotFound))
    else if hash.None? then Outcome(d, Some(BadCode))
    else
      var codes := if sweep then Purged(d.codes, now) else d.codes;
      var at := FindLive(codes, hash.value, now);
      if at.None? then Outcome(d, Some(BadCode))
      else
        var row := codes[at.value];
        if row.source !in d.world.users then
          Outcome(Desk(d.world, codes[at.value := row.(consumed := Some(now))]), Some(NotFound))
        else if row.source == target then Outcome(d, Some(SelfTransfer))
        else if HasTradableData(d.world, target) then Outcome(d, Some(TargetNotEmpty))
        else if Named(codes, target) then Outcome(d, Some(Referenced))
        else
          Outcome(Desk(Moved(d.world, row.source, target),
                       codes[at.value := row.(consumed := Some(now), target := Some(d.world.users[target].tg))]),
                  None)
  }

  /** No two users share a Telegram identity. */
  ghost predicate TgInjective(users: map<nat, User>)
  {
    forall u, v :: u in users && v in users && users[u].tg == users[v].tg ==> u == v
  }

  lemma MoveKeepsInjective(w: World, source: nat, target: nat)
    requires source in w.users && target in w.users && source != target && TgInjective(w.users)
    ensures TgInjective(Moved(w, source, target).users)
    ensures Moved(w, source, target).users.Keys == w.users.Keys - {target}
    ensures Moved(w, source, target).users[source].tg == w.users[target].tg
  {
  }
}
