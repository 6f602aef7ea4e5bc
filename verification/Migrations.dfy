/** The two migrations that rewrite the balance table, statement by statement. */
module Migrations {
  import opened Common
  import opened Sums
  import opened Tables

  // ------------------------------------------------------------ the fold (v11)

  /** A row of user_balances before (user, currency) was unique. */
  datatype Row = Row(id: nat, user: nat, currency: nat, amount: int, locked: int)

  function KeyOf(r: Row): Key { Key(r.user, r.currency) }

  function AmountIn(k: Key): Row -> int { (r: Row) => if KeyOf(r) == k then r.amount else 0 }
  function LockedIn(k: Key): Row -> int { (r: Row) => if KeyOf(r) == k then r.locked else 0 }
  function CountIn(k: Key): Row -> int { (r: Row) => if KeyOf(r) == k then 1 else 0 }

  ghost predicate DistinctIds(rows: seq<Row>)
  {
    forall i, j :: 0 <= i < j < |rows| ==> rows[i].id != rows[j].id
  }

  /** The lowest id of the group k. */
  function KeepId(rows: seq<Row>, k: Key): (id: Option<nat>)
    ensures id.None? ==> forall i :: 0 <= i < |rows| ==> KeyOf(rows[i]) != k
    ensures id.Some? ==> forall i :: 0 <= i < |rows| && KeyOf(rows[i]) == k ==> id.value <= rows[i].id
    ensures id.Some? ==> exists i :: 0 <= i < |rows| && KeyOf(rows[i]) == k && rows[i].id == id.value
  {
    if rows == [] then None else
      var n := |rows| - 1;
      var earlier := KeepId(rows[..n], k);
      if KeyOf(rows[n]) != k || (earlier.Some? && earlier.value <= rows[n].id) then
        assert earlier.Some? ==> exists i :: 0 <= i < n && KeyOf(rows[..n][i]) == k && rows[..n][i].id == earlier.value;
        earlier
      else
        Some(rows[n].id)
  }

  /** HAVING COUNT(*) > 1 */
  predicate Duplicated(rows: seq<Row>, k: Key)
  {
    Sum(rows, CountIn(k)) > 1
  }

  /** The UPDATE on one row; the grouped sums are those of the table before it. */
  function Totalled(rows: seq<Row>, r: Row): Row
  {
    var k := KeyOf(r);
    if Duplicated(rows, k) && KeepId(rows, k) == Some(r.id)
    then r.(amount := Sum(rows, AmountIn(k)), locked := Sum(rows, LockedIn(k)))
    else r
  }

  function Updated(rows: seq<Row>): (after: seq<Row>)
    ensures |after| == |rows| && forall i :: 0 <= i < |rows| ==> after[i] == Totalled(rows, rows[i])
  {
    seq(|rows|, i requires 0 <= i < |rows| => Totalled(rows, rows[i]))
  }

  /** Rows the DELETE spares, with the groups of `table`. */
  predicate Spared(table: seq<Row>, r: Row)
  {
    !Duplicated(table, KeyOf(r)) || KeepId(table, KeyOf(r)) == Some(r.id)
  }

  function Deleted(table: seq<Row>, rows: seq<Row>): (kept: seq<Row>)
  {
    if rows == [] then [] else
      var n := |rows| - 1;
      var rest := Deleted(table, rows[..n]);
      if Spared(table, rows[n]) then rest + [rows[n]] else rest
  }

  function Folded(rows: seq<Row>): seq<Row>
  {
    Deleted(Updated(rows), Updated(rows))
  }

  /** The table as the migration sees it. */
  class BalanceTable {
    var rows: seq<Row>

    constructor (rows: seq<Row>)
      ensures this.rows == rows
    {
      this.rows := rows;
    }

    /** The update: the lowest row of each duplicated group takes the sums of the group. */
    method FoldInto()
      modifies this
      ensures rows == Updated(old(rows))
    {
      var snapshot := rows;
      for i := 0 to |snapshot|
        invariant |rows| == |snapshot|
        invariant forall j :: 0 <= j < i ==> rows[j] == Totalled(snapshot, snapshot[j])
        invariant forall j :: i <= j < |rows| ==> rows[j] == snapshot[j]
      {
        rows := rows[i := Totalled(snapshot, snapshot[i])];
      }
    }

    /** The delete: the other rows of each duplicated group go. */
    method DeleteRest()
      modifies this
      ensures rows == Deleted(old(rows), old(rows))
    {
      var kept: seq<Row> := [];
      for i := 0 to |rows|
        invariant rows == old(rows)
        invariant kept == Deleted(rows, rows[..i])
      {
        assert rows[..i + 1][..i] == rows[..i];
        if Spared(rows, rows[i]) {
          kept := kept + [rows[i]];
        }
      }
      assert rows[..|rows|] == rows;
      rows := kept;
    }

    method Upgrade()
      modifies this
      ensures rows == Folded(old(rows))
    {
      FoldInto();
      DeleteRest();
    }
  }

  // ---------------------------------------------------- what the fold achieves

  /** The UPDATE leaves ids, keys and groups alone. */
  lemma {:induction false} UpdateKeepsGroups(rows: seq<Row>, upTo: seq<Row>, after: seq<Row>, k: Key)
    requires |after| == |upTo| && forall i :: 0 <= i < |upTo| ==> after[i] == Totalled(rows, upTo[i])
    ensures Sum(after, CountIn(k)) == Sum(upTo, CountIn(k)) && KeepId(after, k) == KeepId(upTo, k)
  {
    if upTo != [] {
      var n := |upTo| - 1;
      UpdateKeepsGroups(rows, upTo[..n], after[..n], k);
    }
  }

  lemma SparedAlike(rows: seq<Row>, r: Row)
    ensures Spared(Updated(rows), Totalled(rows, r)) == Spared(rows, r)
  {
    UpdateKeepsGroups(rows, rows, Updated(rows), KeyOf(r));
  }

  /** A sum in which only one row has a share. */
  lemma {:induction false} SumOfOne(rows: seq<Row>, m: nat, f: Row -> int)
    requires m < |rows| && forall i :: 0 <= i < |rows| && i != m ==> f(rows[i]) == 0
    ensures Sum(rows, f) == f(rows[m])
  {
    var n := |rows| - 1;
    if m == n {
      SumZero(rows[..n], f);
    } else {
      SumOfOne(rows[..n], m, f);
    }
  }

  lemma {:induction false} CountAtLeastTwo(rows: seq<Row>, i: nat, j: nat, k: Key)
    requires i < j < |rows| && KeyOf(rows[i]) == k && KeyOf(rows[j]) == k
    ensures Sum(rows, CountIn(k)) >= 2
  {
    var n := |rows| - 1;
    if j == n {
      SumAtLeast(rows[..n], i, CountIn(k));
    } else {
      CountAtLeastTwo(rows[..n], i, j, k);
    }
  }

  /** Two spared rows of one group would be the same row. */
  lemma SparedOnce(rows: seq<Row>, i: nat, j: nat)
    requires DistinctIds(rows) && i < j < |rows| && KeyOf(rows[i]) == KeyOf(rows[j])
    ensures !(Spared(rows, rows[i]) && Spared(rows, rows[j]))
  {
    CountAtLeastTwo(rows, i, j, KeyOf(rows[i]));
  }

  /** Every group keeps exactly the row with its lowest id. */
  lemma SparedIsLowest(rows: seq<Row>, k: Key) returns (m: nat)
    requires DistinctIds(rows) && exists i :: 0 <= i < |rows| && KeyOf(rows[i]) == k
    ensures m < |rows| && KeyOf(rows[m]) == k && Some(rows[m].id) == KeepId(rows, k) && Spared(rows, rows[m])
    ensures forall i :: 0 <= i < |rows| && i != m && KeyOf(rows[i]) == k ==> !Spared(rows, rows[i])
  {
    m :| 0 <= m < |rows| && KeyOf(rows[m]) == k && Some(rows[m].id) == KeepId(rows, k);
    forall i | 0 <= i < |rows| && i != m && KeyOf(rows[i]) == k ensures !Spared(rows, rows[i]) {
      if i < m {
        SparedOnce(rows, i, m);
      } else {
        SparedOnce(rows, m, i);
      }
    }
  }

  /** The spared row of a group holds the old sums of the group. */
  lemma SparedHoldsSums(rows: seq<Row>, m: nat)
    requires DistinctIds(rows) && m < |rows| && Spared(rows, rows[m])
    ensures var r := Totalled(rows, rows[m]);
            r.amount == Sum(rows, AmountIn(KeyOf(rows[m]))) && r.locked == Sum(rows, LockedIn(KeyOf(rows[m])))
  {
    var k := KeyOf(rows[m]);
    if !Duplicated(rows, k) {
      forall i | 0 <= i < |rows| && i != m ensures KeyOf(rows[i]) != k {
        if KeyOf(rows[i]) == k {
          if i < m { CountAtLeastTwo(rows, i, m, k); } else { CountAtLeastTwo(rows, m, i, k); }
        }
      }
      SumOfOne(rows, m, AmountIn(k));
      SumOfOne(rows, m, LockedIn(k));
    }
  }

  lemma {:induction false} SumOfSpared(table: seq<Row>, rows: seq<Row>, m: nat, f: Row -> int)
    requires m < |rows| ==> Spared(table, rows[m])
    requires forall i :: 0 <= i < |rows| && i != m && Spared(table, rows[i]) ==> f(rows[i]) == 0
    ensures Sum(Deleted(table, rows), f) == if m < |rows| then f(rows[m]) else 0
  {
    if rows != [] {
      var n := |rows| - 1;
      SumOfSpared(table, rows[..n], m, f);
      if Spared(table, rows[n]) {
        SumAppend(Deleted(table, rows[..n]), rows[n], f);
      }
    }
  }

  lemma {:induction false} DeletedMembers(table: seq<Row>, rows: seq<Row>, r: Row)
    ensures r in Deleted(table, rows) <==> exists i :: 0 <= i < |rows| && rows[i] == r && Spared(table, rows[i])
  {
    if rows != [] {
      var n := |rows| - 1;
      DeletedMembers(table, rows[..n], r);
      if i :| 0 <= i < n && rows[..n][i] == r && Spared(table, rows[..n][i]) {
        assert rows[i] == r;
      }
      if i :| 0 <= i < |rows| && rows[i] == r && Spared(table, rows[i]) {
        assert i < n ==> rows[..n][i] == r;
      }
    }
  }

  lemma {:induction false} DeletedKeysDiffer(table: seq<Row>, rows: seq<Row>)
    requires forall i, j :: 0 <= i < j < |rows| ==>
                              Spared(table, rows[i]) && Spared(table, rows[j]) ==> KeyOf(rows[i]) != KeyOf(rows[j])
    ensures forall i, j :: 0 <= i < j < |Deleted(table, rows)| ==>
                             KeyOf(Deleted(table, rows)[i]) != KeyOf(Deleted(table, rows)[j])
  {
    if rows != [] {
      var n := |rows| - 1;
      DeletedKeysDiffer(table, rows[..n]);
      var rest := Deleted(table, rows[..n]);
      if Spared(table, rows[n]) {
        forall i | 0 <= i < |rest| ensures KeyOf(rest[i]) != KeyOf(rows[n]) {
          DeletedMembers(table, rows[..n], rest[i]);
          var x :| 0 <= x < n && rows[..n][x] == rest[i] && Spared(table, rows[..n][x]);
          assert rows[x] == rest[i];
        }
      }
    }
  }

  /** After the fold no (user, currency) pair has two rows: the unique constraint can be added. */
  lemma {:induction false} FoldIsUnique(rows: seq<Row>)
    requires DistinctIds(rows)
    ensures forall i, j :: 0 <= i < j < |Folded(rows)| ==> KeyOf(Folded(rows)[i]) != KeyOf(Folded(rows)[j])
  {
    var table := Updated(rows);
    forall i, j | 0 <= i < j < |table| && Spared(table, table[i]) && Spared(table, table[j])
      ensures KeyOf(table[i]) != KeyOf(table[j])
    {
      SparedAlike(rows, rows[i]);
      SparedAlike(rows, rows[j]);
      if KeyOf(rows[i]) == KeyOf(rows[j]) {
        SparedOnce(rows, i, j);
      }
    }
    DeletedKeysDiffer(table, table);
  }

  /** The row of k after the fold: the one with the lowest old id, holding the old sums of its group. */
  lemma FoldKeepsLowestRow(rows: seq<Row>, k: Key) returns (m: nat)
    requires DistinctIds(rows) && exists i :: 0 <= i < |rows| && KeyOf(rows[i]) == k
    ensures m < |rows| && KeepId(rows, k) == Some(rows[m].id) && KeyOf(rows[m]) == k
    ensures Row(rows[m].id, k.user, k.currency, Sum(rows, AmountIn(k)), Sum(rows, LockedIn(k))) in Folded(rows)
  {
    m := SparedIsLowest(rows, k);
    SparedHoldsSums(rows, m);
    SparedAlike(rows, rows[m]);
    DeletedMembers(Updated(rows), Updated(rows), Updated(rows)[m]);
    assert Updated(rows)[m] == Totalled(rows, rows[m]);
  }

  /** Per user and currency the fold moves no money. */
  lemma {:induction false} FoldKeepsSums(rows: seq<Row>, k: Key)
    requires DistinctIds(rows)
    ensures Sum(Folded(rows), AmountIn(k)) == Sum(rows, AmountIn(k))
    ensures Sum(Folded(rows), LockedIn(k)) == Sum(rows, LockedIn(k))
  {
    var table := Updated(rows);
    if exists i :: 0 <= i < |rows| && KeyOf(rows[i]) == k {
      var m := SparedIsLowest(rows, k);
      SparedHoldsSums(rows, m);
      SparedAlike(rows, rows[m]);
      forall i | 0 <= i < |table| && i != m && Spared(table, table[i])
        ensures AmountIn(k)(table[i]) == 0 && LockedIn(k)(table[i]) == 0
      {
        SparedAlike(rows, rows[i]);
      }
      SumOfSpared(table, table, m, AmountIn(k));
      SumOfSpared(table, table, m, LockedIn(k));
    } else {
      SumZero(rows, AmountIn(k));
      SumZero(rows, LockedIn(k));
      SumOfSpared(table, table, |table|, AmountIn(k));
      SumOfSpared(table, table, |table|, LockedIn(k));
    }
  }

  /** On a table without duplicates both statements do nothing. */
  lemma {:induction false} CleanTableUntouched(rows: seq<Row>)
    requires forall i :: 0 <= i < |rows| ==> !Duplicated(rows, KeyOf(rows[i]))
    ensures Folded(rows) == rows
  {
    assert Updated(rows) == rows;
    NothingDeleted(rows, rows);
  }

  lemma {:induction false} NothingDeleted(table: seq<Row>, rows: seq<Row>)
    requires forall i :: 0 <= i < |rows| ==> !Duplicated(table, KeyOf(rows[i]))
    ensures Deleted(table, rows) == rows
  {
    if rows != [] {
      NothingDeleted(table, rows[..|rows| - 1]);
    }
  }

  // ------------------------------------------------- retiring users.balance (H-1)

  /** A user row with the legacy USD column, None for NULL. */
  datatype Legacy = Legacy(id: nat, balance: Option<int>)

  predicate Owed(u: Legacy)
  {
    u.balance.Some? && u.balance.value > 0
  }

  datatype Audit = Audit(user: nat, amount: int)

  datatype Platform = Platform(
    usdt: Option<nat>, users: seq<Legacy>, balances: map<Key, Balance>, deals: seq<Option<nat>>, audit: seq<Audit>)

  datatype UpgradeError = CurrencyMissing

  /** An upsert: add to the row of the pair, or insert it. */
  function Upserted(balances: map<Key, Balance>, k: Key, amount: int): map<Key, Balance>
  {
    if k in balances then balances[k := Balance(balances[k].amount + amount, balances[k].locked)]
    else balances[k := Balance(amount, 0)]
  }

  function Merged(balances: map<Key, Balance>, users: seq<Legacy>, usdt: nat): map<Key, Balance>
  {
    if users == [] then balances else
      var n := |users| - 1;
      var earlier := Merged(balances, users[..n], usdt);
      if Owed(users[n]) then Upserted(earlier, Key(users[n].id, usdt), users[n].balance.value) else earlier
  }

  function Audited(users: seq<Legacy>): seq<Audit>
  {
    if users == [] then [] else
      var n := |users| - 1;
      var earlier := Audited(users[..n]);
      if Owed(users[n]) then earlier + [Audit(users[n].id, users[n].balance.value)] else earlier
  }

  predicate SomeOwed(users: seq<Legacy>)
  {
    exists i :: 0 <= i < |users| && Owed(users[i])
  }

  predicate SomeUnpriced(deals: seq<Option<nat>>)
  {
    exists i :: 0 <= i < |deals| && deals[i].None?
  }

  class Schema {
    var usdt: Option<nat>
    var users: seq<Legacy>
    var balances: map<Key, Balance>
    var deals: seq<Option<nat>>
    var audit: seq<Audit>

    constructor (p: Platform)
      ensures State() == p
    {
      usdt, users, balances, deals, audit := p.usdt, p.users, p.balances, p.deals, p.audit;
    }

    function State(): Platform
      reads this
    {
      Platform(usdt, users, balances, deals, audit)
    }

    /** Steps 1 to 3 of the upgrade. */
    method Upgrade() returns (failure: Option<UpgradeError>)
      modifies this
      ensures failure.Some? <==> old(usdt).None? && (SomeOwed(old(users)) || SomeUnpriced(old(deals)))
      ensures failure.Some? ==> State() == old(State())
      ensures failure.None? ==>
                && usdt == old(usdt) && users == old(users)
                && audit == old(audit) + Audited(users)
                && balances == (if usdt.Some? then Merged(old(balances), users, usdt.value) else old(balances))
                && |deals| == |old(deals)|
                && forall i :: 0 <= i < |deals| ==> deals[i] == if old(deals)[i].None? then usdt else old(deals)[i]
    {
      var needsBalances, needsDeals := SomeOwed(users), SomeUnpriced(deals);
      if (needsBalances || needsDeals) && usdt.None? {
        return Some(CurrencyMissing);
      }
      if needsBalances {
        for i := 0 to |users|
          invariant usdt == old(usdt) && users == old(users) && balances == old(balances) && deals == old(deals)
          invariant audit == old(audit) + Audited(users[..i])
        {
          assert users[..i + 1][..i] == users[..i];
          if Owed(users[i]) {
            audit := audit + [Audit(users[i].id, users[i].balance.value)];
          }
        }
        for i := 0 to |users|
          invariant usdt == old(usdt) && users == old(users) && deals == old(deals)
          invariant audit == old(audit) + Audited(users[..|users|])
          invariant balances == Merged(old(balances), users[..i], usdt.value)
        {
          assert users[..i + 1][..i] == users[..i];
          if Owed(users[i]) {
            balances := Upserted(balances, Key(users[i].id, usdt.value), users[i].balance.value);
          }
        }
        assert users[..|users|] == users;
      } else {
        NobodyOwed(users, balances, if usdt.Some? then usdt.value else 0);
      }
      if needsDeals {
        for i := 0 to |deals|
          invariant usdt == old(usdt) && users == old(users)
          invariant audit == old(audit) + Audited(users)
          invariant balances == (if usdt.Some? then Merged(old(balances), users, usdt.value) else old(balances))
          invariant |deals| == |old(deals)|
          invariant forall j :: 0 <= j < i ==> deals[j] == if old(deals)[j].None? then usdt else old(deals)[j]
          invariant forall j :: i <= j < |deals| ==> deals[j] == old(deals)[j]
        {
          if deals[i].None? {
            deals := deals[i := usdt];
          }
        }
      }
      failure := None;
    }
  }

  lemma {:induction false} NobodyOwed(users: seq<Legacy>, balances: map<Key, Balance>, usdt: nat)
    requires !SomeOwed(users)
    ensures Audited(users) == [] && Merged(balances, users, usdt) == balances
  {
    if users != [] {
      assert forall i :: 0 <= i < |users| - 1 ==> users[..|users| - 1][i] == users[i];
      NobodyOwed(users[..|users| - 1], balances, usdt);
    }
  }

  ghost predicate DistinctUsers(users: seq<Legacy>)
  {
    forall i, j :: 0 <= i < j < |users| ==> users[i].id != users[j].id
  }

  /** No row but the USDT rows of owed users changes. */
  lemma {:induction false} MergeTouchesOnlyOwed(balances: map<Key, Balance>, users: seq<Legacy>, usdt: nat, k: Key)
    requires forall i :: 0 <= i < |users| && users[i].balance.Some? && users[i].balance.value > 0 ==>
                           k != Key(users[i].id, usdt)
    ensures (k in Merged(balances, users, usdt)) == (k in balances)
    ensures BalanceOf(Merged(balances, users, usdt), k) == BalanceOf(balances, k)
  {
    if users != [] {
      MergeTouchesOnlyOwed(balances, users[..|users| - 1], usdt, k);
    }
  }

  /** Each owed user gets the legacy balance once, on top of what was there, and nothing is unlocked. */
  lemma {:induction false} MergeAddsOnce(balances: map<Key, Balance>, users: seq<Legacy>, usdt: nat, at: nat)
    requires DistinctUsers(users) && at < |users|
    requires users[at].balance.Some? && users[at].balance.value > 0
    ensures var k := Key(users[at].id, usdt);
            && k in Merged(balances, users, usdt)
            && BalanceOf(Merged(balances, users, usdt), k)
            == Balance(BalanceOf(balances, k).amount + users[at].balance.value, BalanceOf(balances, k).locked)
  {
    var n := |users| - 1;
    if at == n {
      MergeTouchesOnlyOwed(balances, users[..n], usdt, Key(users[at].id, usdt));
    } else {
      MergeAddsOnce(balances, users[..n], usdt, at);
    }
  }

  /** A legacy balance counts if it is positive; NULL, zero and debts do not. */
  function LegacyOf(): Legacy -> int
  {
    (u: Legacy) => if u.balance.Some? && u.balance.value > 0 then u.balance.value else 0
  }

  function UsdtOf(balances: map<Key, Balance>, usdt: nat): Legacy -> int
  {
    (u: Legacy) => BalanceOf(balances, Key(u.id, usdt)).amount
  }

  /** The audit names exactly the users with a positive legacy balance, each once, with that balance. */
  lemma {:induction false} AuditIsExact(users: seq<Legacy>)
    requires DistinctUsers(users)
    ensures forall a :: a in Audited(users) <==> a.amount > 0 && Legacy.Legacy(a.user, Some(a.amount)) in users
    ensures forall i, j :: 0 <= i < j < |Audited(users)| ==> Audited(users)[i].user != Audited(users)[j].user
  {
    if users != [] {
      var n := |users| - 1;
      AuditIsExact(users[..n]);
      assert users == users[..n] + [users[n]];
      var earlier := Audited(users[..n]);
      forall i | 0 <= i < |earlier| ensures earlier[i].user != users[n].id {
        assert earlier[i] in earlier;
      }
    }
  }

  /** Over all users the USDT amounts grow by exactly the legacy balances. */
  lemma {:induction false} MergeAddsUp(balances: map<Key, Balance>, users: seq<Legacy>, usdt: nat)
    requires DistinctUsers(users)
    ensures Sum(users, UsdtOf(Merged(balances, users, usdt), usdt))
         == Sum(users, UsdtOf(balances, usdt)) + Sum(users, LegacyOf())
  {
    var after := Merged(balances, users, usdt);
    forall i | 0 <= i < |users|
      ensures UsdtOf(after, usdt)(users[i]) == UsdtOf(balances, usdt)(users[i]) + LegacyOf()(users[i])
    {
      if Owed(users[i]) {
        MergeAddsOnce(balances, users, usdt, i);
      } else {
        MergeTouchesOnlyOwed(balances, users, usdt, Key(users[i].id, usdt));
      }
    }
    SumPlus(users, UsdtOf(after, usdt), UsdtOf(balances, usdt), LegacyOf());
  }
}
