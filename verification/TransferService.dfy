/** confirm_transfer, statement by statement, against its outcome. */
module TransferService {
  import opened Common
  import opened Tables
  import opened Services
  import opened Database
  import opened AccountTransfer

  /** Deleting a user deletes that user's ledger entries. */
  method DeleteEntries(db: Db, u: nat)
    modifies db`ledger
    ensures db.ledger == Without(old(db.ledger), u)
  {
    var kept: seq<Entry> := [];
    for i := 0 to |db.ledger|
      invariant db.ledger == old(db.ledger)
      invariant kept == Without(db.ledger[..i], u)
    {
      assert db.ledger[..i + 1][..i] == db.ledger[..i];
      if db.ledger[i].key.user != u {
        kept := kept + [db.ledger[i]];
      }
    }
    assert db.ledger[..|db.ledger|] == db.ledger;
    db.ledger := kept;
  }

  /** Delete the target, then hand its identity to the source and end the sessions of the source. */
  method MoveIdentity(db: Db, source: nat, target: nat) returns (tg: nat)
    requires source in db.users && target in db.users && source != target
    modifies db
    ensures db.State() == Moved(old(db.State()), source, target) && tg == old(db.users)[target].tg
  {
    tg := db.users[target].tg;
    db.balances := map k | k in db.balances && k.user != target :: db.balances[k];
    DeleteEntries(db, target);
    db.users := db.users - {target};
    var u := db.users[source];
    u := u.(tg := tg);
    u := u.(pinEpoch := u.pinEpoch + 1);
    u := u.(totpEpoch := u.totpEpoch + 1);
    db.users := db.users[source := u];
  }

  /** The two tables of one desk. */
  ghost function DeskOf(db: Db, table: CodeTable): Desk
    reads db, table
  {
    Desk(db.State(), table.rows)
  }

  /** Look the code up, check both accounts, delete the target, move its identity to the source. */
  method ConfirmTransfer(db: Db, table: CodeTable, target: nat, hash: Option<nat>, now: int, sweep: bool)
    returns (failure: Option<Error>)
    modifies db, table
    ensures Outcome(DeskOf(db, table), failure)
         == AccountTransfer.ConfirmTransfer(old(DeskOf(db, table)), target, hash, now, sweep)
  {
    if target !in db.users { return Some(NotFound); }
    if hash.None? { return Some(BadCode); }
    var begun := table.rows;
    if sweep {
      table.Purge(now);
    }
    var found := FindLive(table.rows, hash.value, now);
    if found.None? {
      table.rows := begun;
      return Some(BadCode);
    }
    var at := found.value;
    var row := table.rows[at];
    if row.source !in db.users {
      table.rows := table.rows[at := row.(consumed := Some(now))];
      return Some(NotFound);
    }
    if row.source == target {
      table.rows := begun;
      return Some(SelfTransfer);
    }
    if HasTradableData(db.State(), target) {
      table.rows := begun;
      return Some(TargetNotEmpty);
    }
    if Named(table.rows, target) {
      table.rows := begun;
      return Some(Referenced);
    }
    var tg := MoveIdentity(db, row.source, target);
    table.rows := table.rows[at := row.(consumed := Some(now), target := Some(tg))];
    failure := None;
  }
}
