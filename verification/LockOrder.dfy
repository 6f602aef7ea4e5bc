/**
  The two row locks of _release_to, taken by any number of concurrent calls: because each
  call locks in ascending user id, some call can always go on.
 */
module LockOrder {
  import opened Sums
  import opened Tables

  datatype Call = Call(payer: nat, payee: nat, currency: nat)

  /** The rows a call locks, in the order it locks them. */
  datatype Locks = Locks(first: Key, second: Key)

  /** The two rows in ascending user id. */
  function Ascending(c: Call): (l: Locks)
    ensures l.first.user <= l.second.user && l.first.currency == c.currency && l.second.currency == c.currency
    ensures {l.first.user, l.second.user} == {c.payer, c.payee}
  {
    if c.payer <= c.payee then Locks(Key(c.payer, c.currency), Key(c.payee, c.currency))
    else Locks(Key(c.payee, c.currency), Key(c.payer, c.currency))
  }

  /** The order before the fix: payer first. */
  function PayerFirst(c: Call): Locks
  {
    Locks(Key(c.payer, c.currency), Key(c.payee, c.currency))
  }

  function LocksOf(calls: seq<Call>, order: Call -> Locks): (locks: seq<Locks>)
    ensures |locks| == |calls| && forall i :: 0 <= i < |calls| ==> locks[i] == order(calls[i])
  {
    seq(|calls|, i requires 0 <= i < |calls| => order(calls[i]))
  }

  function AscendingOrder(): Call -> Locks { (c: Call) => Ascending(c) }
  function PayerFirstOrder(): Call -> Locks { (c: Call) => PayerFirst(c) }

  // A call goes through four phases: no lock, first lock, both locks, committed.

  predicate Holds(l: Locks, phase: nat, k: Key)
  {
    ((phase == 1 || phase == 2) && k == l.first) || (phase == 2 && k == l.second)
  }

  ghost predicate Free(locks: seq<Locks>, phases: seq<nat>, i: nat, k: Key)
    requires |phases| == |locks|
  {
    forall j :: 0 <= j < |locks| && j != i ==> !Holds(locks[j], phases[j], k)
  }

  ghost predicate CanStep(locks: seq<Locks>, phases: seq<nat>, i: nat)
    requires |phases| == |locks|
  {
    && i < |locks| && phases[i] < 3
    && (phases[i] == 0 ==> Free(locks, phases, i, locks[i].first))
    && (phases[i] == 1 ==> Free(locks, phases, i, locks[i].second))
  }

  /** The phases after a schedule; a call that is scheduled but has to wait stays where it is. */
  ghost function After(locks: seq<Locks>, schedule: seq<nat>): (phases: seq<nat>)
    ensures |phases| == |locks| && forall i :: 0 <= i < |phases| ==> phases[i] <= 3
  {
    if schedule == [] then seq(|locks|, i => 0) else
      var n := |schedule| - 1;
      var earlier, i := After(locks, schedule[..n]), schedule[n];
      if CanStep(locks, earlier, i) then earlier[i := earlier[i] + 1] else earlier
  }

  /** No row is ever locked by two calls at once. */
  lemma {:induction false} LocksAreExclusive(locks: seq<Locks>, schedule: seq<nat>, i: nat, j: nat, k: Key)
    requires i < |locks| && j < |locks| && i != j
    ensures var phases := After(locks, schedule);
            !(Holds(locks[i], phases[i], k) && Holds(locks[j], phases[j], k))
  {
    if schedule != [] {
      LocksAreExclusive(locks, schedule[..|schedule| - 1], i, j, k);
    }
  }

  /** A call that holds its first lock, with the highest user id among those. */
  lemma Highest(locks: seq<Locks>, phases: seq<nat>) returns (top: nat)
    requires |phases| == |locks| && exists i :: 0 <= i < |phases| && phases[i] == 1
    ensures top < |phases| && phases[top] == 1
    ensures forall j :: 0 <= j < |phases| && phases[j] == 1 ==> locks[j].first.user <= locks[top].first.user
  {
    top :| top < |phases| && phases[top] == 1;
    for n := 0 to |phases|
      invariant top < |phases| && phases[top] == 1
      invariant forall j :: 0 <= j < n && phases[j] == 1 ==> locks[j].first.user <= locks[top].first.user
    {
      if phases[n] == 1 && locks[n].first.user > locks[top].first.user {
        top := n;
      }
    }
  }

  /** Every call locks two rows of one currency, the lower user id first. */
  ghost predicate Ordered(locks: seq<Locks>)
  {
    forall i :: 0 <= i < |locks| ==>
                  locks[i].first.currency == locks[i].second.currency && locks[i].first.user <= locks[i].second.user
  }

  ghost predicate Exclusive(locks: seq<Locks>, phases: seq<nat>)
    requires |phases| == |locks|
  {
    forall i, j, k :: 0 <= i < |locks| && 0 <= j < |locks| && i != j ==>
                        !(Holds(locks[i], phases[i], k) && Holds(locks[j], phases[j], k))
  }

  /** The one that got furthest up waits for nobody who waits. */
  lemma TopCanStep(locks: seq<Locks>, phases: seq<nat>, top: nat)
    requires |phases| == |locks| && Ordered(locks) && Exclusive(locks, phases) && top < |phases| && phases[top] == 1
    requires forall i :: 0 <= i < |phases| ==> phases[i] != 2
    requires forall j :: 0 <= j < |phases| && phases[j] == 1 ==> locks[j].first.user <= locks[top].first.user
    ensures CanStep(locks, phases, top)
  {
    assert Holds(locks[top], phases[top], locks[top].first);
    forall j | 0 <= j < |locks| && j != top ensures !Holds(locks[j], phases[j], locks[top].second) {
      assert !Holds(locks[j], phases[j], locks[top].first);
    }
  }

  lemma {:induction false} SomeCallCanStep(locks: seq<Locks>, phases: seq<nat>)
    requires |phases| == |locks| && Ordered(locks) && Exclusive(locks, phases)
    requires forall i :: 0 <= i < |phases| ==> phases[i] <= 3
    requires exists i :: 0 <= i < |phases| && phases[i] < 3
    ensures exists i :: CanStep(locks, phases, i)
  {
    if i :| 0 <= i < |phases| && phases[i] == 2 {
      assert CanStep(locks, phases, i);
    } else if exists i :: 0 <= i < |phases| && phases[i] == 1 {
      var top := Highest(locks, phases);
      TopCanStep(locks, phases, top);
    } else {
      var i :| 0 <= i < |phases| && phases[i] < 3;
      assert CanStep(locks, phases, i);
    }
  }

  ghost predicate SomeStep(locks: seq<Locks>, phases: seq<nat>)
    requires |phases| == |locks|
  {
    exists i: nat :: CanStep(locks, phases, i)
  }

  /** In every reachable state of any number of releases, while one is unfinished some release can go on. */
  lemma NoCircularWait(calls: seq<Call>, schedule: seq<nat>)
    ensures var locks := LocksOf(calls, AscendingOrder());
            var phases := After(locks, schedule);
            (exists i :: 0 <= i < |phases| && phases[i] < 3) ==> SomeStep(locks, phases)
  {
    var locks := LocksOf(calls, AscendingOrder());
    var phases := After(locks, schedule);
    forall i, j, k | 0 <= i < |locks| && 0 <= j < |locks| && i != j
      ensures !(Holds(locks[i], phases[i], k) && Holds(locks[j], phases[j], k))
    {
      LocksAreExclusive(locks, schedule, i, j, k);
    }
    if exists i :: 0 <= i < |phases| && phases[i] < 3 {
      SomeCallCanStep(locks, phases);
    }
  }

  function StepsTaken(): nat -> int { (phase: nat) => phase }

  lemma {:induction false} StepsBounded(phases: seq<nat>)
    requires forall i :: 0 <= i < |phases| ==> phases[i] <= 3
    ensures Sum(phases, StepsTaken()) <= 3 * |phases|
  {
    if phases != [] {
      StepsBounded(phases[..|phases| - 1]);
    }
  }

  lemma StepCounts(locks: seq<Locks>, schedule: seq<nat>, i: nat)
    requires CanStep(locks, After(locks, schedule), i)
    ensures Sum(After(locks, schedule + [i]), StepsTaken())
         == Sum(After(locks, schedule), StepsTaken()) + 1 <= 3 * |locks|
  {
    StepMoves(locks, schedule, i);
    OneMoreStep(After(locks, schedule), i, After(locks, schedule + [i]));
  }

  lemma OneMoreStep(phases: seq<nat>, i: nat, next: seq<nat>)
    requires i < |phases| && next == phases[i := phases[i] + 1]
    requires forall j :: 0 <= j < |next| ==> next[j] <= 3
    ensures Sum(next, StepsTaken()) == Sum(phases, StepsTaken()) + 1 <= 3 * |phases|
  {
    SumUpdate(phases, i, phases[i] + 1, StepsTaken());
    StepsBounded(next);
  }

  lemma StepMoves(locks: seq<Locks>, schedule: seq<nat>, i: nat)
    requires CanStep(locks, After(locks, schedule), i)
    ensures After(locks, schedule + [i]) == After(locks, schedule)[i := After(locks, schedule)[i] + 1]
  {
    assert (schedule + [i])[..|schedule|] == schedule;
  }

  lemma {:induction false} FinishWithin(calls: seq<Call>, locks: seq<Locks>, schedule: seq<nat>, remaining: nat)
    returns (more: seq<nat>)
    requires locks == LocksOf(calls, AscendingOrder())
    requires Sum(After(locks, schedule), StepsTaken()) + remaining == 3 * |locks|
    ensures forall i :: 0 <= i < |locks| ==> After(locks, schedule + more)[i] == 3
    decreases remaining
  {
    var phases := After(locks, schedule);
    if exists i :: 0 <= i < |phases| && phases[i] < 3 {
      NoCircularWait(calls, schedule);
      assert SomeStep(locks, phases);
      var i: nat :| CanStep(locks, phases, i);
      StepCounts(locks, schedule, i);
      var rest := FinishWithin(calls, locks, schedule + [i], remaining - 1);
      more := [i] + rest;
      assert schedule + more == schedule + [i] + rest;
    } else {
      more := [];
      assert schedule + more == schedule;
    }
  }

  /** From every reachable state there is a way for all releases to finish. */
  lemma AllCanFinish(calls: seq<Call>, schedule: seq<nat>) returns (more: seq<nat>)
    ensures var phases := After(LocksOf(calls, AscendingOrder()), schedule + more);
            forall i :: 0 <= i < |phases| ==> phases[i] == 3
  {
    var locks := LocksOf(calls, AscendingOrder());
    var phases := After(locks, schedule);
    StepsBounded(phases);
    more := FinishWithin(calls, locks, schedule, 3 * |locks| - Sum(phases, StepsTaken()));
  }

  /** Locking the payer first, two opposite releases of the same pair stop each other for good. */
  lemma PayerFirstDeadlocks(a: nat, b: nat, currency: nat)
    requires a != b
    ensures var locks := LocksOf([Call(a, b, currency), Call(b, a, currency)], PayerFirstOrder());
            var phases := After(locks, [0, 1]);
            phases == [1, 1] && forall i :: !CanStep(locks, phases, i)
  {
    var locks := LocksOf([Call(a, b, currency), Call(b, a, currency)], PayerFirstOrder());
    assert [0, 1][..1] == [0] && [0][..0] == [];
    assert After(locks, []) == [0, 0];
    assert CanStep(locks, [0, 0], 0);
    assert After(locks, [0]) == [1, 0];
    assert CanStep(locks, [1, 0], 1);
    assert After(locks, [0, 1]) == [1, 1];
    assert Holds(locks[0], 1, locks[1].second) && Holds(locks[1], 1, locks[0].second);
  }
}
