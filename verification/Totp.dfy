/**
  One-time codes are used once (RFC 6238 section 5.2). Times are microseconds; `hotp` stands
  for the HMAC-based code of a counter under the user's secret.
 */
module Totp {
  import opened Common

  const SECOND := 1000000
  const PERIOD := 30
  const DIGITS := 6
  const DRIFT := 1
  /** A claim is held for the three accepted windows and a second. */
  const CLAIM_TTL := (PERIOD * (2 * DRIFT + 1) + 1) * SECOND

  // ------------------------------------------------------------- verification

  /** The counter of a moment: whole seconds, then whole periods. */
  function CounterAt(at: nat): (counter: nat)
  {
    at / SECOND / PERIOD
  }

  /** Six digits, after stripping. */
  predicate WellFormed(code: string)
  {
    |code| == DIGITS && forall i :: 0 <= i < |code| ==> '0' <= code[i] <= '9'
  }

  /** The counter lies in the accepted windows around a moment. */
  predicate Near(counter: int, at: nat)
  {
    CounterAt(at) - DRIFT <= counter <= CounterAt(at) + DRIFT
  }

  /**
    verify_totp_and_counter: try every window and keep the first match. In the first period
    after the epoch the counter before it is negative and cannot be packed, so the call fails.
   */
  method VerifyTotp(hotp: nat -> string, code: string, at: nat) returns (matched: Option<nat>, failed: bool)
    ensures failed <==> WellFormed(code) && at < PERIOD * SECOND
    ensures matched.Some? ==>
              && !failed && WellFormed(code) && Near(matched.value, at) && hotp(matched.value) == code
              && forall c: nat :: Near(c, at) && c < matched.value ==> hotp(c) != code
    ensures matched.None? && !failed ==> !WellFormed(code) || forall c: nat :: Near(c, at) ==> hotp(c) != code
  {
    matched, failed := None, false;
    if !WellFormed(code) {
      return;
    }
    var counter := CounterAt(at);
    assert at < PERIOD * SECOND <==> counter == 0;
    var delta := -DRIFT;
    while delta <= DRIFT
      invariant -DRIFT <= delta <= DRIFT + 1
      invariant delta > -DRIFT ==> counter > 0
      invariant matched.None? ==> forall c: nat :: counter - DRIFT <= c < counter + delta ==> hotp(c) != code
      invariant matched.Some? ==>
                  && counter - DRIFT <= matched.value < counter + delta && hotp(matched.value) == code
                  && forall c: nat :: counter - DRIFT <= c < matched.value ==> hotp(c) != code
    {
      if counter + delta < 0 {
        return None, true;
      }
      var candidate := hotp(counter + delta);
      var matchedNow := candidate == code;
      if matchedNow && matched.None? {
        matched := Some(counter + delta);
      }
      delta := delta + 1;
    }
  }

  /** A counter can match during exactly ninety seconds. */
  lemma NearIsNinetySeconds(counter: int, at: nat)
    ensures Near(counter, at) <==>
              (counter - DRIFT) * PERIOD * SECOND <= at < (counter + DRIFT + 1) * PERIOD * SECOND
  {
    var c, s := CounterAt(at), at / SECOND;
    assert s == c * PERIOD + s % PERIOD && at == s * SECOND + at % SECOND;
    assert c * PERIOD * SECOND <= at < (c + 1) * PERIOD * SECOND;
  }

  // ------------------------------------------------------- runs of one user's requests

  /**
    A code on its way: the request loaded the user row after `loaded` acts of the run, matched
    the code at `verifiedAt`, and claims or updates at `decidedAt`.
   */
  datatype Attempt = Attempt(counter: int, loaded: nat, verifiedAt: nat, decidedAt: nat)

  /**
    A request claims its counter in Redis and stores it when it commits, or stores it with the
    conditional UPDATE. One that `aborts` rolls back after that: it has no effect and stores
    nothing, but its claim stays.
   */
  datatype Act =
    | Claim(attempt: Attempt, aborts: bool)
    | Update(attempt: Attempt, aborts: bool)
    | Commit(claim: nat, at: nat)

  /** The live claims with the moments they expire, and the stored high-water mark. */
  datatype Store = Store(claims: map<int, int>, mark: Option<int>)

  function TimeOf(act: Act): nat
  {
    if act.Commit? then act.at else act.attempt.decidedAt
  }

  /** The mark a counter must exceed: no mark reads as -1, and so does zero. */
  function Floor(mark: Option<int>): int
  {
    if mark.None? || mark.value == 0 then -1 else mark.value
  }

  /** Does act i pass the check? */
  predicate Wins(start: Option<int>, acts: seq<Act>, i: nat)
    requires i < |acts|
    decreases i, 1
  {
    if acts[i].Commit? then false else
      var a, now := acts[i].attempt, After(start, acts, i);
      && a.loaded <= i && a.counter > Floor(After(start, acts, a.loaded).mark)
      && (if acts[i].Claim? then a.counter !in now.claims || now.claims[a.counter] <= a.decidedAt
          else now.mark.None? || now.mark.value < a.counter)
  }

  /** Does its request take effect, unless it is cut short before its commit? */
  predicate Uses(start: Option<int>, acts: seq<Act>, i: nat)
    requires i < |acts|
  {
    Wins(start, acts, i) && !acts[i].aborts
  }

  /** What is stored after the first n acts. */
  function After(start: Option<int>, acts: seq<Act>, n: nat): Store
    requires n <= |acts|
    decreases n, 0
  {
    if n == 0 then Store(map[], start) else
      var s := After(start, acts, n - 1);
      match acts[n - 1]
      case Claim(a, _) =>
        if Wins(start, acts, n - 1) then s.(claims := s.claims[a.counter := a.decidedAt + CLAIM_TTL]) else s
      case Update(a, aborts) => if Wins(start, acts, n - 1) && !aborts then s.(mark := Some(a.counter)) else s
      case Commit(c, _) => if c < |acts| && acts[c].Claim? then s.(mark := Some(acts[c].attempt.counter)) else s
  }

  /**
    Which paths the requests take, whether one ends before the next begins, and how long the
    claim may lag behind the check.
   */
  datatype Setting = Setting(redis: bool, update: bool, serial: bool, delay: nat)

  /**
    An attempt matches when it is checked, past the first minute after the epoch, and decides
    within the delay; its row was loaded before the check.
   */
  ghost predicate Timely(acts: seq<Act>, i: nat, delay: nat)
    requires i < |acts| && !acts[i].Commit?
  {
    var a := acts[i].attempt;
    && Near(a.counter, a.verifiedAt) && a.verifiedAt >= 2 * PERIOD * SECOND
    && a.verifiedAt <= a.decidedAt <= a.verifiedAt + delay
    && a.loaded <= i && forall k :: 0 <= k < a.loaded ==> TimeOf(acts[k]) <= a.verifiedAt
  }

  /** A commit ends a request that claimed and does not abort, and that no earlier one has ended. */
  ghost predicate Ends(start: Option<int>, acts: seq<Act>, i: nat)
    requires i < |acts| && acts[i].Commit?
  {
    && acts[i].claim < i && acts[acts[i].claim].Claim? && Uses(start, acts, acts[i].claim)
    && !Committed(acts, acts[i].claim, i)
  }

  ghost predicate Committed(acts: seq<Act>, claim: nat, n: nat)
    requires n <= |acts|
  {
    exists k :: 0 <= k < n && acts[k].Commit? && acts[k].claim == claim
  }

  /** The request of act i begins after every request before it has committed or aborted. */
  ghost predicate Alone(start: Option<int>, acts: seq<Act>, i: nat)
    requires i < |acts| && !acts[i].Commit?
  {
    && acts[i].attempt.loaded == i
    && forall c :: 0 <= c < i && acts[c].Claim? && Uses(start, acts, c) ==> Committed(acts, c, i)
  }

  ghost predicate ActFits(start: Option<int>, acts: seq<Act>, i: nat, s: Setting)
    requires i < |acts|
  {
    match acts[i]
    case Claim(_, _) => s.redis && Timely(acts, i, s.delay) && (s.serial ==> Alone(start, acts, i))
    case Update(_, _) => s.update && Timely(acts, i, s.delay) && (s.serial ==> Alone(start, acts, i))
    case Commit(_, _) => Ends(start, acts, i)
  }

  /** The runs of a setting. */
  ghost predicate Scheduled(start: Option<int>, acts: seq<Act>, s: Setting)
  {
    && (forall i :: 0 <= i < |acts| ==> ActFits(start, acts, i, s))
    && forall i, j :: 0 <= i < j < |acts| ==> TimeOf(acts[i]) <= TimeOf(acts[j])
  }

  /** No counter is used twice. */
  ghost predicate Once(start: Option<int>, acts: seq<Act>)
  {
    forall i, j :: 0 <= i < j < |acts| && Uses(start, acts, i) && Uses(start, acts, j) ==>
                     acts[i].attempt.counter != acts[j].attempt.counter
  }

  /** No counter so much as passes the check twice. */
  ghost predicate PassesOnce(start: Option<int>, acts: seq<Act>)
  {
    forall i, j :: 0 <= i < j < |acts| && Wins(start, acts, i) && Wins(start, acts, j) ==>
                     acts[i].attempt.counter != acts[j].attempt.counter
  }

  // ------------------------------------------------------------ the Redis claim

  /** The first moment at which the counter can match. */
  function Opens(counter: int): int
  {
    (counter - DRIFT) * PERIOD * SECOND
  }

  /** An accepted claim stays at least until a second after its counter can last match. */
  lemma {:induction false} ClaimStays(start: Option<int>, acts: seq<Act>, s: Setting, i: nat, n: nat)
    requires Scheduled(start, acts, s) && i < n <= |acts| && acts[i].Claim? && Wins(start, acts, i)
    ensures var counter, claims := acts[i].attempt.counter, After(start, acts, n).claims;
            counter in claims && claims[counter] >= Opens(counter) + CLAIM_TTL
    decreases n
  {
    var last := acts[n - 1];
    assert ActFits(start, acts, n - 1, s);
    if i < n - 1 {
      ClaimStays(start, acts, s, i, n - 1);
    }
    if last.Claim? {
      NearIsNinetySeconds(last.attempt.counter, last.attempt.verifiedAt);
    }
  }

  /**
    Two claims for one counter never both pass if they are taken within a second of the
    check, whatever else runs beside them.
   */
  lemma {:induction false} ClaimOutlasts(start: Option<int>, acts: seq<Act>, s: Setting, i: nat, j: nat)
    requires Scheduled(start, acts, s) && s.delay <= SECOND && i < j < |acts| && acts[i].Claim? && acts[j].Claim?
    requires Wins(start, acts, i) && Wins(start, acts, j)
    ensures acts[i].attempt.counter != acts[j].attempt.counter
  {
    var a := acts[j].attempt;
    assert ActFits(start, acts, j, s);
    NearIsNinetySeconds(a.counter, a.verifiedAt);
    ClaimStays(start, acts, s, i, j);
  }

  // ------------------------------------------------------ the conditional UPDATE

  lemma CommitsNeedClaims(start: Option<int>, acts: seq<Act>, s: Setting, i: nat)
    requires Scheduled(start, acts, s) && i < |acts|
    ensures acts[i].Commit? ==> s.redis
  {
    assert ActFits(start, acts, i, s);
    if acts[i].Commit? {
      assert ActFits(start, acts, acts[i].claim, s);
    }
  }

  /** Without claims the mark never falls, and it covers every used counter. */
  lemma {:induction false} MarkCovers(start: Option<int>, acts: seq<Act>, s: Setting, i: nat, n: nat)
    requires Scheduled(start, acts, s) && !s.redis && i < n <= |acts| && Uses(start, acts, i)
    ensures After(start, acts, n).mark.Some? && After(start, acts, n).mark.value >= acts[i].attempt.counter
    decreases n
  {
    assert ActFits(start, acts, n - 1, s);
    assert ActFits(start, acts, i, s);
    if i < n - 1 {
      MarkCovers(start, acts, s, i, n - 1);
    }
    CommitsNeedClaims(start, acts, s, n - 1);
  }

  /** With the UPDATE alone a counter that passes exceeds every used one, whatever stale rows had been loaded. */
  lemma {:induction false} UpdateStrictlyIncreases(start: Option<int>, acts: seq<Act>, s: Setting, i: nat, j: nat)
    requires Scheduled(start, acts, s) && !s.redis && i < j < |acts| && Uses(start, acts, i) && Wins(start, acts, j)
    ensures acts[i].attempt.counter < acts[j].attempt.counter
  {
    MarkCovers(start, acts, s, i, j);
    assert ActFits(start, acts, j, s);
  }

  // --------------------------------------------------------- one after the other

  /** Act i takes effect and its counter is stored by the first n acts. */
  ghost predicate Stored(start: Option<int>, acts: seq<Act>, i: nat, n: nat)
    requires i < n <= |acts|
  {
    Uses(start, acts, i) && (acts[i].Claim? ==> Committed(acts, i, n))
  }

  lemma PositiveCounter(acts: seq<Act>, i: nat, delay: nat)
    requires i < |acts| && !acts[i].Commit? && Timely(acts, i, delay)
    ensures acts[i].attempt.counter > 0
  {
    NearIsNinetySeconds(acts[i].attempt.counter, acts[i].attempt.verifiedAt);
  }

  /**
    What a serial run keeps of an act i that takes effect: its counter is covered by the mark,
    or still to be stored with nothing passed since.
   */
  ghost predicate Kept(start: Option<int>, acts: seq<Act>, i: nat, n: nat)
    requires i < n <= |acts| && Uses(start, acts, i)
  {
    var mark := After(start, acts, n).mark;
    if Stored(start, acts, i, n) then mark.Some? && mark.value >= acts[i].attempt.counter
    else Floor(mark) < acts[i].attempt.counter && forall j :: i < j < n ==> !Wins(start, acts, j)
  }

  /** A serial act that passes after i exceeds it. */
  lemma KeptExceeded(start: Option<int>, acts: seq<Act>, s: Setting, i: nat, j: nat)
    requires Scheduled(start, acts, s) && s.serial && i < j < |acts| && Uses(start, acts, i) && Wins(start, acts, j)
    requires Kept(start, acts, i, j)
    ensures Stored(start, acts, i, j) && acts[i].attempt.counter < acts[j].attempt.counter
  {
    assert ActFits(start, acts, i, s) && ActFits(start, acts, j, s);
    PositiveCounter(acts, i, s.delay);
  }

  lemma KeptAtFirst(start: Option<int>, acts: seq<Act>, s: Setting, i: nat)
    requires Scheduled(start, acts, s) && s.serial && i < |acts| && Uses(start, acts, i)
    ensures Kept(start, acts, i, i + 1)
  {
    assert ActFits(start, acts, i, s);
    forall k | 0 <= k <= i && acts[k].Commit? ensures acts[k].claim != i {
      assert ActFits(start, acts, k, s);
    }
  }

  lemma KeptByCommit(start: Option<int>, acts: seq<Act>, s: Setting, i: nat, n: nat)
    requires Scheduled(start, acts, s) && s.serial && i < n < |acts| && Uses(start, acts, i) && acts[n].Commit?
    requires Kept(start, acts, i, n) && (i < acts[n].claim < n ==> Kept(start, acts, i, acts[n].claim))
    ensures Kept(start, acts, i, n + 1)
  {
    var c := acts[n].claim;
    assert ActFits(start, acts, n, s) && ActFits(start, acts, i, s);
    assert c < i ==> Committed(acts, c, i);
    if c > i {
      KeptExceeded(start, acts, s, i, c);
    }
  }

  lemma {:induction false} SerialKeeps(start: Option<int>, acts: seq<Act>, s: Setting, i: nat, n: nat)
    requires Scheduled(start, acts, s) && s.serial && i < n <= |acts| && Uses(start, acts, i)
    ensures Kept(start, acts, i, n)
    decreases n
  {
    var last := n - 1;
    if i == last {
      KeptAtFirst(start, acts, s, i);
    } else {
      SerialKeeps(start, acts, s, i, last);
      if acts[last].Commit? {
        assert ActFits(start, acts, last, s);
        if acts[last].claim > i {
          SerialKeeps(start, acts, s, i, acts[last].claim);
        }
        KeptByCommit(start, acts, s, i, last);
      } else if Wins(start, acts, last) {
        KeptExceeded(start, acts, s, i, last);
      }
    }
  }

  /**
    When each request begins after the last has ended, a counter that passes exceeds every
    used one, on any mix of paths.
   */
  lemma {:induction false} SerialStrictlyIncreases(start: Option<int>, acts: seq<Act>, s: Setting, i: nat, j: nat)
    requires Scheduled(start, acts, s) && s.serial && i < j < |acts| && Uses(start, acts, i) && Wins(start, acts, j)
    ensures acts[i].attempt.counter < acts[j].attempt.counter
  {
    SerialKeeps(start, acts, s, i, j);
    KeptExceeded(start, acts, s, i, j);
  }

  // ------------------------------------------------------- the runs that use a code twice

  /** Counter 3 can match from the sixtieth second on, for ninety seconds. */
  const OPENS := 60 * SECOND
  const CLOSES := 150 * SECOND

  /** One request claims the code in Redis; before it commits another passes the UPDATE with it. */
  const CLAIMED_AND_UPDATED := [Claim(Attempt(3, 0, OPENS, OPENS), false), Update(Attempt(3, 0, OPENS, OPENS), false)]

  lemma MixedIsTwice(s: Setting)
    requires s.redis && s.update && !s.serial
    ensures Scheduled(None, CLAIMED_AND_UPDATED, s) && !Once(None, CLAIMED_AND_UPDATED)
  {
    NearIsNinetySeconds(3, OPENS);
    assert Uses(None, CLAIMED_AND_UPDATED, 0) && Uses(None, CLAIMED_AND_UPDATED, 1);
  }

  /** Two claims ninety-one seconds apart; the first request has not committed when the second loads its row. */
  function LateClaims(delay: nat): seq<Act>
  {
    [Claim(Attempt(3, 0, OPENS, OPENS), false), Claim(Attempt(3, 1, CLOSES - 1, CLOSES - 1 + delay), false)]
  }

  lemma LateIsTwice(s: Setting)
    requires s.redis && !s.serial && s.delay > SECOND
    ensures Scheduled(None, LateClaims(s.delay), s) && !Once(None, LateClaims(s.delay))
  {
    var acts := LateClaims(s.delay);
    NearIsNinetySeconds(3, OPENS);
    NearIsNinetySeconds(3, CLOSES - 1);
    assert Uses(None, acts, 0);
    assert After(None, acts, 1) == Store(map[3 := OPENS + CLAIM_TTL], None);
    assert Uses(None, acts, 1);
  }

  /** Whatever a run of the setting does, it uses no counter twice. */
  ghost predicate AlwaysOnce(s: Setting)
  {
    forall start: Option<int>, acts: seq<Act> :: Scheduled(start, acts, s) ==> Once(start, acts)
  }

  /** What makes codes single-use: requests one after the other, or one path only and no claim later than a second. */
  predicate Safe(s: Setting)
  {
    s.serial || (!(s.redis && s.update) && (s.redis ==> s.delay <= SECOND))
  }

  lemma SafePair(start: Option<int>, acts: seq<Act>, s: Setting, i: nat, j: nat)
    requires Safe(s) && Scheduled(start, acts, s) && i < j < |acts| && Uses(start, acts, i) && Uses(start, acts, j)
    ensures acts[i].attempt.counter != acts[j].attempt.counter
  {
    if s.serial {
      SerialStrictlyIncreases(start, acts, s, i, j);
    } else if s.redis {
      assert ActFits(start, acts, i, s) && ActFits(start, acts, j, s);
      ClaimOutlasts(start, acts, s, i, j);
    } else {
      UpdateStrictlyIncreases(start, acts, s, i, j);
    }
  }

  /** Over all runs of claims, updates, commits and rollbacks: the exact condition for every code to be used once. */
  lemma {:induction false} SingleUseIff(s: Setting)
    ensures AlwaysOnce(s) <==> Safe(s)
  {
    if Safe(s) {
      forall start: Option<int>, acts: seq<Act> | Scheduled(start, acts, s) ensures Once(start, acts) {
        forall i, j | 0 <= i < j < |acts| && Uses(start, acts, i) && Uses(start, acts, j)
          ensures acts[i].attempt.counter != acts[j].attempt.counter
        {
          SafePair(start, acts, s, i, j);
        }
      }
    } else if s.redis && s.update {
      MixedIsTwice(s);
    } else {
      LateIsTwice(s);
    }
  }

  // ----------------------------------------------------------- passing the check

  /** A request updates and rolls back; the next one passes with the same code. */
  const UPDATED_AND_ABORTED := [Update(Attempt(3, 0, OPENS, OPENS), true), Update(Attempt(3, 1, OPENS, OPENS), false)]

  lemma AbortedUpdatePasses(s: Setting)
    requires s.update
    ensures Scheduled(None, UPDATED_AND_ABORTED, s) && !PassesOnce(None, UPDATED_AND_ABORTED)
  {
    NearIsNinetySeconds(3, OPENS);
    assert Wins(None, UPDATED_AND_ABORTED, 0) && After(None, UPDATED_AND_ABORTED, 1) == Store(map[], None);
    assert Wins(None, UPDATED_AND_ABORTED, 1);
  }

  /** A request claims and rolls back; ninety-one seconds later its claim is gone. */
  function AbortedClaims(delay: nat): seq<Act>
  {
    [Claim(Attempt(3, 0, OPENS, OPENS), true), Claim(Attempt(3, 1, CLOSES - 1, CLOSES - 1 + delay), false)]
  }

  lemma AbortedClaimPasses(s: Setting)
    requires s.redis && s.delay > SECOND
    ensures Scheduled(None, AbortedClaims(s.delay), s) && !PassesOnce(None, AbortedClaims(s.delay))
  {
    var acts := AbortedClaims(s.delay);
    NearIsNinetySeconds(3, OPENS);
    NearIsNinetySeconds(3, CLOSES - 1);
    assert Wins(None, acts, 0);
    assert After(None, acts, 1) == Store(map[3 := OPENS + CLAIM_TTL], None);
    assert Wins(None, acts, 1);
  }

  ghost predicate AlwaysPassesOnce(s: Setting)
  {
    forall start: Option<int>, acts: seq<Act> :: Scheduled(start, acts, s) ==> PassesOnce(start, acts)
  }

  /**
    A code passes the check only once exactly when only Redis guards it, within a second:
    only its claim outlives a rollback.
   */
  lemma {:induction false} PassesOnceIff(s: Setting)
    ensures AlwaysPassesOnce(s) <==> !s.update && (s.redis ==> s.delay <= SECOND)
  {
    if s.update {
      AbortedUpdatePasses(s);
    } else if s.redis && s.delay > SECOND {
      AbortedClaimPasses(s);
    } else {
      forall start: Option<int>, acts: seq<Act> | Scheduled(start, acts, s) ensures PassesOnce(start, acts) {
        forall i, j | 0 <= i < j < |acts| && Wins(start, acts, i) && Wins(start, acts, j)
          ensures acts[i].attempt.counter != acts[j].attempt.counter
        {
          assert ActFits(start, acts, i, s) && ActFits(start, acts, j, s);
          ClaimOutlasts(start, acts, s, i, j);
        }
      }
    }
  }

  /** An UPDATE accepts 6; a slower claim of 5 commits and sets the mark back; the next UPDATE accepts 6 again. */
  const SET_BACK := [
    Update(Attempt(6, 0, CLOSES, CLOSES), false), Claim(Attempt(5, 0, CLOSES, CLOSES), false), Commit(1, CLOSES),
    Update(Attempt(6, 3, CLOSES, CLOSES), false)]

  /** With both paths a code can come back even after every request that used it has committed. */
  lemma CommitSetsBack(s: Setting)
    requires s.redis && s.update && !s.serial
    ensures Scheduled(Some(4), SET_BACK, s)
    ensures Uses(Some(4), SET_BACK, 0) && Uses(Some(4), SET_BACK, 3)
  {
    NearIsNinetySeconds(6, CLOSES);
    NearIsNinetySeconds(5, CLOSES);
    assert Wins(Some(4), SET_BACK, 0) && After(Some(4), SET_BACK, 1) == Store(map[], Some(6));
    assert Wins(Some(4), SET_BACK, 1);
    assert After(Some(4), SET_BACK, 3).mark == Some(5);
  }
}
