/**
  The sliding-window rate limiter: the in-process deque and the Redis script against the rule
  over the full history of admitted hits. Times are integer microseconds.
 */
module RateLimit {
  import opened Common
  import Money

  datatype Decision = Admitted | Refused(retry: int) | Crashed

  predicate Sorted(s: seq<int>)
  {
    forall i, j :: 0 <= i < j < |s| ==> s[i] <= s[j]
  }

  // ----------------------------------------------------------------- the rule

  /** How many of the recorded hits lie in the half-open window (from, to]. */
  function InWindow(hits: seq<int>, from: int, to: int): (count: nat)
  {
    if hits == [] then 0 else
      var last := hits[|hits| - 1];
      InWindow(hits[..|hits| - 1], from, to) + if from < last <= to then 1 else 0
  }

  // ---------------------------------------------------------------- the deque

  /** How many entries have left the window. */
  function Expired(bucket: seq<int>, cutoff: int): (k: nat)
    ensures k <= |bucket|
    ensures forall i :: 0 <= i < k ==> bucket[i] <= cutoff
    ensures k < |bucket| ==> bucket[k] > cutoff
  {
    if bucket != [] && bucket[0] <= cutoff then 1 + Expired(bucket[1..], cutoff) else 0
  }

  datatype Step = Step(bucket: seq<int>, decision: Decision)

  function DequeHit(bucket: seq<int>, now: int, limit: nat, window: nat): Step
  {
    var rest := bucket[Expired(bucket, now - window)..];
    if |rest| < limit then Step(rest + [now], Admitted)
    else if rest == [] then Step(rest, Crashed)
    else Step(rest, Refused(Money.Max(0, rest[0] + window - now)))
  }

  /** One key of the in-process limiter. */
  class Bucket {
    var hits: seq<int>

    constructor ()
      ensures hits == []
    {
      hits := [];
    }

    /** _hit_inmemory: pop from the left, then refuse or append. */
    method Hit(now: int, limit: nat, window: nat) returns (decision: Decision)
      modifies this
      ensures Step(hits, decision) == DequeHit(old(hits), now, limit, window)
    {
      var cutoff := now - window;
      ghost var popped := 0;
      while hits != [] && hits[0] <= cutoff
        invariant popped <= |old(hits)| && hits == old(hits)[popped..]
        invariant Expired(old(hits), cutoff) == popped + Expired(hits, cutoff)
        decreases |hits|
      {
        assert old(hits)[popped..][1..] == old(hits)[popped + 1..];
        hits, popped := hits[1..], popped + 1;
      }
      assert Expired(hits, cutoff) == 0;
      if |hits| >= limit {
        if hits == [] {
          // An empty deque has no first entry to compute the wait from.
          return Crashed;
        }
        return Refused(Money.Max(0, hits[0] + window - now));
      }
      hits := hits + [now];
      decision := Admitted;
    }
  }

  // ---------------------------------------------------- the deque and the rule

  /** The limiter after a run of calls: its bucket, and every hit it ever admitted. */
  datatype Log = Log(bucket: seq<int>, admitted: seq<int>)

  function Hits(calls: seq<int>, limit: nat, window: nat): Log
  {
    if calls == [] then Log([], []) else
      var n := |calls| - 1;
      var earlier := Hits(calls[..n], limit, window);
      var step := DequeHit(earlier.bucket, calls[n], limit, window);
      Log(step.bucket, if step.decision.Admitted? then earlier.admitted + [calls[n]] else earlier.admitted)
  }

  /** The bucket is the end of the history: entry i of the one is entry `lost + i` of the other. */
  ghost predicate EndsWith(admitted: seq<int>, lost: nat, bucket: seq<int>)
  {
    && lost + |bucket| == |admitted|
    && forall i :: 0 <= i < |bucket| ==> bucket[i] == admitted[lost + i]
  }

  /** What the bucket has forgotten left the window long ago, and nothing is newer than `now`. */
  ghost predicate Tracks(log: Log, limit: nat, window: nat, now: int)
  {
    && |log.bucket| <= |log.admitted| && |log.bucket| <= limit && Sorted(log.admitted)
    && EndsWith(log.admitted, |log.admitted| - |log.bucket|, log.bucket)
    && AllAtMost(log.admitted, |log.admitted|, now)
    && AllAtMost(log.admitted, |log.admitted| - |log.bucket|, now - window)
  }

  ghost predicate AllAtMost(hits: seq<int>, k: int, bound: int)
  {
    forall i :: 0 <= i < k && i < |hits| ==> hits[i] <= bound
  }

  ghost predicate AllWithin(hits: seq<int>, k: int, from: int, to: int)
  {
    forall i :: k <= i < |hits| && 0 <= i ==> from < hits[i] <= to
  }

  lemma {:induction false} SortedCount(hits: seq<int>, from: int, to: int, k: nat)
    requires k <= |hits| && Sorted(hits)
    requires AllAtMost(hits, k, from) && AllWithin(hits, k, from, to)
    ensures InWindow(hits, from, to) == |hits| - k
  {
    if hits != [] {
      var n := |hits| - 1;
      if k == |hits| {
        SortedCount(hits[..n], from, to, n);
      } else {
        SortedCount(hits[..n], from, to, k);
      }
    }
  }

  /** Where the trimmed bucket begins in the history: exactly where the window does. */
  lemma WindowBegins(log: Log, limit: nat, window: nat, last: int, now: int) returns (k: nat)
    requires Tracks(log, limit, window, last) && last <= now
    ensures k <= |log.admitted| && |log.admitted| - k == |log.bucket| - Expired(log.bucket, now - window)
    ensures AllAtMost(log.admitted, k, now - window) && AllWithin(log.admitted, k, now - window, now)
  {
    var e, lost := Expired(log.bucket, now - window), |log.admitted| - |log.bucket|;
    k := lost + e;
    forall i | 0 <= i < k ensures log.admitted[i] <= now - window {
      if i >= lost {
        assert log.bucket[i - lost] == log.admitted[i];
      }
    }
    if e < |log.bucket| {
      assert log.bucket[e] == log.admitted[k];
      assert forall i :: k <= i < |log.admitted| ==> log.admitted[k] <= log.admitted[i];
    }
  }

  /** What is left after trimming is counted by the rule. */
  lemma TrimCounts(log: Log, limit: nat, window: nat, last: int, now: int)
    requires Tracks(log, limit, window, last) && last <= now
    ensures |log.bucket| - Expired(log.bucket, now - window) == InWindow(log.admitted, now - window, now)
  {
    var k := WindowBegins(log, limit, window, last, now);
    SortedCount(log.admitted, now - window, now, k);
  }

  lemma TrimTracks(log: Log, limit: nat, window: nat, last: int, now: int, rest: seq<int>)
    requires Tracks(log, limit, window, last) && last <= now
    requires rest == log.bucket[Expired(log.bucket, now - window)..]
    ensures Tracks(Log(rest, log.admitted), limit, window, now)
  {
    var k := WindowBegins(log, limit, window, last, now);
    DropEnds(log.admitted, |log.admitted| - |log.bucket|, log.bucket, Expired(log.bucket, now - window), rest);
  }

  lemma DropEnds(admitted: seq<int>, lost: nat, bucket: seq<int>, e: nat, rest: seq<int>)
    requires EndsWith(admitted, lost, bucket) && e <= |bucket| && rest == bucket[e..]
    ensures EndsWith(admitted, lost + e, rest)
  {
    forall i | 0 <= i < |rest| ensures rest[i] == admitted[lost + e + i] {
      assert rest[i] == bucket[e + i];
    }
  }

  lemma AppendTracks(log: Log, limit: nat, window: nat, now: int)
    requires Tracks(log, limit, window, now) && |log.bucket| < limit
    ensures Tracks(Log(log.bucket + [now], log.admitted + [now]), limit, window, now)
  {
  }

  lemma HitTracks(log: Log, limit: nat, window: nat, last: int, now: int, step: Step, admitted: seq<int>)
    requires Tracks(log, limit, window, last) && last <= now && step == DequeHit(log.bucket, now, limit, window)
    requires admitted == if step.decision.Admitted? then log.admitted + [now] else log.admitted
    ensures Tracks(Log(step.bucket, admitted), limit, window, now)
  {
    var rest := log.bucket[Expired(log.bucket, now - window)..];
    TrimTracks(log, limit, window, last, now, rest);
    if step.decision.Admitted? {
      AppendTracks(Log(rest, log.admitted), limit, window, now);
    }
  }

  lemma {:induction false} HistoryTracked(calls: seq<int>, limit: nat, window: nat)
    requires calls != [] && Sorted(calls)
    ensures Tracks(Hits(calls, limit, window), limit, window, calls[|calls| - 1])
  {
    var n := |calls| - 1;
    if n == 0 {
      HitTracks(Log([], []), limit, window, calls[0], calls[0], DequeHit([], calls[0], limit, window),
                Hits(calls, limit, window).admitted);
    } else {
      HistoryTracked(calls[..n], limit, window);
      var earlier := Hits(calls[..n], limit, window);
      HitTracks(earlier, limit, window, calls[n - 1], calls[n], DequeHit(earlier.bucket, calls[n], limit, window),
                Hits(calls, limit, window).admitted);
    }
  }

  /**
    With a clock that never runs backwards, a hit is admitted exactly when the rule over the
    full history allows it.
   */
  lemma {:induction false} AdmittedIffBelowLimit(calls: seq<int>, now: int, limit: nat, window: nat)
    requires Sorted(calls + [now])
    ensures var log := Hits(calls, limit, window);
            DequeHit(log.bucket, now, limit, window).decision.Admitted? <==>
              InWindow(log.admitted, now - window, now) < limit
  {
    var log := Hits(calls, limit, window);
    if calls == [] {
    } else {
      assert calls == (calls + [now])[..|calls|];
      assert (calls + [now])[|calls| - 1] <= (calls + [now])[|calls|];
      HistoryTracked(calls, limit, window);
      TrimCounts(log, limit, window, calls[|calls| - 1], now);
    }
  }

  /** Any limit + 1 admitted hits span at least a window. */
  lemma {:induction false} AdmittedHitsAreSpread(calls: seq<int>, limit: nat, window: nat, i: nat)
    requires Sorted(calls) && i + limit < |Hits(calls, limit, window).admitted|
    ensures var admitted := Hits(calls, limit, window).admitted;
            admitted[i + limit] - admitted[i] >= window
  {
    var n := |calls| - 1;
    var earlier, admitted := Hits(calls[..n], limit, window), Hits(calls, limit, window).admitted;
    if i + limit < |earlier.admitted| {
      AdmittedHitsAreSpread(calls[..n], limit, window, i);
    } else {
      var now := calls[n];
      assert admitted == earlier.admitted + [now];
      if n > 0 {
        HistoryTracked(calls[..n], limit, window);
        var k := WindowBegins(earlier, limit, window, calls[n - 1], now);
      }
    }
  }

  lemma {:induction false} CountAtMost(hits: seq<int>, from: int, to: int, limit: nat, window: nat)
    requires Sorted(hits) && to == from + window
    requires forall i :: 0 <= i && i + limit < |hits| ==> hits[i + limit] - hits[i] >= window
    ensures InWindow(hits, from, to) <= limit
  {
    if |hits| <= limit {
      CountBySize(hits, from, to);
    } else {
      var n := |hits| - 1;
      CountAtMost(hits[..n], from, to, limit, window);
      if from < hits[n] <= to {
        assert hits[n - limit + limit] - hits[n - limit] >= window;
        CountTail(hits, from, to, n - limit + 1);
      }
    }
  }

  lemma {:induction false} CountBySize(hits: seq<int>, from: int, to: int)
    ensures InWindow(hits, from, to) <= |hits|
  {
    if hits != [] {
      CountBySize(hits[..|hits| - 1], from, to);
    }
  }

  lemma {:induction false} CountTail(hits: seq<int>, from: int, to: int, k: nat)
    requires k <= |hits| && forall i :: 0 <= i < k ==> hits[i] <= from
    ensures InWindow(hits, from, to) <= |hits| - k
  {
    if hits != [] {
      var n := |hits| - 1;
      CountTail(hits[..n], from, to, if k == |hits| then n else k);
    }
  }

  /** No half-open window anywhere in the run holds more than `limit` admitted hits. */
  lemma {:induction false} NoWindowHoldsMore(calls: seq<int>, limit: nat, window: nat, from: int)
    requires Sorted(calls)
    ensures InWindow(Hits(calls, limit, window).admitted, from, from + window) <= limit
  {
    var admitted := Hits(calls, limit, window).admitted;
    if calls != [] {
      HistoryTracked(calls, limit, window);
      forall i | 0 <= i && i + limit < |admitted| ensures admitted[i + limit] - admitted[i] >= window {
        AdmittedHitsAreSpread(calls, limit, window, i);
      }
      CountAtMost(admitted, from, from + window, limit, window);
    }
  }

  // -------------------------------------------------------------- exact retry

  /** After a refusal the next hit is refused strictly before the announced moment, and admitted from it on. */
  lemma RetryIsExact(log: Log, limit: nat, window: nat, last: int, now: int, later: int, step: Step)
    requires Tracks(log, limit, window, last) && last <= now <= later && limit >= 1
    requires step == DequeHit(log.bucket, now, limit, window) && step.decision.Refused?
    ensures DequeHit(step.bucket, later, limit, window).decision.Admitted? <==> later >= now + step.decision.retry
    ensures step.decision.retry > 0
  {
    var e := Expired(log.bucket, now - window);
    assert step.bucket == log.bucket[e..];
    assert step.bucket[0] == log.bucket[e];
    assert |step.bucket| == limit;
  }

  lemma RetryIsExactInRuns(calls: seq<int>, now: int, later: int, limit: nat, window: nat, step: Step)
    requires Sorted(calls + [now]) && now <= later && limit >= 1
    requires step == DequeHit(Hits(calls, limit, window).bucket, now, limit, window) && step.decision.Refused?
    ensures DequeHit(step.bucket, later, limit, window).decision.Admitted? <==> later >= now + step.decision.retry
  {
    if calls != [] {
      assert calls == (calls + [now])[..|calls|];
      assert (calls + [now])[|calls| - 1] <= (calls + [now])[|calls|];
      HistoryTracked(calls, limit, window);
      RetryIsExact(Hits(calls, limit, window), limit, window, calls[|calls| - 1], now, later, step);
    }
  }

  // --------------------------------------------------------- the Redis script

  /** A member of the sorted set; `member` is unique per call. */
  datatype Hit = Hit(score: int, member: nat)

  /** A sorted set in its order, and the moment its key expires. */
  datatype Zset = Zset(entries: seq<Hit>, expires: int)

  const SECOND := 1000000

  /** The key outlives the window by a second, rounded up to whole milliseconds. */
  function Ttl(window: nat): (ttl: nat)
    ensures ttl >= window + SECOND
  {
    (window + SECOND + 999) / 1000 * 1000
  }

  /** ZREMRANGEBYSCORE key -inf cutoff, inclusive. */
  function Evict(entries: seq<Hit>, cutoff: int): seq<Hit>
  {
    if entries == [] then [] else
      var rest := Evict(entries[1..], cutoff);
      if entries[0].score <= cutoff then rest else [entries[0]] + rest
  }

  /** ZADD of a new member: by score, then by member. */
  function Add(entries: seq<Hit>, h: Hit): seq<Hit>
  {
    if entries == [] then [h]
    else if entries[0].score < h.score || (entries[0].score == h.score && entries[0].member < h.member) then
      [entries[0]] + Add(entries[1..], h)
    else [h] + entries
  }

  datatype Reply = Reply(zset: Zset, decision: Decision)

  function RedisHit(z: Zset, now: int, limit: nat, window: nat, member: nat): Reply
  {
    var live := if now >= z.expires then [] else z.entries;
    var kept := Evict(live, now - window);
    if |kept| >= limit then
      var retry := if kept == [] then window else Money.Max(0, kept[0].score + window - now);
      Reply(Zset(kept, z.expires), Refused(retry))
    else
      Reply(Zset(Add(kept, Hit(now, member)), now + Ttl(window)), Admitted)
  }

  /** The set after a run of calls; the i-th call brings member i. */
  function RedisAfter(calls: seq<int>, limit: nat, window: nat): Zset
  {
    if calls == [] then Zset([], 0) else
      var n := |calls| - 1;
      RedisHit(RedisAfter(calls[..n], limit, window), calls[n], limit, window, n).zset
  }

  /** The set holds the times in the bucket, and its key does not expire before they leave the window. */
  ghost predicate Same(z: Zset, bucket: seq<int>, window: nat, last: int)
  {
    && |z.entries| == |bucket| && Sorted(bucket)
    && (forall i :: 0 <= i < |bucket| ==> z.entries[i].score == bucket[i] && bucket[i] <= last)
    && (forall i :: 0 <= i < |bucket| ==> bucket[i] + window <= z.expires)
  }

  /** On ordered scores, removing by score is dropping the front. */
  lemma {:induction false} EvictDrops(entries: seq<Hit>, bucket: seq<int>, cutoff: int)
    requires |entries| == |bucket| && Sorted(bucket) && forall i :: 0 <= i < |bucket| ==> entries[i].score == bucket[i]
    ensures Evict(entries, cutoff) == entries[Expired(bucket, cutoff)..]
  {
    if entries != [] {
      EvictDrops(entries[1..], bucket[1..], cutoff);
      if bucket[0] > cutoff {
        NoneExpired(bucket[1..], cutoff);
      }
    }
  }

  lemma NoneExpired(bucket: seq<int>, cutoff: int)
    requires forall i :: 0 <= i < |bucket| ==> bucket[i] > cutoff
    ensures Expired(bucket, cutoff) == 0
  {
  }

  lemma {:induction false} AllExpired(bucket: seq<int>, cutoff: int)
    requires forall i :: 0 <= i < |bucket| ==> bucket[i] <= cutoff
    ensures Expired(bucket, cutoff) == |bucket|
  {
    var k := Expired(bucket, cutoff);
  }

  /** Adding the latest time adds one entry at the end of the times. */
  lemma {:induction false} AddAppends(entries: seq<Hit>, h: Hit)
    requires forall i :: 0 <= i < |entries| ==> entries[i].score <= h.score
    requires forall i, j :: 0 <= i < j < |entries| ==> entries[i].score <= entries[j].score
    ensures |Add(entries, h)| == |entries| + 1
    ensures forall i :: 0 <= i < |entries| ==> Add(entries, h)[i].score == entries[i].score
    ensures Add(entries, h)[|entries|].score == h.score
  {
    if entries != [] {
      if entries[0].score < h.score || (entries[0].score == h.score && entries[0].member < h.member) {
        AddAppends(entries[1..], h);
      } else {
        assert forall i :: 0 <= i < |entries| ==> entries[i].score == h.score;
      }
    }
  }

  /** One call: with a positive limit both implementations decide alike, down to the wait. */
  lemma HitAgrees(z: Zset, bucket: seq<int>, last: int, now: int, limit: nat, window: nat, member: nat, kept: seq<Hit>)
    requires Same(z, bucket, window, last) && last <= now && limit >= 1
    requires kept == Evict(if now >= z.expires then [] else z.entries, now - window)
    ensures var rest := bucket[Expired(bucket, now - window)..];
            |kept| == |rest| && Sorted(rest) && forall i :: 0 <= i < |rest| ==> kept[i].score == rest[i]
    ensures RedisHit(z, now, limit, window, member).decision == DequeHit(bucket, now, limit, window).decision
  {
    if now >= z.expires {
      AllExpired(bucket, now - window);
    } else {
      EvictDrops(z.entries, bucket, now - window);
    }
  }

  lemma RestStaysSame(z: Zset, bucket: seq<int>, last: int, now: int, window: nat, e: nat, kept: seq<Hit>,
                      rest: seq<int>)
    requires Same(z, bucket, window, last) && last <= now && e <= |bucket| && rest == bucket[e..] && |kept| == |rest|
    requires forall i :: 0 <= i < |rest| ==> kept[i].score == rest[i]
    ensures Same(Zset(kept, z.expires), rest, window, now)
  {
    forall i | 0 <= i < |rest| ensures rest[i] <= now && rest[i] + window <= z.expires {
      assert rest[i] == bucket[e + i];
    }
  }

  lemma AppendStaysSame(z: Zset, bucket: seq<int>, now: int, window: nat, member: nat)
    requires Same(z, bucket, window, now)
    ensures Same(Zset(Add(z.entries, Hit(now, member)), now + Ttl(window)), bucket + [now], window, now)
  {
    AddAppends(z.entries, Hit(now, member));
  }

  lemma HitKeepsSame(z: Zset, bucket: seq<int>, last: int, now: int, limit: nat, window: nat, member: nat)
    requires Same(z, bucket, window, last) && last <= now && limit >= 1
    ensures Same(RedisHit(z, now, limit, window, member).zset, DequeHit(bucket, now, limit, window).bucket, window, now)
  {
    var kept := Evict(if now >= z.expires then [] else z.entries, now - window);
    var rest := bucket[Expired(bucket, now - window)..];
    HitAgrees(z, bucket, last, now, limit, window, member, kept);
    RestStaysSame(z, bucket, last, now, window, Expired(bucket, now - window), kept, rest);
    if |rest| < limit {
      AppendStaysSame(Zset(kept, z.expires), rest, now, window, member);
    }
  }

  lemma {:induction false} RedisTracks(calls: seq<int>, limit: nat, window: nat)
    requires calls != [] && Sorted(calls) && limit >= 1
    ensures Same(RedisAfter(calls, limit, window), Hits(calls, limit, window).bucket, window, calls[|calls| - 1])
  {
    var n := |calls| - 1;
    if n == 0 {
      HitKeepsSame(Zset([], 0), [], calls[0], calls[0], limit, window, 0);
    } else {
      RedisTracks(calls[..n], limit, window);
      HitKeepsSame(RedisAfter(calls[..n], limit, window), Hits(calls[..n], limit, window).bucket,
                   calls[n - 1], calls[n], limit, window, n);
    }
  }

  /**
    On the same call times the script and the deque decide alike after every run, exactly
    when the limit is positive.
   */
  lemma {:induction false} RedisAgreesIff(calls: seq<int>, now: int, limit: nat, window: nat)
    requires Sorted(calls + [now])
    ensures limit >= 1 <==>
            RedisHit(RedisAfter(calls, limit, window), now, limit, window, |calls|).decision
            == DequeHit(Hits(calls, limit, window).bucket, now, limit, window).decision
  {
    var z, bucket := RedisAfter(calls, limit, window), Hits(calls, limit, window).bucket;
    if limit >= 1 {
      var last := if calls == [] then now else calls[|calls| - 1];
      if calls != [] {
        assert calls == (calls + [now])[..|calls|];
        assert (calls + [now])[|calls| - 1] <= (calls + [now])[|calls|];
        RedisTracks(calls, limit, window);
      }
      HitAgrees(z, bucket, last, now, limit, window, |calls|,
                Evict(if now >= z.expires then [] else z.entries, now - window));
    } else {
      NothingAdmitted(calls, window);
    }
  }

  lemma {:induction false} NothingAdmitted(calls: seq<int>, window: nat)
    ensures Hits(calls, 0, window).bucket == []
  {
    if calls != [] {
      NothingAdmitted(calls[..|calls| - 1], window);
    }
  }
}
