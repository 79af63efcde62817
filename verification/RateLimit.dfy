/**
 The sliding-window limiter: one sorted set of admission times per key, purged,
 counted and given a fresh expiry on every call.
 */
module RateLimit {
  import opened Wrappers

  const WINDOW_MS: int := 60_000
  const KEY_EXPIRY_MS: int := 60_000

  /** What Redis holds under one limiter key: ascending scores and the key's expiry. */
  datatype Window = Window(scores: seq<int>, expiresAt: int)

  datatype Verdict = Allowed | Denied(retryAfterSeconds: int)

  /** The members that survive `ZREMRANGEBYSCORE key 0 cutoff`. */
  function Purge(scores: seq<int>, cutoff: int): (kept: seq<int>)
  {
    if scores == [] then []
    else if 0 <= scores[0] <= cutoff then Purge(scores[1..], cutoff)
    else [scores[0]] + Purge(scores[1..], cutoff)
  }

  /** Where `ZADD` puts a new score in an ascending set. */
  function Insert(scores: seq<int>, score: int): (r: seq<int>)
  {
    if scores == [] || scores[|scores| - 1] <= score then scores + [score]
    else Insert(scores[..|scores| - 1], score) + [scores[|scores| - 1]]
  }

  /** A key whose expiry has passed reads as an empty set. */
  function Present(w: Window, now: int): seq<int>
  {
    if now < w.expiresAt then w.scores else []
  }

  /** `math.ceil(ms / 1000)`. */
  function CeilSeconds(ms: int): (q: int)
    ensures (q - 1) * 1000 < ms <= q * 1000
  {
    -((-ms) / 1000)
  }

  function RetryAfter(kept: seq<int>, now: int): int
  {
    if kept == [] then 1 else Max(1, CeilSeconds(kept[0] + WINDOW_MS - now))
  }

  /** One run of the script: the new window and the verdict. */
  function Call(w: Window, now: int, limit: int): (Window, Verdict)
  {
    var kept := Purge(Present(w, now), now - WINDOW_MS);
    if |kept| >= limit then
      (Window(kept, now + KEY_EXPIRY_MS), Denied(RetryAfter(kept, now)))
    else
      (Window(Insert(kept, now), now + KEY_EXPIRY_MS), Allowed)
  }

  /** The limiter of one key, updated in place by every call. */
  class SlidingWindow {
    var scores: seq<int>
    var expiresAt: int

    ghost function Contents(): Window
      reads this
    {
      Window(scores, expiresAt)
    }

    constructor ()
      ensures Contents() == Window([], 0)
    {
      scores, expiresAt := [], 0;
    }

    method Consume(now: int, limit: int) returns (verdict: Verdict)
      modifies this
      ensures (Contents(), verdict) == Call(old(Contents()), now, limit)
    {
      if now >= expiresAt {
        scores := [];
      }
      scores := Purge(scores, now - WINDOW_MS);
      var count := |scores|;
      if count >= limit {
        var retryAfter := 1;
        if count > 0 {
          retryAfter := Max(1, CeilSeconds(scores[0] + WINDOW_MS - now));
        }
        expiresAt := now + KEY_EXPIRY_MS;
        return Denied(retryAfter);
      }
      scores := Insert(scores, now);
      expiresAt := now + KEY_EXPIRY_MS;
      return Allowed;
    }
  }

  // ---------------------------------------------------------------- runs

  /** The window after a run of calls, with the times that were admitted. */
  datatype Trace = Trace(window: Window, admitted: seq<int>)

  function Run(times: seq<int>, limit: int): Trace
  {
    if times == [] then Trace(Window([], 0), [])
    else
      var before := Run(times[..|times| - 1], limit);
      var now := times[|times| - 1];
      var (after, verdict) := Call(before.window, now, limit);
      Trace(after, if verdict.Allowed? then before.admitted + [now] else before.admitted)
  }

  /** Call times: milliseconds since the epoch that never go back. */
  ghost predicate Times(times: seq<int>)
  {
    && (forall i | 0 <= i < |times| :: 0 <= times[i])
    && (forall i, j | 0 <= i < j < |times| :: times[i] <= times[j])
  }

  /** A time at or after every call of the run. */
  ghost predicate NotBefore(t: int, times: seq<int>)
  {
    0 <= t && forall i | 0 <= i < |times| :: 0 <= times[i] <= t
  }

  lemma {:induction false} PurgeNothing(scores: seq<int>, cutoff: int)
    requires forall i | 0 <= i < |scores| :: scores[i] > cutoff
    ensures Purge(scores, cutoff) == scores
  {
    if scores != [] {
      PurgeNothing(scores[1..], cutoff);
    }
  }

  lemma {:induction false} PurgeEverything(scores: seq<int>, cutoff: int)
    requires NotBefore(cutoff, scores)
    ensures Purge(scores, cutoff) == []
  {
    if scores != [] {
      PurgeEverything(scores[1..], cutoff);
    }
  }

  lemma {:induction false} PurgeMembers(scores: seq<int>, cutoff: int)
    requires Times(scores)
    ensures Times(Purge(scores, cutoff))
    ensures forall i | 0 <= i < |Purge(scores, cutoff)| :: Purge(scores, cutoff)[i] > cutoff
    ensures scores != [] && Purge(scores, cutoff) != [] ==>
              scores[0] <= Purge(scores, cutoff)[0]
              && Purge(scores, cutoff)[|Purge(scores, cutoff)| - 1] == scores[|scores| - 1]
  {
    if scores != [] {
      if scores[0] > cutoff {
        PurgeNothing(scores, cutoff);
      } else {
        PurgeMembers(scores[1..], cutoff);
      }
    }
  }

  /** Purging twice with rising cutoffs is purging once with the later one. */
  lemma {:induction false} PurgeTwice(scores: seq<int>, early: int, late: int)
    requires early <= late
    ensures Purge(Purge(scores, early), late) == Purge(scores, late)
  {
    if scores != [] {
      PurgeTwice(scores[1..], early, late);
      if !(0 <= scores[0] <= early) {
        assert ([scores[0]] + Purge(scores[1..], early))[1..] == Purge(scores[1..], early);
      }
    }
  }

  lemma {:induction false} PurgeAppend(scores: seq<int>, x: int, cutoff: int)
    ensures Purge(scores + [x], cutoff)
         == Purge(scores, cutoff) + (if 0 <= x <= cutoff then [] else [x])
  {
    if scores != [] {
      PurgeAppend(scores[1..], x, cutoff);
      assert (scores + [x])[1..] == scores[1..] + [x];
    }
  }

  lemma {:induction false} AdmittedAreCalls(times: seq<int>, limit: int)
    requires Times(times)
    ensures Times(Run(times, limit).admitted)
    ensures Run(times, limit).admitted != [] ==>
              times != [] && NotBefore(times[|times| - 1], Run(times, limit).admitted)
  {
    if times != [] {
      AdmittedAreCalls(times[..|times| - 1], limit);
    }
  }

  /** Purging before an append does not change what a later purge leaves. */
  lemma PurgeThenAppend(scores: seq<int>, x: int, early: int, late: int)
    requires early <= late
    ensures Purge(Purge(scores, early) + [x], late) == Purge(scores + [x], late)
  {
    PurgeTwice(scores, early, late);
    PurgeAppend(Purge(scores, early), x, late);
    PurgeAppend(scores, x, late);
  }

  lemma InsertLatest(admitted: seq<int>, now: int)
    requires Times(admitted) && NotBefore(now, admitted)
    ensures var kept := Purge(admitted, now - WINDOW_MS);
            Insert(kept, now) == kept + [now]
  {
    PurgeMembers(admitted, now - WINDOW_MS);
  }

  /** The scores after one call, against a window that agrees with the admissions so far. */
  lemma CallScores(w: Window, admitted: seq<int>, now: int, limit: int, t: int)
    requires Times(admitted) && NotBefore(now, admitted) && now <= t
    requires Purge(Present(w, now), now - WINDOW_MS) == Purge(admitted, now - WINDOW_MS)
    ensures var (after, verdict) := Call(w, now, limit);
            after.expiresAt == now + KEY_EXPIRY_MS
            && Purge(after.scores, t - WINDOW_MS)
               == Purge(if verdict.Allowed? then admitted + [now] else admitted, t - WINDOW_MS)
  {
    InsertLatest(admitted, now);
    PurgeTwice(admitted, now - WINDOW_MS, t - WINDOW_MS);
    PurgeThenAppend(admitted, now, now - WINDOW_MS, t - WINDOW_MS);
  }

  /** One call keeps the agreement, also once the key's new expiry has passed. */
  lemma CallAgrees(w: Window, admitted: seq<int>, now: int, limit: int, t: int)
    requires Times(admitted) && NotBefore(now, admitted) && now <= t
    requires Purge(Present(w, now), now - WINDOW_MS) == Purge(admitted, now - WINDOW_MS)
    ensures var (after, verdict) := Call(w, now, limit);
            Purge(Present(after, t), t - WINDOW_MS)
            == Purge(if verdict.Allowed? then admitted + [now] else admitted, t - WINDOW_MS)
  {
    CallScores(w, admitted, now, limit, t);
    if t >= now + KEY_EXPIRY_MS {
      PurgeEverything(admitted, t - WINDOW_MS);
      PurgeEverything(admitted + [now], t - WINDOW_MS);
    }
  }

  /**
   Key expiry never drops an entry that is still in the window: at any later time the
   purged set is exactly the admitted calls of the last 60 seconds, whatever was denied
   in between.
   */
  lemma {:induction false} WindowIsExact(times: seq<int>, limit: int, t: int)
    requires Times(times) && NotBefore(t, times)
    ensures var r := Run(times, limit);
            Purge(Present(r.window, t), t - WINDOW_MS) == Purge(r.admitted, t - WINDOW_MS)
  {
    if times != [] {
      var n := |times| - 1;
      WindowIsExact(times[..n], limit, times[n]);
      AdmittedAreCalls(times[..n], limit);
      CallAgrees(Run(times[..n], limit).window, Run(times[..n], limit).admitted, times[n], limit, t);
    }
  }

  /** A call is admitted exactly when fewer than `limit` admissions are younger than 60 seconds. */
  lemma AdmittedIffRoom(times: seq<int>, limit: int, t: int)
    requires Times(times) && NotBefore(t, times)
    ensures Call(Run(times, limit).window, t, limit).1.Allowed?
       <==> |Purge(Run(times, limit).admitted, t - WINDOW_MS)| < limit
  {
    WindowIsExact(times, limit, t);
  }

  /** The admitted calls whose time lies in the half-open window that starts at `from`. */
  function Inside(admitted: seq<int>, from: int): seq<int>
  {
    if admitted == [] then []
    else
      var n := |admitted| - 1;
      Inside(admitted[..n], from) + (if from <= admitted[n] < from + WINDOW_MS then [admitted[n]] else [])
  }

  lemma {:induction false} InsideIsRecent(admitted: seq<int>, from: int, cutoff: int)
    requires from > cutoff
    ensures |Inside(admitted, from)| <= |Purge(admitted, cutoff)|
    ensures from == cutoff + 1 && NotBefore(cutoff + WINDOW_MS, admitted) ==>
              |Inside(admitted, from)| == |Purge(admitted, cutoff)|
  {
    if admitted != [] {
      var n := |admitted| - 1;
      InsideIsRecent(admitted[..n], from, cutoff);
      PurgeAppend(admitted[..n], admitted[n], cutoff);
      assert admitted[..n] + [admitted[n]] == admitted;
    }
  }

  lemma InsideAfterAdmission(before: seq<int>, now: int, limit: int, from: int)
    requires |Inside(before, from)| <= limit && |Purge(before, now - WINDOW_MS)| < limit
    ensures |Inside(before + [now], from)| <= limit
  {
    assert (before + [now])[..|before|] == before;
    if now < from + WINDOW_MS {
      InsideIsRecent(before, from, now - WINDOW_MS);
    }
  }

  /** The limit: in any half-open 60-second window at most `limit` calls were admitted. */
  lemma {:induction false} AtMostLimitPerWindow(times: seq<int>, limit: int, from: int)
    requires Times(times) && limit >= 0
    ensures |Inside(Run(times, limit).admitted, from)| <= limit
  {
    if times != [] {
      var front, now := times[..|times| - 1], times[|times| - 1];
      AtMostLimitPerWindow(front, limit, from);
      AdmittedIffRoom(front, limit, now);
      if Call(Run(front, limit).window, now, limit).1.Allowed? {
        InsideAfterAdmission(Run(front, limit).admitted, now, limit, from);
      }
    }
  }

  /**
   Retry-After (section 10.2.3 of RFC 9110) is exact. After a denial at `now`, and whatever
   later calls as long as none is admitted, a call k seconds after the denial is admitted
   if and only if k has reached the returned value, provided the limit is positive. With a
   limit of zero or less no wait ever helps, so the returned value is then wrong.
   */
  lemma RetryAfterIsLeast(times: seq<int>, now: int, retryAfter: int, later: seq<int>, t: int, answer: Verdict,
                          limit: int, k: nat)
    requires Times(times) && NotBefore(now, times)
    requires Call(Run(times, limit).window, now, limit).1 == Denied(retryAfter)
    requires t == now + 1000 * k && Times(later) && NotBefore(t, later)
    requires Run(later, limit).admitted == Run(times, limit).admitted
    requires Call(Run(later, limit).window, t, limit).1 == answer
    ensures retryAfter >= 1
    ensures answer.Allowed? <==> limit > 0 && k >= retryAfter
  {
    LaterAdmission(times, later, limit, t, answer);
    DenialIsExact(times, now, retryAfter, limit, k, t);
  }

  lemma LaterAdmission(times: seq<int>, later: seq<int>, limit: int, t: int, answer: Verdict)
    requires Times(later) && NotBefore(t, later)
    requires Run(later, limit).admitted == Run(times, limit).admitted
    requires Call(Run(later, limit).window, t, limit).1 == answer
    ensures answer.Allowed? <==> |Purge(Run(times, limit).admitted, t - WINDOW_MS)| < limit
  {
    AdmittedIffRoom(later, limit, t);
  }

  lemma DenialIsExact(times: seq<int>, now: int, retryAfter: int, limit: int, k: nat, t: int)
    requires Times(times) && NotBefore(now, times) && t == now + 1000 * k
    requires Call(Run(times, limit).window, now, limit).1 == Denied(retryAfter)
    ensures retryAfter >= 1
    ensures |Purge(Run(times, limit).admitted, t - WINDOW_MS)| < limit <==> limit > 0 && k >= retryAfter
  {
    DeniedWindow(times, now, limit);
    if limit > 0 {
      RoomAfterWait(Run(times, limit).admitted, now, limit, k, retryAfter);
    }
  }

  /** A denied call finds the window exactly full and returns the wait of the oldest entry. */
  lemma DeniedWindow(times: seq<int>, now: int, limit: int)
    requires Times(times) && NotBefore(now, times)
    requires Call(Run(times, limit).window, now, limit).1.Denied?
    ensures var kept := Purge(Run(times, limit).admitted, now - WINDOW_MS);
            Call(Run(times, limit).window, now, limit).1 == Denied(RetryAfter(kept, now))
            && (limit >= 0 ==> |kept| == limit)
    ensures Times(Run(times, limit).admitted) && NotBefore(now, Run(times, limit).admitted)
  {
    AdmittedAreCalls(times, limit);
    WindowIsExact(times, limit, now);
    if limit >= 0 {
      WindowNotOverfull(times, now, limit);
    }
  }

  lemma WindowNotOverfull(times: seq<int>, now: int, limit: int)
    requires Times(times) && NotBefore(now, times) && limit >= 0
    ensures |Purge(Run(times, limit).admitted, now - WINDOW_MS)| <= limit
  {
    AdmittedAreCalls(times, limit);
    AtMostLimitPerWindow(times, limit, now - WINDOW_MS + 1);
    InsideIsRecent(Run(times, limit).admitted, now - WINDOW_MS + 1, now - WINDOW_MS);
  }

  /** When the window is full, waiting k seconds makes room exactly from the returned value on. */
  lemma RoomAfterWait(admitted: seq<int>, now: int, limit: int, k: nat, r: int)
    requires Times(admitted) && NotBefore(now, admitted) && limit > 0
    requires |Purge(admitted, now - WINDOW_MS)| == limit
    requires r == RetryAfter(Purge(admitted, now - WINDOW_MS), now)
    ensures |Purge(admitted, now + 1000 * k - WINDOW_MS)| < limit <==> k >= r
  {
    PurgeTwice(admitted, now - WINDOW_MS, now + 1000 * k - WINDOW_MS);
    OldestLeaves(admitted, now - WINDOW_MS, now + 1000 * k - WINDOW_MS);
    WaitInSeconds(Purge(admitted, now - WINDOW_MS)[0] + WINDOW_MS - now, k);
  }

  lemma WaitInSeconds(ms: int, k: nat)
    requires ms > 0
    ensures ms <= 1000 * k <==> k >= Max(1, CeilSeconds(ms))
  {
    var q := CeilSeconds(ms);
    assert (q - 1) * 1000 < ms <= q * 1000;
  }

  /** A later purge removes something exactly when it reaches the oldest survivor. */
  lemma OldestLeaves(admitted: seq<int>, early: int, late: int)
    requires Times(admitted) && early <= late && Purge(admitted, early) != []
    ensures var kept := Purge(admitted, early);
            kept[0] > early && (|Purge(kept, late)| < |kept| <==> kept[0] <= late)
  {
    var kept := Purge(admitted, early);
    PurgeMembers(admitted, early);
    assert kept[0] in kept;
    if kept[0] > late {
      PurgeNothing(kept, late);
    } else {
      PurgeShrinks(kept[1..], late);
    }
  }

  lemma {:induction false} PurgeShrinks(scores: seq<int>, cutoff: int)
    ensures |Purge(scores, cutoff)| <= |scores|
  {
    if scores != [] {
      PurgeShrinks(scores[1..], cutoff);
    }
  }
}
