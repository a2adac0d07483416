/**
 What runs of the sliding window guarantee: it decides like a limiter that remembers every
 admission, it bounds the admissions of every window even when recorded times step back,
 and the wait it announces after a minute rejection is long enough.
 */
module RateBounds {
  import opened Wrappers
  import opened RateLimiter
  import opened Sequences

  datatype Call = Call(now: Instant, rpm: Option<u32>, rps: Option<u32>)

  // ------------------------------------------------------------------ runs

  /** The queue after a run of calls on a new window. */
  function Queue(calls: seq<Call>): seq<Instant> {
    if calls == [] then []
    else
      var c := calls[|calls| - 1];
      QueueAfter(Queue(calls[..|calls| - 1]), c.now, c.rpm, c.rps)
  }

  /** The queue as the last call of a run finds it after pruning. */
  function Pruned(calls: seq<Call>): seq<Instant>
    requires calls != []
  {
    Prune(Queue(calls[..|calls| - 1]), Cutoff(calls[|calls| - 1].now, MINUTE))
  }

  /** The decision taken on the last call of a run. */
  function Last(calls: seq<Call>): Decision
    requires calls != []
  {
    var c := calls[|calls| - 1];
    Decide(Queue(calls[..|calls| - 1]), c.now, c.rpm, c.rps)
  }

  /** The times of all admissions of a run, oldest first, none forgotten. */
  function Admissions(calls: seq<Call>): seq<Instant> {
    if calls == [] then []
    else
      var before := Admissions(calls[..|calls| - 1]);
      if Last(calls).verdict.Accept? then before + [calls[|calls| - 1].now] else before
  }

  function CountSince(times: seq<Instant>, cutoff: Instant): nat {
    if times == [] then 0
    else CountSince(times[..|times| - 1], cutoff) + if times[|times| - 1] >= cutoff then 1 else 0
  }

  function Since(times: seq<Instant>, cutoff: Instant): seq<Instant> {
    if times == [] then []
    else Since(times[..|times| - 1], cutoff) + if times[|times| - 1] >= cutoff then [times[|times| - 1]] else []
  }

  function CountWithin(times: seq<Instant>, lo: Instant, hi: Instant): nat {
    if times == [] then 0
    else CountWithin(times[..|times| - 1], lo, hi) + if lo <= times[|times| - 1] <= hi then 1 else 0
  }

  /** The limiter that keeps its whole history and filters it on every call. */
  function JudgeByHistory(history: seq<Instant>, c: Call): Verdict {
    if c.rps.Some? && AsU32(CountSince(history, Cutoff(c.now, SECOND))) >= c.rps.value then BurstReject
    else if c.rpm.Some? && AsU32(CountSince(history, Cutoff(c.now, MINUTE))) >= c.rpm.value then MinuteReject
    else Accept
  }

  predicate Sorted(times: seq<Instant>) {
    forall i, j :: 0 <= i < j < |times| ==> times[i] <= times[j]
  }

  predicate InOrder(calls: seq<Call>) {
    forall i, j :: 0 <= i < j < |calls| ==> calls[i].now <= calls[j].now
  }

  /** Every call comes at least a minute after the clock's origin. */
  predicate WarmClock(calls: seq<Call>) {
    forall i :: 0 <= i < |calls| ==> calls[i].now >= MINUTE
  }

  predicate FixedLimits(calls: seq<Call>, rpm: Option<u32>, rps: Option<u32>) {
    forall i :: 0 <= i < |calls| ==> calls[i].rpm == rpm && calls[i].rps == rps
  }

  // ------------------------------------------------------------------ queues and histories

  lemma {:induction false} PruneSplits(q: seq<Instant>, cutoff: Instant) returns (k: nat)
    ensures k <= |q| && Prune(q, cutoff) == q[k..]
    ensures forall i :: 0 <= i < k ==> q[i] < cutoff
    ensures k < |q| ==> q[k] >= cutoff
  {
    if q != [] && q[0] < cutoff {
      var m := PruneSplits(q[1..], cutoff);
      k := m + 1;
      assert forall i :: 0 < i < k ==> q[i] == q[1..][i - 1];
    } else {
      k := 0;
    }
  }

  /** The history splits at `k` into what lies before the cutoff and what does not. */
  predicate SplitsAt(times: seq<Instant>, cutoff: Instant, k: nat) {
    && k <= |times|
    && (forall i :: 0 <= i < k ==> times[i] < cutoff)
    && (forall i :: k <= i < |times| ==> times[i] >= cutoff)
  }

  lemma {:induction false} SinceOfSplit(times: seq<Instant>, cutoff: Instant, k: nat)
    requires SplitsAt(times, cutoff, k)
    ensures Since(times, cutoff) == times[k..]
    ensures CountSince(times, cutoff) == |times| - k
  {
    if times != [] {
      var front, last := times[..|times| - 1], times[|times| - 1];
      if k == |times| {
        SinceOfSplit(front, cutoff, k - 1);
      } else {
        SinceOfSplit(front, cutoff, k);
        assert times[k..] == front[k..] + [last];
      }
    }
  }

  lemma SplitAt(times: seq<Instant>, cutoff: Instant) returns (k: nat)
    requires Sorted(times)
    ensures SplitsAt(times, cutoff, k)
  {
    k := PruneSplits(times, cutoff);
  }

  /** The latest time any call of the run was made at. */
  function Latest(calls: seq<Call>): Instant {
    if calls == [] then 0
    else
      var before := Latest(calls[..|calls| - 1]);
      if before < calls[|calls| - 1].now then calls[|calls| - 1].now else before
  }

  lemma {:induction false} LatestInOrder(calls: seq<Call>)
    requires calls != [] && InOrder(calls)
    ensures Latest(calls) == calls[|calls| - 1].now
  {
    if |calls| > 1 {
      LatestInOrder(calls[..|calls| - 1]);
    }
  }

  /** The queue is the tail of all admissions, and everything that was dropped was more than a
      minute older than some call already made. */
  lemma {:induction false} QueueIsTail(calls: seq<Call>) returns (k: nat)
    requires WarmClock(calls)
    ensures k <= |Admissions(calls)| && Queue(calls) == Admissions(calls)[k..]
    ensures forall i :: 0 <= i < k ==> Admissions(calls)[i] + MINUTE < Latest(calls)
  {
    if calls == [] {
      return 0;
    }
    var c, h := calls[|calls| - 1], Admissions(calls[..|calls| - 1]);
    var m := QueueIsTail(calls[..|calls| - 1]);
    var p := PruneSplits(h[m..], Cutoff(c.now, MINUTE));
    k := m + p;
    assert h[m..][p..] == h[k..];
    assert h[k..] + [c.now] == (h + [c.now])[k..];
    assert forall i :: m <= i < k ==> h[i] == h[m..][i - m];
  }

  lemma {:induction false} AdmissionsAreSorted(calls: seq<Call>)
    requires InOrder(calls)
    ensures Sorted(Admissions(calls))
    ensures forall i :: 0 <= i < |Admissions(calls)| ==> Admissions(calls)[i] <= Latest(calls)
  {
    if calls != [] {
      AdmissionsAreSorted(calls[..|calls| - 1]);
      LatestInOrder(calls);
    }
  }

  lemma TrailingRunOfTail(h: seq<Instant>, k: nat, old1: Instant)
    requires Sorted(h) && k <= |h|
    requires forall i :: 0 <= i < k ==> h[i] < old1
    ensures TrailingRun(h[k..], old1) == CountSince(h, old1)
  {
    var m := SplitAt(h, old1);
    SinceOfSplit(h, old1, m);
    assert k <= m;
    assert forall i :: 0 <= i < |h| - k ==> h[k..][i] == h[k + i];
    TrailingRunIs(h[k..], old1, |h| - m);
  }

  // ------------------------------------------------------------------ refinement

  lemma PruneTail(h: seq<Instant>, m: nat, cutoff: Instant) returns (k: nat)
    requires Sorted(h) && m <= |h|
    requires forall i :: 0 <= i < m ==> h[i] < cutoff
    ensures SplitsAt(h, cutoff, k) && Prune(h[m..], cutoff) == h[k..]
  {
    var p := PruneSplits(h[m..], cutoff);
    k := m + p;
    assert forall i :: m <= i < |h| ==> h[i] == h[m..][i - m];
    assert h[m..][p..] == h[k..];
  }

  /** When times are in order, what a call keeps of the queue is exactly the admissions it has
      not outlived. */
  lemma OrderedPrune(calls: seq<Call>) returns (k: nat)
    requires calls != [] && InOrder(calls) && WarmClock(calls)
    ensures var h, now := Admissions(calls[..|calls| - 1]), calls[|calls| - 1].now;
            SplitsAt(h, Cutoff(now, MINUTE), k) && Pruned(calls) == h[k..]
  {
    var before, now := calls[..|calls| - 1], calls[|calls| - 1].now;
    AdmissionsAreSorted(before);
    var m := QueueIsTail(before);
    if before != [] {
      LatestInOrder(before);
      assert calls[|calls| - 2].now <= now;
    }
    k := PruneTail(Admissions(before), m, Cutoff(now, MINUTE));
  }

  /** What the pruned queue counts is what the full history counts. */
  predicate CountsAgree(calls: seq<Call>)
    requires calls != []
  {
    var h, now := Admissions(calls[..|calls| - 1]), calls[|calls| - 1].now;
    var q := Pruned(calls);
    && q == Since(h, Cutoff(now, MINUTE))
    && |q| == CountSince(h, Cutoff(now, MINUTE))
    && TrailingRun(q, Cutoff(now, SECOND)) == CountSince(h, Cutoff(now, SECOND))
  }

  lemma OrderedCounts(calls: seq<Call>)
    requires calls != [] && InOrder(calls) && WarmClock(calls)
    ensures CountsAgree(calls)
  {
    var h, now := Admissions(calls[..|calls| - 1]), calls[|calls| - 1].now;
    AdmissionsAreSorted(calls[..|calls| - 1]);
    var k := OrderedPrune(calls);
    SinceOfSplit(h, Cutoff(now, MINUTE), k);
    TrailingRunOfTail(h, k, Cutoff(now, SECOND));
  }

  lemma CountsDecide(calls: seq<Call>)
    requires calls != [] && CountsAgree(calls)
    ensures Last(calls).verdict == JudgeByHistory(Admissions(calls[..|calls| - 1]), calls[|calls| - 1])
    ensures Queue(calls) == Since(Admissions(calls), Cutoff(calls[|calls| - 1].now, MINUTE))
  {
  }

  /** With times in order, the pruned queue decides every call exactly as the limiter that
      keeps the full history, and holds exactly the admissions of the last minute. */
  lemma DecidesLikeFullHistory(calls: seq<Call>)
    requires calls != [] && InOrder(calls) && WarmClock(calls)
    ensures Last(calls).verdict == JudgeByHistory(Admissions(calls[..|calls| - 1]), calls[|calls| - 1])
    ensures Queue(calls) == Since(Admissions(calls), Cutoff(calls[|calls| - 1].now, MINUTE))
  {
    OrderedCounts(calls);
    CountsDecide(calls);
  }

  // ------------------------------------------------------------------ bounds under clock skew

  /** Times may be read before the lock is taken, so a recorded time may lie behind an earlier
      one, but by no more than `skew`. */
  predicate SkewedBy(calls: seq<Call>, skew: nat) {
    forall i, j :: 0 <= i < j < |calls| ==> calls[i].now <= calls[j].now + skew
  }

  lemma {:induction false} LatestBound(calls: seq<Call>, bound: nat)
    requires forall i :: 0 <= i < |calls| ==> calls[i].now <= bound
    ensures Latest(calls) <= bound
  {
    if calls != [] {
      LatestBound(calls[..|calls| - 1], bound);
    }
  }

  lemma {:induction false} AdmissionsSkewedBy(calls: seq<Call>, skew: nat)
    requires SkewedBy(calls, skew)
    ensures |Admissions(calls)| <= |calls|
    ensures forall i :: 0 <= i < |Admissions(calls)| ==> Admissions(calls)[i] <= Latest(calls)
    ensures forall i, j :: 0 <= i < j < |Admissions(calls)| ==> Admissions(calls)[i] <= Admissions(calls)[j] + skew
  {
    if calls != [] {
      AdmissionsSkewedBy(calls[..|calls| - 1], skew);
      LatestBound(calls[..|calls| - 1], calls[|calls| - 1].now + skew);
    }
  }

  /** What a call prunes, now or before, is older than a minute up to the skew. */
  lemma SkewedPrune(calls: seq<Call>, skew: nat) returns (k: nat)
    requires calls != [] && SkewedBy(calls, skew) && WarmClock(calls)
    ensures var h, now := Admissions(calls[..|calls| - 1]), calls[|calls| - 1].now;
            && k <= |h| && Pruned(calls) == h[k..]
            && |h| - k <= |Queue(calls[..|calls| - 1])|
            && forall i :: 0 <= i < k ==> h[i] + MINUTE < now + skew
  {
    var before := calls[..|calls| - 1];
    var h, now := Admissions(before), calls[|calls| - 1].now;
    LatestBound(before, now + skew);
    var m := QueueIsTail(before);
    var p := PruneSplits(h[m..], Cutoff(now, MINUTE));
    k := m + p;
    assert h[m..][p..] == h[k..];
    forall i | 0 <= i < k
      ensures h[i] + MINUTE < now + skew
    {
      assert i >= m ==> h[i] == h[m..][i - m];
    }
  }

  lemma {:induction false} CountWithinTail(h: seq<Instant>, k: nat, lo: Instant, hi: Instant)
    requires k <= |h|
    requires forall i :: 0 <= i < k ==> !(lo <= h[i] <= hi)
    ensures CountWithin(h, lo, hi) <= |h| - k
  {
    if k < |h| {
      CountWithinTail(h[..|h| - 1], k, lo, hi);
    } else if h != [] {
      CountWithinTail(h[..|h| - 1], k - 1, lo, hi);
    }
  }

  /** Minute limit under skew: every closed interval of a minute less the skew holds at most
      `rpm` admissions, and the queue never outgrows the limit. */
  lemma {:induction false} MinuteBound(calls: seq<Call>, rpm: u32, rps: Option<u32>, skew: nat, lo: Instant,
                                       hi: Instant)
    requires FixedLimits(calls, Some(rpm), rps) && WarmClock(calls) && SkewedBy(calls, skew)
    requires hi + skew <= lo + MINUTE
    ensures CountWithin(Admissions(calls), lo, hi) <= rpm
    ensures |Queue(calls)| <= rpm
  {
    if calls == [] {
      return;
    }
    var before, now := calls[..|calls| - 1], calls[|calls| - 1].now;
    var h := Admissions(before);
    MinuteBound(before, rpm, rps, skew, lo, hi);
    var k := SkewedPrune(calls, skew);
    if Last(calls).verdict.Accept? {
      assert |h[k..]| < rpm;
      assert (h + [now])[..|h|] == h;
      if lo <= now <= hi {
        CountWithinTail(h, k, lo, hi);
      }
    }
  }

  lemma {:induction false} TrailingRunAtLeast(q: seq<Instant>, cutoff: Instant, n: nat)
    requires n <= |q|
    requires forall i :: |q| - n <= i < |q| ==> q[i] >= cutoff
    ensures TrailingRun(q, cutoff) >= n
  {
    if n > 0 {
      TrailingRunAtLeast(q[..|q| - 1], cutoff, n - 1);
    }
  }

  /** Admissions of one short interval are still at the back of the queue, and all counted. */
  lemma CountedInRun(h: seq<Instant>, k: nat, skew: nat, now: Instant, lo: Instant, hi: Instant)
    requires k <= |h| && lo <= now <= hi && now >= SECOND && hi + skew <= lo + SECOND
    requires forall i :: 0 <= i < k ==> !(lo <= h[i] <= hi)
    requires forall i, j :: 0 <= i < j < |h| ==> h[i] <= h[j] + skew
    ensures CountWithin(h, lo, hi) <= TrailingRun(h[k..], Cutoff(now, SECOND))
  {
    var f := k;
    while f < |h| && !(lo <= h[f] <= hi)
      invariant k <= f <= |h|
      invariant forall i :: 0 <= i < f ==> !(lo <= h[i] <= hi)
    {
      f := f + 1;
    }
    CountWithinTail(h, f, lo, hi);
    var q := h[k..];
    forall i | |q| - (|h| - f) <= i < |q|
      ensures q[i] >= Cutoff(now, SECOND)
    {
      assert q[i] == h[k + i];
      assert h[f] <= h[k + i] + skew;
    }
    TrailingRunAtLeast(q, Cutoff(now, SECOND), |h| - f);
  }

  /** No call of the run counts so many entries that the cast to 32 bits wraps. */
  ghost predicate NeverWraps(calls: seq<Call>) {
    forall k :: 0 < k <= |calls| ==> RunLength(calls[..k]) < 0x1_0000_0000
  }

  /** How many entries the last call counts against the burst limit. */
  function RunLength(calls: seq<Call>): nat
    requires calls != []
  {
    TrailingRun(Pruned(calls), Cutoff(calls[|calls| - 1].now, SECOND))
  }

  /** A minute limit, or fewer calls than the count has room for, keeps it from wrapping. */
  lemma NeverWrapsWhen(calls: seq<Call>, rpm: Option<u32>, rps: Option<u32>)
    requires FixedLimits(calls, rpm, rps)
    requires rpm.Some? || |calls| <= 0x1_0000_0000
    ensures NeverWraps(calls)
  {
    forall k | 0 < k <= |calls|
      ensures RunLength(calls[..k]) < 0x1_0000_0000
    {
      var c, before := calls[..k], calls[..k - 1];
      assert c[..k - 1] == before;
      if rpm.Some? {
        QueueStaysWithin(before, rpm.value, rps);
      }
      QueueIsCounted(before);
      var _ := PruneSplits(Queue(before), Cutoff(c[k - 1].now, MINUTE));
    }
  }

  /** Burst limit under skew: every closed interval of a second less the skew holds at most
      `rps` admissions, as long as the 32-bit count does not wrap. */
  lemma {:induction false} BurstBound(calls: seq<Call>, rpm: Option<u32>, rps: u32, skew: nat, lo: Instant,
                                      hi: Instant)
    requires FixedLimits(calls, rpm, Some(rps)) && WarmClock(calls) && SkewedBy(calls, skew)
    requires NeverWraps(calls) && hi + skew <= lo + SECOND
    ensures CountWithin(Admissions(calls), lo, hi) <= rps
  {
    if calls == [] {
      return;
    }
    var before, now := calls[..|calls| - 1], calls[|calls| - 1].now;
    var h := Admissions(before);
    WrapsNoEarlier(calls);
    BurstBound(before, rpm, rps, skew, lo, hi);
    AdmissionsSkewedBy(before, skew);
    var k := SkewedPrune(calls, skew);
    BurstStep(calls, h, k, rps, skew, now, lo, hi);
  }

  lemma WrapsNoEarlier(calls: seq<Call>)
    requires NeverWraps(calls) && calls != []
    ensures NeverWraps(calls[..|calls| - 1]) && RunLength(calls) < 0x1_0000_0000
  {
    var before := calls[..|calls| - 1];
    assert calls[..|calls|] == calls;
    forall k | 0 < k <= |before|
      ensures RunLength(before[..k]) < 0x1_0000_0000
    {
      assert before[..k] == calls[..k];
    }
  }

  /** The queue holds no more entries than there were calls. */
  lemma {:induction false} QueueIsCounted(calls: seq<Call>)
    ensures |Queue(calls)| <= |calls|
  {
    if calls != [] {
      QueueIsCounted(calls[..|calls| - 1]);
      var _ := PruneSplits(Queue(calls[..|calls| - 1]), Cutoff(calls[|calls| - 1].now, MINUTE));
    }
  }

  /** An accepted call found room for itself in its last second. */
  lemma AcceptedHasRoom(calls: seq<Call>, rps: u32)
    requires calls != [] && Last(calls).verdict.Accept? && calls[|calls| - 1].rps == Some(rps)
    requires RunLength(calls) < 0x1_0000_0000
    ensures RunLength(calls) < rps
  {
    assert AsU32(RunLength(calls)) == RunLength(calls);
  }

  lemma BurstStep(calls: seq<Call>, h: seq<Instant>, k: nat, rps: u32, skew: nat, now: Instant, lo: Instant, hi: Instant)
    requires calls != [] && now == calls[|calls| - 1].now && calls[|calls| - 1].rps == Some(rps)
    requires h == Admissions(calls[..|calls| - 1]) && CountWithin(h, lo, hi) <= rps
    requires k <= |h| && Pruned(calls) == h[k..] && RunLength(calls) < 0x1_0000_0000
    requires now >= SECOND && hi + skew <= lo + SECOND
    requires forall i :: 0 <= i < k ==> h[i] + MINUTE < now + skew
    requires forall i, j :: 0 <= i < j < |h| ==> h[i] <= h[j] + skew
    ensures CountWithin(Admissions(calls), lo, hi) <= rps
  {
    if Last(calls).verdict.Accept? {
      CountOneMore(h, now, lo, hi);
      if lo <= now <= hi {
        AcceptedHasRoom(calls, rps);
        CountedInRun(h, k, skew, now, lo, hi);
      }
    }
  }

  lemma CountOneMore(times: seq<Instant>, t: Instant, lo: Instant, hi: Instant)
    ensures CountWithin(times + [t], lo, hi) == CountWithin(times, lo, hi) + if lo <= t <= hi then 1 else 0
  {
  }

  // ------------------------------------------------------------------ the announced wait

  /** Every wait and reset time is between one second and a minute; after a burst it is one second. */
  lemma WaitsAreBounded(q: seq<Instant>, now: Instant, rpm: Option<u32>, rps: Option<u32>)
    ensures var d := Decide(q, now, rpm, rps);
            1 <= d.secs <= 60 && (d.verdict == BurstReject ==> d.secs == 1)
  {
  }

  lemma WaitCovers(now: Instant, oldest: Instant, later: Instant)
    requires oldest <= now && later > now + WaitSecs(60, ElapsedSecs(now, oldest)) * SECOND
    ensures later > oldest + MINUTE && later > now + SECOND
  {
    WholeSecsRoundsDown(now - oldest);
  }

  lemma RejectedIsFull(calls: seq<Call>, rpm: u32)
    requires calls != [] && Last(calls).verdict == MinuteReject && calls[|calls| - 1].rpm == Some(rpm)
    requires |Pruned(calls)| <= rpm
    ensures |Pruned(calls)| == rpm && Queue(calls) == Pruned(calls)
    ensures calls[|calls| - 1].rps.Some? ==> calls[|calls| - 1].rps.value >= 1
  {
  }

  lemma RejectionWait(calls: seq<Call>)
    requires calls != [] && Last(calls).verdict == MinuteReject
    ensures var now := calls[|calls| - 1].now;
            Last(calls).secs == WaitSecs(60, ElapsedSecs(now, Oldest(Pruned(calls), now)))
  {
  }

  /** Calls that admit nothing only shorten the queue. */
  lemma {:induction false} QueueOnlyShrinks(calls: seq<Call>, between: seq<Call>) returns (j: nat)
    requires |Admissions(calls + between)| == |Admissions(calls)|
    ensures j <= |Queue(calls)| && Queue(calls + between) == Queue(calls)[j..]
  {
    if between == [] {
      assert calls + between == calls;
      j := 0;
    } else {
      var all, fewer := calls + between, between[..|between| - 1];
      assert all[..|all| - 1] == calls + fewer;
      AdmissionsOnlyGrow(calls, fewer);
      j := QueueOnlyShrinks(calls, fewer);
      var p := NotAdmittedMeansPruned(all, calls + fewer);
      TailOfTail(Queue(calls), j, p);
      j := j + p;
    }
  }

  lemma NotAdmittedMeansPruned(calls: seq<Call>, before: seq<Call>) returns (p: nat)
    requires calls != [] && before == calls[..|calls| - 1] && |Admissions(calls)| <= |Admissions(before)|
    ensures p <= |Queue(before)| && Queue(calls) == Queue(before)[p..]
  {
    AdmittingGrows(calls, before);
    NotAcceptedIsPruned(calls, before);
    p := PruneSplits(Queue(before), Cutoff(calls[|calls| - 1].now, MINUTE));
  }

  lemma AdmittingGrows(calls: seq<Call>, before: seq<Call>)
    requires calls != [] && before == calls[..|calls| - 1]
    ensures Last(calls).verdict.Accept? ==> |Admissions(calls)| == |Admissions(before)| + 1
  {
  }

  lemma NotAcceptedIsPruned(calls: seq<Call>, before: seq<Call>)
    requires calls != [] && before == calls[..|calls| - 1] && !Last(calls).verdict.Accept?
    ensures Queue(calls) == Prune(Queue(before), Cutoff(calls[|calls| - 1].now, MINUTE))
  {
  }

  lemma {:induction false} AdmissionsOnlyGrow(calls: seq<Call>, between: seq<Call>)
    ensures |Admissions(calls)| <= |Admissions(calls + between)|
  {
    if between == [] {
      assert calls + between == calls;
    } else {
      assert (calls + between)[..|calls + between| - 1] == calls + between[..|between| - 1];
      AdmissionsOnlyGrow(calls, between[..|between| - 1]);
    }
  }

  /** After the wait the oldest entry is pruned and none is left to count against the second. */
  lemma WaitMakesRoom(q: seq<Instant>, j: nat, rpm: u32, rps: Option<u32>, later: Instant)
    requires j <= |q| == rpm && rpm >= 1 && later >= MINUTE && (rps.Some? ==> rps.value >= 1)
    requires q[0] + MINUTE < later && forall i :: 0 <= i < |q| ==> q[i] + SECOND < later
    ensures Judge(Prune(q[j..], Cutoff(later, MINUTE)), later, Some(rpm), rps) == Accept
  {
    var p := PruneSplits(q[j..], Cutoff(later, MINUTE));
    TailOfTail(q, j, p);
    var left := q[j + p..];
    assert j == 0 ==> p > 0;
    assert left != [] ==> left[|left| - 1] == q[|q| - 1];
  }

  lemma WaitCoversUnderSkew(now: Instant, oldest: Instant, later: Instant, skew: nat)
    requires oldest <= now + skew && later > now + WaitSecs(60, ElapsedSecs(now, oldest)) * SECOND + skew
    ensures later > oldest + MINUTE && later > now + SECOND + skew
  {
    if oldest <= now {
      WaitCovers(now, oldest, later);
      WholeSecsRoundsDown(now - oldest);
    }
  }

  lemma QueueEntriesAreCalls(calls: seq<Call>, skew: nat)
    requires calls != [] && SkewedBy(calls, skew) && WarmClock(calls)
    ensures forall i :: 0 <= i < |Pruned(calls)| ==> Pruned(calls)[i] <= calls[|calls| - 1].now + skew
  {
    AdmissionsSkewedBy(calls[..|calls| - 1], skew);
    LatestBound(calls[..|calls| - 1], calls[|calls| - 1].now + skew);
    var k := SkewedPrune(calls, skew);
  }

  /** After a minute rejection under fixed limits, with times that step back by at most `skew`,
      a call later than the announced wait and the skew, with nothing admitted in between, is
      admitted exactly when the limit is not zero. */
  lemma WaitingIsEnough(calls: seq<Call>, between: seq<Call>, later: Call, rpm: u32, rps: Option<u32>, skew: nat)
    requires calls != [] && Last(calls).verdict == MinuteReject
    requires SkewedBy(calls + between + [later], skew) && WarmClock(calls + between + [later])
    requires FixedLimits(calls + between + [later], Some(rpm), rps)
    requires Admissions(calls + between) == Admissions(calls)
    requires later.now > calls[|calls| - 1].now + Last(calls).secs * SECOND + skew
    ensures Last(calls + between + [later]).verdict.Accept? <==> rpm >= 1
  {
    var all := calls + between + [later];
    assert all[..|all| - 1] == calls + between && all[|all| - 1] == later;
    StartsTheSame(calls, all, rpm, rps, skew);
    if rpm >= 1 {
      WaitedIsAdmitted(calls, between, later, rpm, rps, skew);
    }
  }

  lemma WaitedIsAdmitted(calls: seq<Call>, between: seq<Call>, later: Call, rpm: u32, rps: Option<u32>, skew: nat)
    requires calls != [] && Last(calls).verdict == MinuteReject && rpm >= 1
    requires SkewedBy(calls, skew) && WarmClock(calls) && FixedLimits(calls, Some(rpm), rps)
    requires Admissions(calls + between) == Admissions(calls) && later.now >= MINUTE
    requires later.now > calls[|calls| - 1].now + Last(calls).secs * SECOND + skew
    ensures Judge(Prune(Queue(calls + between), Cutoff(later.now, MINUTE)), later.now, Some(rpm), rps) == Accept
  {
    var now := calls[|calls| - 1].now;
    var k := SkewedPrune(calls, skew);
    QueueStaysWithin(calls[..|calls| - 1], rpm, rps);
    RejectedIsFull(calls, rpm);
    RejectionWait(calls);
    QueueEntriesAreCalls(calls, skew);
    WaitCoversUnderSkew(now, Oldest(Pruned(calls), now), later.now, skew);
    var j := QueueOnlyShrinks(calls, between);
    WaitMakesRoom(Queue(calls), j, rpm, rps, later.now);
  }

  /** The queue never outgrows the minute limit. */
  lemma {:induction false} QueueStaysWithin(calls: seq<Call>, rpm: u32, rps: Option<u32>)
    requires FixedLimits(calls, Some(rpm), rps)
    ensures |Queue(calls)| <= rpm
  {
    if calls != [] {
      QueueStaysWithin(calls[..|calls| - 1], rpm, rps);
      var _ := PruneSplits(Queue(calls[..|calls| - 1]), Cutoff(calls[|calls| - 1].now, MINUTE));
    }
  }

  lemma StartsTheSame(calls: seq<Call>, all: seq<Call>, rpm: u32, rps: Option<u32>, skew: nat)
    requires calls <= all && calls != [] && |calls| < |all|
    requires SkewedBy(all, skew) && WarmClock(all) && FixedLimits(all, Some(rpm), rps)
    ensures SkewedBy(calls, skew) && WarmClock(calls) && FixedLimits(calls, Some(rpm), rps)
    ensures all[|all| - 1].rpm == Some(rpm) && all[|all| - 1].rps == rps && all[|all| - 1].now >= MINUTE
  {
    assert forall i :: 0 <= i < |calls| ==> calls[i] == all[i];
  }
}
