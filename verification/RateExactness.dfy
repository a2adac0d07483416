/**
 Exactly how far the limits of the sliding window reach (src/rate_limiter.rs): how long an
 interval they bound when recorded times step back, and what they still count within a
 minute of the clock's origin.
 */
module RateExactness {
  import opened Wrappers
  import opened RateLimiter
  import opened RateBounds

  predicate BoundedIn(calls: seq<Call>, lo: Instant, len: nat, limit: nat) {
    CountWithin(Admissions(calls), lo, lo + len) <= limit
  }

  /** Under the minute limit alone, and times that step back by at most `skew`, every interval
      of a length holds no more admissions than the limit. */
  ghost predicate MinuteHolds(rpm: u32, skew: nat, len: nat) {
    forall calls: seq<Call>, lo: Instant ::
      FixedLimits(calls, Some(rpm), None) && WarmClock(calls) && SkewedBy(calls, skew) ==> BoundedIn(calls, lo, len, rpm)
  }

  /** The same of the burst limit, as long as its count does not wrap. */
  ghost predicate BurstHolds(rps: u32, skew: nat, len: nat) {
    forall calls: seq<Call>, lo: Instant ::
      FixedLimits(calls, None, Some(rps)) && WarmClock(calls) && SkewedBy(calls, skew) && NeverWraps(calls) ==>
        BoundedIn(calls, lo, len, rps)
  }

  // ------------------------------------------------------------------ repeated calls

  function Times<T>(x: T, k: nat): (r: seq<T>)
    ensures |r| == k && forall i :: 0 <= i < k ==> r[i] == x
  {
    if k == 0 then [] else Times(x, k - 1) + [x]
  }

  lemma {:induction false} CountOfTimes(a: Instant, k: nat, lo: Instant, hi: Instant)
    requires lo <= a <= hi
    ensures CountWithin(Times(a, k), lo, hi) == k
  {
    if k == 0 {
      assert Times(a, 0) == [];
    } else {
      var fewer := Times(a, k - 1);
      CountOfTimes(a, k - 1, lo, hi);
      CountOneMore(fewer, a, lo, hi);
      assert Times(a, k) == fewer + [a];
    }
  }

  /** One more call that is admitted over a queue. */
  lemma Admitted(calls: seq<Call>, c: Call, kept: seq<Instant>)
    requires Prune(Queue(calls), Cutoff(c.now, MINUTE)) == kept && Judge(kept, c.now, c.rpm, c.rps) == Accept
    ensures Queue(calls + [c]) == kept + [c.now] && Admissions(calls + [c]) == Admissions(calls) + [c.now]
  {
    assert (calls + [c])[..|calls|] == calls;
  }

  /** One more call that is not. */
  lemma Rejected(calls: seq<Call>, c: Call, kept: seq<Instant>)
    requires Prune(Queue(calls), Cutoff(c.now, MINUTE)) == kept && Judge(kept, c.now, c.rpm, c.rps) != Accept
    ensures Queue(calls + [c]) == kept && Admissions(calls + [c]) == Admissions(calls)
  {
    assert (calls + [c])[..|calls|] == calls;
  }

  lemma Kept(q: seq<Instant>, cutoff: Instant)
    requires q != [] ==> q[0] >= cutoff
    ensures Prune(q, cutoff) == q
  {
  }

  lemma {:induction false} AllPruned(q: seq<Instant>, cutoff: Instant)
    requires forall i :: 0 <= i < |q| ==> q[i] < cutoff
    ensures Prune(q, cutoff) == []
  {
    if q != [] {
      AllPruned(q[1..], cutoff);
    }
  }

  lemma {:induction false} AllRecent(q: seq<Instant>, cutoff: Instant)
    requires forall i :: 0 <= i < |q| ==> q[i] >= cutoff
    ensures TrailingRun(q, cutoff) == |q|
  {
    if q != [] {
      AllRecent(q[..|q| - 1], cutoff);
    }
  }

  lemma RunOfOneMore(q: seq<Instant>, t: Instant, cutoff: Instant)
    requires t >= cutoff
    ensures TrailingRun(q + [t], cutoff) == 1 + TrailingRun(q, cutoff)
  {
    assert (q + [t])[..|q|] == q;
  }

  lemma RunStopsAt(q: seq<Instant>, t: Instant, cutoff: Instant)
    requires t < cutoff
    ensures TrailingRun(q + [t], cutoff) == 0
  {
  }

  /** Up to its limit, calls at one instant are all admitted. */
  lemma {:induction false} SameInstant(c: Call, k: nat)
    requires (c.rpm.Some? ==> k <= c.rpm.value) && (c.rps.Some? ==> k <= c.rps.value) && k < 0x1_0000_0000
    ensures Queue(Times(c, k)) == Times(c.now, k) && Admissions(Times(c, k)) == Times(c.now, k)
  {
    if k > 0 {
      var q := Times(c.now, k - 1);
      SameInstant(c, k - 1);
      Kept(q, Cutoff(c.now, MINUTE));
      AllRecent(q, Cutoff(c.now, SECOND));
      Admitted(Times(c, k - 1), c, q);
    }
  }

  // ------------------------------------------------------------------ the minute limit

  /** A limit's worth of calls at `a`, one that ran ahead to `b` and prunes them, and a late one
      at `c` are all admitted. */
  lemma OverrunAdmits(rpm: u32, a: Instant, b: Instant, c: Instant)
    requires rpm >= 2 && MINUTE <= a && a + MINUTE < b && MINUTE <= c <= b + MINUTE
    ensures Admissions(OverrunCalls(rpm, a, b, c)) == Times(a, rpm) + [b] + [c]
  {
    var first, ahead, late := Call(a, Some(rpm), None), Call(b, Some(rpm), None), Call(c, Some(rpm), None);
    SameInstant(first, rpm);
    AllPruned(Times(a, rpm), Cutoff(b, MINUTE));
    Admitted(Times(first, rpm), ahead, []);
    Kept([b], Cutoff(c, MINUTE));
    assert Queue(Times(first, rpm) + [ahead]) == [b];
    Admitted(Times(first, rpm) + [ahead], late, [b]);
  }

  function OverrunCalls(rpm: u32, a: Instant, b: Instant, c: Instant): seq<Call> {
    Times(Call(a, Some(rpm), None), rpm) + [Call(b, Some(rpm), None)] + [Call(c, Some(rpm), None)]
  }

  lemma OverrunIsARun(rpm: u32, a: Instant, b: Instant, c: Instant, skew: nat)
    requires MINUTE <= a <= b && MINUTE <= c && a <= c + skew && b <= c + skew
    ensures var calls := OverrunCalls(rpm, a, b, c);
            FixedLimits(calls, Some(rpm), None) && WarmClock(calls) && SkewedBy(calls, skew)
  {
  }

  lemma OverrunCount(rpm: u32, a: Instant, b: Instant, c: Instant, hi: Instant)
    requires a <= c <= hi
    ensures CountWithin(Times(a, rpm) + [b] + [c], a, hi) > rpm
  {
    CountOfTimes(a, rpm, a, hi);
    CountOneMore(Times(a, rpm), b, a, hi);
    CountOneMore(Times(a, rpm) + [b], c, a, hi);
  }

  lemma MinuteOverrun(rpm: u32, skew: nat, len: nat)
    requires rpm >= 2 && len + skew > MINUTE
    ensures !MinuteHolds(rpm, skew, len)
  {
    var a, b := MINUTE, MINUTE + MINUTE + 1;
    var c := if skew <= MINUTE then b - skew else a;
    OverrunAdmits(rpm, a, b, c);
    OverrunCount(rpm, a, b, c, a + len);
    OverrunIsARun(rpm, a, b, c, skew);
    assert !BoundedIn(OverrunCalls(rpm, a, b, c), a, len, rpm);
  }

  /** At most one admission lies in an interval, and none after the last one lies before it. */
  predicate Alone(h: seq<Instant>, lo: Instant, hi: Instant) {
    CountWithin(h, lo, hi) <= 1 && (CountWithin(h, lo, hi) == 1 ==> h != [] && h[|h| - 1] >= lo)
  }

  lemma StaysAlone(h: seq<Instant>, now: Instant, lo: Instant, hi: Instant, gap: nat)
    requires Alone(h, lo, hi) && hi <= lo + gap && (h != [] ==> h[|h| - 1] + gap < now)
    ensures Alone(h + [now], lo, hi)
  {
    CountOneMore(h, now, lo, hi);
  }

  /** With a limit of one, the queue holds the last admission, and the next one comes more than
      a minute later, whatever the skew. */
  lemma {:induction false} OneAMinute(calls: seq<Call>, lo: Instant, hi: Instant)
    requires FixedLimits(calls, Some(1), None) && WarmClock(calls) && hi <= lo + MINUTE
    ensures Queue(calls) == LastOf(Admissions(calls)) && Alone(Admissions(calls), lo, hi)
  {
    if calls != [] {
      var before, c := calls[..|calls| - 1], calls[|calls| - 1];
      OneAMinute(before, lo, hi);
      NextAMinute(calls, before, c, lo, hi);
    }
  }

  function LastOf(h: seq<Instant>): seq<Instant> {
    if h == [] then [] else [h[|h| - 1]]
  }

  lemma NextAMinute(calls: seq<Call>, before: seq<Call>, c: Call, lo: Instant, hi: Instant)
    requires calls == before + [c] && c.rpm == Some(1) && c.rps.None? && c.now >= MINUTE && hi <= lo + MINUTE
    requires Queue(before) == LastOf(Admissions(before)) && Alone(Admissions(before), lo, hi)
    ensures Queue(calls) == LastOf(Admissions(calls)) && Alone(Admissions(calls), lo, hi)
  {
    var h := Admissions(before);
    if h != [] && h[|h| - 1] >= Cutoff(c.now, MINUTE) {
      Kept(Queue(before), Cutoff(c.now, MINUTE));
      Rejected(before, c, Queue(before));
    } else {
      AllPruned(Queue(before), Cutoff(c.now, MINUTE));
      Admitted(before, c, []);
      StaysAlone(h, c.now, lo, hi, MINUTE);
    }
  }

  lemma {:induction false} ZeroAdmitsNone(calls: seq<Call>, rps: Option<u32>)
    requires FixedLimits(calls, Some(0), rps) || FixedLimits(calls, None, Some(0))
    ensures Admissions(calls) == []
  {
    if calls != [] {
      ZeroAdmitsNone(calls[..|calls| - 1], rps);
    }
  }

  lemma TwoAMinuteApart(skew: nat, len: nat)
    requires len > MINUTE
    ensures !MinuteHolds(1, skew, len)
  {
    var a, b := MINUTE, MINUTE + MINUTE + 1;
    var first, second := Call(a, Some(1), None), Call(b, Some(1), None);
    var calls := Times(first, 1) + [second];
    SameInstant(first, 1);
    AllPruned(Times(a, 1), Cutoff(b, MINUTE));
    Admitted(Times(first, 1), second, []);
    CountOfTimes(a, 1, a, a + len);
    CountOneMore(Times(a, 1), b, a, a + len);
    assert FixedLimits(calls, Some(1), None) && WarmClock(calls) && SkewedBy(calls, skew);
    assert !BoundedIn(calls, a, len, 1);
  }

  lemma MinuteIsBounded(calls: seq<Call>, lo: Instant, len: nat, rpm: u32, skew: nat)
    requires FixedLimits(calls, Some(rpm), None) && WarmClock(calls) && SkewedBy(calls, skew)
    requires rpm == 0 || len + (if rpm == 1 then 0 else skew) <= MINUTE
    ensures BoundedIn(calls, lo, len, rpm)
  {
    if rpm == 0 {
      ZeroAdmitsNone(calls, None);
    } else if rpm == 1 {
      OneAMinute(calls, lo, lo + len);
    } else {
      MinuteBound(calls, rpm, None, skew, lo, lo + len);
    }
  }

  /** The minute limit bounds the admissions of every interval of a length exactly when the
      length is at most a minute less the skew; a limit of one is not affected by skew, and a
      limit of zero admits nothing at all. */
  lemma MinuteHoldsExactlyWhen(rpm: u32, skew: nat, len: nat)
    ensures MinuteHolds(rpm, skew, len) <==>
            rpm == 0 || len + (if rpm == 1 then 0 else skew) <= MINUTE
  {
    if rpm >= 2 && len + skew > MINUTE {
      MinuteOverrun(rpm, skew, len);
    } else if rpm == 1 && len > MINUTE {
      TwoAMinuteApart(skew, len);
    } else {
      forall calls: seq<Call>, lo: Instant |
        FixedLimits(calls, Some(rpm), None) && WarmClock(calls) && SkewedBy(calls, skew)
        ensures BoundedIn(calls, lo, len, rpm)
      {
        MinuteIsBounded(calls, lo, len, rpm, skew);
      }
    }
  }

  /** So a full minute is bounded exactly without skew, or with a limit of at most one. */
  lemma FullMinuteFailsUnderSkew(rpm: u32, skew: nat)
    ensures MinuteHolds(rpm, skew, MINUTE) <==> rpm <= 1 || skew == 0
  {
    MinuteHoldsExactlyWhen(rpm, skew, MINUTE);
  }

  // ------------------------------------------------------------------ the burst limit

  lemma WrapsNoLater(calls: seq<Call>, c: Call, kept: seq<Instant>)
    requires NeverWraps(calls) && Prune(Queue(calls), Cutoff(c.now, MINUTE)) == kept
    requires TrailingRun(kept, Cutoff(c.now, SECOND)) < 0x1_0000_0000
    ensures NeverWraps(calls + [c])
  {
    var all := calls + [c];
    assert all[..|calls|] == calls && all[..|all|] == all;
    forall k | 0 < k <= |all|
      ensures RunLength(all[..k]) < 0x1_0000_0000
    {
      assert k <= |calls| ==> all[..k] == calls[..k];
    }
  }

  /** One call short of the limit at `a`, a late one at `o` that hides them from the count, and
      two at `t`, more than a second after `o`, are all admitted. */
  lemma HiddenAdmits(rps: u32, a: Instant, o: Instant, t: Instant, calls: seq<Call>)
    requires rps >= 2 && MINUTE <= o <= a <= t <= a + MINUTE && o + SECOND < t
    requires calls == Times(Call(a, None, Some(rps)), rps - 1) + [Call(o, None, Some(rps))]
    ensures var last := Call(t, None, Some(rps));
            && Admissions(calls + [last] + [last]) == Times(a, rps - 1) + [o] + [t] + [t]
            && NeverWraps(calls + [last] + [last])
  {
    var late, last := Call(o, None, Some(rps)), Call(t, None, Some(rps));
    var q := Times(a, rps - 1);
    HiddenSoFar(rps, a, o, calls);
    NeverWrapsWhen(calls, None, Some(rps));
    Kept(q + [o], Cutoff(t, MINUTE));
    RunStopsAt(q, o, Cutoff(t, SECOND));
    Admitted(calls, last, q + [o]);
    WrapsNoLater(calls, last, q + [o]);
    Kept(q + [o] + [t], Cutoff(t, MINUTE));
    RunOfOneMore(q + [o], t, Cutoff(t, SECOND));
    Admitted(calls + [last], last, q + [o] + [t]);
    WrapsNoLater(calls + [last], last, q + [o] + [t]);
  }

  lemma HiddenSoFar(rps: u32, a: Instant, o: Instant, calls: seq<Call>)
    requires rps >= 2 && MINUTE <= o <= a
    requires calls == Times(Call(a, None, Some(rps)), rps - 1) + [Call(o, None, Some(rps))]
    ensures Queue(calls) == Times(a, rps - 1) + [o] == Admissions(calls)
  {
    var first, q := Call(a, None, Some(rps)), Times(a, rps - 1);
    SameInstant(first, rps - 1);
    Kept(q, Cutoff(o, MINUTE));
    RoomForOneMore(q, o, rps);
    Admitted(Times(first, rps - 1), Call(o, None, Some(rps)), q);
  }

  lemma RoomForOneMore(q: seq<Instant>, now: Instant, rps: u32)
    requires |q| < rps && forall i :: 0 <= i < |q| ==> q[i] >= Cutoff(now, SECOND)
    ensures Judge(q, now, None, Some(rps)) == Accept
  {
    AllRecent(q, Cutoff(now, SECOND));
    assert AsU32(|q|) == |q|;
  }

  function HiddenCalls(rps: u32, a: Instant, o: Instant, t: Instant): seq<Call>
    requires rps > 0
  {
    Times(Call(a, None, Some(rps)), rps - 1) + [Call(o, None, Some(rps))] + [Call(t, None, Some(rps))]
    + [Call(t, None, Some(rps))]
  }

  lemma HiddenIsARun(rps: u32, a: Instant, o: Instant, t: Instant, skew: nat)
    requires rps >= 2 && MINUTE <= o <= a <= t && a <= o + skew
    ensures var calls := HiddenCalls(rps, a, o, t);
            FixedLimits(calls, None, Some(rps)) && WarmClock(calls) && SkewedBy(calls, skew)
  {
  }

  lemma HiddenCount(rps: u32, a: Instant, o: Instant, t: Instant, hi: Instant)
    requires rps >= 2 && a <= t <= hi
    ensures CountWithin(Times(a, rps - 1) + [o] + [t] + [t], a, hi) > rps
  {
    CountOfTimes(a, rps - 1, a, hi);
    CountOneMore(Times(a, rps - 1), o, a, hi);
    CountOneMore(Times(a, rps - 1) + [o], t, a, hi);
    CountOneMore(Times(a, rps - 1) + [o] + [t], t, a, hi);
  }

  lemma HiddenIsAdmitted(rps: u32, a: Instant, o: Instant, t: Instant)
    requires rps >= 2 && MINUTE <= o <= a <= t <= a + MINUTE && o + SECOND < t
    ensures Admissions(HiddenCalls(rps, a, o, t)) == Times(a, rps - 1) + [o] + [t] + [t]
    ensures NeverWraps(HiddenCalls(rps, a, o, t))
  {
    HiddenAdmits(rps, a, o, t, Times(Call(a, None, Some(rps)), rps - 1) + [Call(o, None, Some(rps))]);
  }

  lemma HiddenExceeds(rps: u32, a: Instant, o: Instant, t: Instant, hi: Instant, calls: seq<Call>)
    requires rps >= 2 && MINUTE <= o <= a <= t <= a + MINUTE && o + SECOND < t <= hi
    requires calls == HiddenCalls(rps, a, o, t)
    ensures CountWithin(Admissions(calls), a, hi) > rps && NeverWraps(calls)
  {
    HiddenIsAdmitted(rps, a, o, t);
    HiddenCount(rps, a, o, t, hi);
  }

  lemma BurstOverrun(rps: u32, skew: nat, len: nat)
    requires rps >= 2 && len + skew > SECOND
    ensures !BurstHolds(rps, skew, len)
  {
    var a := MINUTE + skew;
    var o := a - skew;
    var t := if skew <= SECOND then o + SECOND + 1 else a;
    HiddenExceeds(rps, a, o, t, a + len, HiddenCalls(rps, a, o, t));
    HiddenIsARun(rps, a, o, t, skew);
    BurstRefuted(rps, skew, len, HiddenCalls(rps, a, o, t), a);
  }

  lemma BurstRefuted(rps: u32, skew: nat, len: nat, calls: seq<Call>, lo: Instant)
    requires FixedLimits(calls, None, Some(rps)) && WarmClock(calls) && SkewedBy(calls, skew) && NeverWraps(calls)
    requires CountWithin(Admissions(calls), lo, lo + len) > rps
    ensures !BurstHolds(rps, skew, len)
  {
    assert !BoundedIn(calls, lo, len, rps);
  }

  /** With a limit of one, the queue ends with the last admission, and the next one comes more
      than a second later, whatever the skew. */
  lemma {:induction false} OneASecond(calls: seq<Call>, lo: Instant, hi: Instant)
    requires FixedLimits(calls, None, Some(1)) && WarmClock(calls) && NeverWraps(calls) && hi <= lo + SECOND
    ensures EndsAlike(Queue(calls), Admissions(calls)) && Alone(Admissions(calls), lo, hi)
  {
    if calls != [] {
      var before, c := calls[..|calls| - 1], calls[|calls| - 1];
      WrapsNoEarlier(calls);
      OneASecond(before, lo, hi);
      NextASecond(calls, before, c, lo, hi);
    }
  }

  /** The queue and the admissions are both empty or end with the same entry. */
  predicate EndsAlike(q: seq<Instant>, h: seq<Instant>) {
    (q == [] <==> h == []) && (q != [] ==> h != [] && q[|q| - 1] == h[|h| - 1])
  }

  lemma NextASecond(calls: seq<Call>, before: seq<Call>, c: Call, lo: Instant, hi: Instant)
    requires calls == before + [c] && c.rpm.None? && c.rps == Some(1) && c.now >= MINUTE && hi <= lo + SECOND
    requires calls[..|calls| - 1] == before && RunLength(calls) < 0x1_0000_0000
    requires EndsAlike(Queue(before), Admissions(before)) && Alone(Admissions(before), lo, hi)
    ensures EndsAlike(Queue(calls), Admissions(calls)) && Alone(Admissions(calls), lo, hi)
  {
    var q, h := Queue(before), Admissions(before);
    var p := PruneSplits(q, Cutoff(c.now, MINUTE));
    var kept := q[p..];
    LastIsCounted(kept, c.now);
    KeptEndsAlike(q, h, p, c.now);
    if Recent(kept, c.now) {
      Rejected(before, c, kept);
    } else {
      Admitted(before, c, kept);
      StaysAlone(h, c.now, lo, hi, SECOND);
    }
  }

  predicate Recent(q: seq<Instant>, now: Instant) {
    q != [] && q[|q| - 1] >= Cutoff(now, SECOND)
  }

  lemma KeptEndsAlike(q: seq<Instant>, h: seq<Instant>, p: nat, now: Instant)
    requires EndsAlike(q, h) && now >= MINUTE && p <= |q|
    requires forall i :: 0 <= i < p ==> q[i] < Cutoff(now, MINUTE)
    ensures if Recent(q[p..], now) then EndsAlike(q[p..], h) else h != [] ==> h[|h| - 1] + SECOND < now
  {
    if p < |q| {
      assert q[p..][|q| - p - 1] == q[|q| - 1];
    } else if q != [] {
      assert q[|q| - 1] < Cutoff(now, MINUTE);
    }
  }

  lemma LastIsCounted(q: seq<Instant>, now: Instant)
    requires TrailingRun(q, Cutoff(now, SECOND)) < 0x1_0000_0000
    ensures Judge(q, now, None, Some(1)) == Accept <==> !Recent(q, now)
  {
    var n := TrailingRun(q, Cutoff(now, SECOND));
    assert AsU32(n) == n;
  }

  lemma TwoASecondApart(skew: nat, len: nat)
    requires len > SECOND
    ensures !BurstHolds(1, skew, len)
  {
    var a, b := MINUTE, MINUTE + SECOND + 1;
    var first, second := Call(a, None, Some(1)), Call(b, None, Some(1));
    var calls := Times(first, 1) + [second];
    SameInstant(first, 1);
    Kept(Times(a, 1), Cutoff(b, MINUTE));
    RunStopsAt([], a, Cutoff(b, SECOND));
    assert Times(a, 1) == [] + [a];
    Admitted(Times(first, 1), second, Times(a, 1));
    CountOfTimes(a, 1, a, a + len);
    CountOneMore(Times(a, 1), b, a, a + len);
    NeverWrapsWhen(calls, None, Some(1));
    assert FixedLimits(calls, None, Some(1)) && WarmClock(calls) && SkewedBy(calls, skew);
    assert !BoundedIn(calls, a, len, 1);
  }

  lemma NoBurstAtAll(calls: seq<Call>, lo: Instant, len: nat)
    requires FixedLimits(calls, None, Some(0))
    ensures BoundedIn(calls, lo, len, 0)
  {
    ZeroAdmitsNone(calls, None);
  }

  lemma OneIsBounded(calls: seq<Call>, lo: Instant, len: nat)
    requires FixedLimits(calls, None, Some(1)) && WarmClock(calls) && NeverWraps(calls) && len <= SECOND
    ensures BoundedIn(calls, lo, len, 1)
  {
    OneASecond(calls, lo, lo + len);
  }

  lemma SeveralAreBounded(calls: seq<Call>, lo: Instant, len: nat, rps: u32, skew: nat)
    requires rps >= 2 && FixedLimits(calls, None, Some(rps)) && WarmClock(calls) && SkewedBy(calls, skew)
    requires NeverWraps(calls) && len + skew <= SECOND
    ensures BoundedIn(calls, lo, len, rps)
  {
    BurstBound(calls, None, rps, skew, lo, lo + len);
  }

  lemma BurstIsBounded(calls: seq<Call>, lo: Instant, len: nat, rps: u32, skew: nat)
    requires FixedLimits(calls, None, Some(rps)) && WarmClock(calls) && SkewedBy(calls, skew) && NeverWraps(calls)
    requires rps == 0 || len + (if rps == 1 then 0 else skew) <= SECOND
    ensures BoundedIn(calls, lo, len, rps)
  {
    if rps == 0 {
      NoBurstAtAll(calls, lo, len);
    } else if rps == 1 {
      OneIsBounded(calls, lo, len);
    } else {
      SeveralAreBounded(calls, lo, len, rps, skew);
    }
  }

  /** The burst limit bounds the admissions of every interval of a length exactly when the
      length is at most a second less the skew; a limit of one is not affected by skew. */
  lemma BurstHoldsExactlyWhen(rps: u32, skew: nat, len: nat)
    ensures BurstHolds(rps, skew, len) <==>
            rps == 0 || len + (if rps == 1 then 0 else skew) <= SECOND
  {
    if rps >= 2 && len + skew > SECOND {
      BurstOverrun(rps, skew, len);
    } else if rps == 1 && len > SECOND {
      TwoASecondApart(skew, len);
    } else {
      forall calls: seq<Call>, lo: Instant |
        FixedLimits(calls, None, Some(rps)) && WarmClock(calls) && SkewedBy(calls, skew) && NeverWraps(calls)
        ensures BoundedIn(calls, lo, len, rps)
      {
        BurstIsBounded(calls, lo, len, rps, skew);
      }
    }
  }

  // ------------------------------------------------------------------ a cold clock

  /** How many admissions were recorded at one instant. */
  function AtInstant(h: seq<Instant>, now: Instant): nat {
    CountWithin(h, now, now)
  }

  /** The verdict of a limiter that counts the admissions of one instant only. */
  function JudgeInstant(count: nat, rpm: Option<u32>, rps: Option<u32>): Verdict {
    if rps.Some? && AsU32(count) >= rps.value then BurstReject
    else if rpm.Some? && AsU32(count) >= rpm.value then MinuteReject
    else Accept
  }

  /** Whatever the clock, the queue is the tail of all admissions, and what was dropped is older
      than some call already made. */
  lemma {:induction false} AnyQueueIsTail(calls: seq<Call>) returns (k: nat)
    ensures k <= |Admissions(calls)| && Queue(calls) == Admissions(calls)[k..]
    ensures forall i :: 0 <= i < k ==> Admissions(calls)[i] < Latest(calls)
  {
    if calls == [] {
      return 0;
    }
    var c, h := calls[|calls| - 1], Admissions(calls[..|calls| - 1]);
    var m := AnyQueueIsTail(calls[..|calls| - 1]);
    var p := PruneSplits(h[m..], Cutoff(c.now, MINUTE));
    k := m + p;
    assert h[m..][p..] == h[k..];
    assert h[k..] + [c.now] == (h + [c.now])[k..];
    assert forall i :: m <= i < k ==> h[i] == h[m..][i - m];
  }

  lemma {:induction false} CountOfLast(h: seq<Instant>, k: nat, now: Instant)
    requires k <= |h| && (forall i :: 0 <= i < k ==> h[i] < now) && (forall i :: k <= i < |h| ==> h[i] == now)
    ensures AtInstant(h, now) == |h| - k
  {
    if h != [] {
      CountOfLast(h[..|h| - 1], if k == |h| then k - 1 else k, now);
    }
  }

  lemma ColdPrune(calls: seq<Call>) returns (k: nat)
    requires calls != [] && InOrder(calls) && calls[|calls| - 1].now < MINUTE
    ensures var h, now := Admissions(calls[..|calls| - 1]), calls[|calls| - 1].now;
            && k <= |h| && Pruned(calls) == h[k..]
            && (forall i :: 0 <= i < k ==> h[i] < now) && (forall i :: k <= i < |h| ==> h[i] == now)
  {
    var before, now := calls[..|calls| - 1], calls[|calls| - 1].now;
    AdmissionsAreSorted(before);
    var m := AnyQueueIsTail(before);
    if before != [] {
      LatestInOrder(before);
      assert calls[|calls| - 2].now <= now;
    }
    k := PruneTail(Admissions(before), m, now);
  }

  lemma JudgeOfInstant(q: seq<Instant>, now: Instant, rpm: Option<u32>, rps: Option<u32>)
    requires forall i :: 0 <= i < |q| ==> q[i] == now
    ensures Judge(q, now, rpm, rps) == JudgeInstant(|q|, rpm, rps)
  {
    AllRecent(q, Cutoff(now, SECOND));
  }

  /** Within a minute of its origin, and with times in order, the clock is too young for a
      window: a call is judged by the admissions of its own instant alone. */
  lemma ColdClockCountsOneInstant(calls: seq<Call>)
    requires calls != [] && InOrder(calls) && calls[|calls| - 1].now < MINUTE
    ensures var c, h := calls[|calls| - 1], Admissions(calls[..|calls| - 1]);
            Last(calls).verdict == JudgeInstant(AtInstant(h, c.now), c.rpm, c.rps)
  {
    var c, h := calls[|calls| - 1], Admissions(calls[..|calls| - 1]);
    var k := ColdPrune(calls);
    CountOfLast(h, k, c.now);
    JudgeOfInstant(h[k..], c.now, c.rpm, c.rps);
  }

  /** So a minute limit rejects a call of a cold clock exactly when the admissions at the very
      same instant have reached it, however many came just before. */
  lemma ColdClockForgets(calls: seq<Call>, rpm: u32)
    requires calls != [] && InOrder(calls) && calls[|calls| - 1].now < MINUTE
    requires calls[|calls| - 1].rpm == Some(rpm) && calls[|calls| - 1].rps == None && |calls| <= 0x1_0000_0000
    ensures Last(calls).verdict == MinuteReject <==>
            AtInstant(Admissions(calls[..|calls| - 1]), calls[|calls| - 1].now) >= rpm
  {
    var before, now := calls[..|calls| - 1], calls[|calls| - 1].now;
    ColdClockCountsOneInstant(calls);
    FewerThanCalls(before, now);
  }

  lemma {:induction false} FewerThanCalls(calls: seq<Call>, now: Instant)
    ensures AtInstant(Admissions(calls), now) <= |Admissions(calls)| <= |calls|
  {
    if calls != [] {
      FewerThanCalls(calls[..|calls| - 1], now);
      CountOneMore(Admissions(calls[..|calls| - 1]), calls[|calls| - 1].now, now, now);
    }
  }
}
