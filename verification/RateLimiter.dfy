/**
 The in-memory sliding-window rate limiter (src/rate_limiter.rs). Instants are counted in
 nanoseconds from the clock's origin; counts are taken modulo 2^32 as the casts to u32 do.
 */
module RateLimiter {
  import opened Wrappers

  type Instant = nat
  type u32 = x: nat | x < 0x1_0000_0000

  const SECOND: nat := 1_000_000_000
  const MINUTE: nat := 60 * SECOND

  datatype Verdict = Accept | BurstReject | MinuteReject

  /** The outcome of a call: for an accepted one the requests left and the seconds to the
      reset, for a rejected one the seconds to wait before retrying. */
  datatype Decision = Decision(
    verdict: Verdict,
    limitRpm: Option<u32>,
    limitRps: Option<u32>,
    remaining: Option<nat>,
    secs: nat)

  // ------------------------------------------------------------------ specification

  /** A count cast to 32 bits, wrapping around. */
  function AsU32(n: nat): u32 {
    if n < 0x1_0000_0000 then n else AsU32(n - 0x1_0000_0000)
  }

  lemma AsU32IsModulo(n: nat)
    ensures AsU32(n) == n % 0x1_0000_0000
  {
  }

  /** The start of a window of length `d` that ends now; a clock too close to its origin
      yields an empty window. */
  function Cutoff(now: Instant, d: nat): Instant {
    if now >= d then now - d else now
  }

  function Prune(q: seq<Instant>, cutoff: Instant): seq<Instant> {
    if q != [] && q[0] < cutoff then Prune(q[1..], cutoff) else q
  }

  /** How many entries at the back of the queue lie at or after the cutoff, up to the first
      that does not. */
  function TrailingRun(q: seq<Instant>, cutoff: Instant): (n: nat)
    ensures n <= |q|
  {
    if q != [] && q[|q| - 1] >= cutoff then 1 + TrailingRun(q[..|q| - 1], cutoff) else 0
  }

  /** A span in whole seconds, rounded down. */
  function WholeSecs(d: nat): nat {
    if d < SECOND then 0 else 1 + WholeSecs(d - SECOND)
  }

  lemma WholeSecsRoundsDown(d: nat)
    ensures WholeSecs(d) * SECOND <= d < (WholeSecs(d) + 1) * SECOND
  {
  }

  function ElapsedSecs(now: Instant, since: Instant): nat {
    if now >= since then WholeSecs(now - since) else 0
  }

  function WaitSecs(window: nat, elapsed: nat): nat {
    if elapsed + 1 <= window then window - elapsed else 1
  }

  /** The verdict on a pruned queue. */
  function Judge(q: seq<Instant>, now: Instant, rpm: Option<u32>, rps: Option<u32>): Verdict {
    if rps.Some? && AsU32(TrailingRun(q, Cutoff(now, SECOND))) >= rps.value then BurstReject
    else if rpm.Some? && AsU32(|q|) >= rpm.value then MinuteReject
    else Accept
  }

  function Oldest(q: seq<Instant>, now: Instant): Instant {
    if q != [] then q[0] else now
  }

  function OldestInRun(q: seq<Instant>, now: Instant): Instant {
    var n := TrailingRun(q, Cutoff(now, SECOND));
    if n > 0 then q[|q| - n] else now
  }

  function Left(rpm: Option<u32>, count: nat): Option<nat> {
    if rpm.None? then None else Some(if rpm.value >= count then rpm.value - count else 0)
  }

  function Report(v: Verdict, q: seq<Instant>, now: Instant, rpm: Option<u32>, rps: Option<u32>): Decision {
    match v
    case Accept =>
      Decision(v, rpm, None, Left(rpm, AsU32(|q| + 1)), WaitSecs(60, ElapsedSecs(now, Oldest(q, now))))
    case BurstReject => Decision(v, rpm, rps, None, WaitSecs(1, ElapsedSecs(now, OldestInRun(q, now))))
    case MinuteReject => Decision(v, rpm, rps, None, WaitSecs(60, ElapsedSecs(now, Oldest(q, now))))
  }

  /** The queue a call leaves. */
  function QueueAfter(queue: seq<Instant>, now: Instant, rpm: Option<u32>, rps: Option<u32>): seq<Instant> {
    var q := Prune(queue, Cutoff(now, MINUTE));
    if Judge(q, now, rpm, rps).Accept? then q + [now] else q
  }

  /** What a call decides. */
  function Decide(queue: seq<Instant>, now: Instant, rpm: Option<u32>, rps: Option<u32>): Decision {
    var q := Prune(queue, Cutoff(now, MINUTE));
    Report(Judge(q, now, rpm, rps), q, now, rpm, rps)
  }

  const UNLIMITED: Decision := Decision(Accept, None, None, None, 0)

  // ------------------------------------------------------------------ what the numbers say

  /** The least number of whole seconds, and at least one, until an entry has left its window. */
  predicate LeastWait(secs: nat, now: Instant, oldest: Instant, window: nat) {
    && secs >= 1 && now + secs * SECOND >= oldest + window
    && forall n: nat :: 1 <= n < secs ==> now + n * SECOND < oldest + window
  }

  lemma WaitIsLeast(now: Instant, oldest: Instant)
    requires oldest <= now
    ensures LeastWait(WaitSecs(60, ElapsedSecs(now, oldest)), now, oldest, MINUTE)
  {
    WholeSecsRoundsDown(now - oldest);
  }

  // ------------------------------------------------------------------ the window in place

  lemma {:induction false} TrailingRunIs(q: seq<Instant>, cutoff: Instant, n: nat)
    requires n <= |q|
    requires forall i :: |q| - n <= i < |q| ==> q[i] >= cutoff
    requires n < |q| ==> q[|q| - n - 1] < cutoff
    ensures n == TrailingRun(q, cutoff)
  {
    if n > 0 {
      TrailingRunIs(q[..|q| - 1], cutoff, n - 1);
    }
  }

  lemma {:induction false} PruneIs(q: seq<Instant>, cutoff: Instant, n: nat)
    requires n <= |q|
    requires forall i :: 0 <= i < n ==> q[i] < cutoff
    requires n < |q| ==> q[n] >= cutoff
    ensures q[n..] == Prune(q, cutoff)
  {
    if n > 0 {
      PruneIs(q[1..], cutoff, n - 1);
      assert q[1..][n - 1..] == q[n..];
    }
  }

  class SlidingWindow {
    var requests: seq<Instant>

    constructor (requests: seq<Instant>)
      ensures this.requests == requests
    {
      this.requests := requests;
    }

    /** Pop the entries at the front that are older than the cutoff. */
    method Discard(cutoff: Instant)
      modifies this
      ensures requests == Prune(old(requests), cutoff)
    {
      ghost var before, popped := requests, 0;
      while requests != [] && requests[0] < cutoff
        invariant popped <= |before| && requests == before[popped..]
        invariant forall i :: 0 <= i < popped ==> before[i] < cutoff
        decreases |requests|
      {
        requests := requests[1..];
        popped := popped + 1;
      }
      PruneIs(before, cutoff, popped);
    }

    /** Count the entries at the back from the cutoff on, and report the oldest of them. */
    method CountRecent(cutoff: Instant, now: Instant) returns (n: nat, oldest: Instant)
      ensures n == TrailingRun(requests, cutoff)
      ensures oldest == if n > 0 then requests[|requests| - n] else now
    {
      n, oldest := 0, now;
      while n < |requests| && requests[|requests| - n - 1] >= cutoff
        invariant n <= |requests|
        invariant forall i :: |requests| - n <= i < |requests| ==> requests[i] >= cutoff
        invariant oldest == if n > 0 then requests[|requests| - n] else now
      {
        oldest := requests[|requests| - n - 1];
        n := n + 1;
      }
      TrailingRunIs(requests, cutoff, n);
    }

    method CheckAndRecord(now: Instant, maxRpm: Option<u32>, maxRps: Option<u32>) returns (d: Decision)
      modifies this
      ensures requests == QueueAfter(old(requests), now, maxRpm, maxRps)
      ensures d == Decide(old(requests), now, maxRpm, maxRps)
      ensures d.limitRpm == maxRpm && d.limitRps == if d.verdict == Accept then None else maxRps
      ensures d.verdict == Accept <==> requests != [] && requests == Prune(old(requests), Cutoff(now, MINUTE)) + [now]
      ensures d.verdict != Accept ==> requests == Prune(old(requests), Cutoff(now, MINUTE)) && d.remaining.None?
      ensures d.verdict == BurstReject ==> d.secs == 1
      ensures d.verdict != BurstReject ==>
                && (requests != [] && requests[0] <= now ==> LeastWait(d.secs, now, requests[0], MINUTE))
                && (requests == [] || requests[0] >= now ==> d.secs == 60)
      ensures d.verdict == Accept && |requests| < 0x1_0000_0000 ==>
                d.remaining == if maxRpm.None? then None
                               else Some(if maxRpm.value < |requests| then 0 else maxRpm.value - |requests|)
    {
      Discard(Cutoff(now, MINUTE));
      if maxRps.Some? {
        var rpsCount, oldestInSec := CountRecent(Cutoff(now, SECOND), now);
        if AsU32(rpsCount) >= maxRps.value {
          return Decision(BurstReject, maxRpm, maxRps, None, WaitSecs(1, ElapsedSecs(now, oldestInSec)));
        }
      }
      var oldest := if requests != [] then requests[0] else now;
      if oldest <= now {
        WaitIsLeast(now, oldest);
      }
      if maxRpm.Some? && AsU32(|requests|) >= maxRpm.value {
        return Decision(MinuteReject, maxRpm, maxRps, None, WaitSecs(60, ElapsedSecs(now, oldest)));
      }
      requests := requests + [now];
      d := Decision(Accept, maxRpm, None, Left(maxRpm, AsU32(|requests|)), WaitSecs(60, ElapsedSecs(now, requests[0])));
    }
  }

  // ------------------------------------------------------------------ the limiter

  class Limiter {
    const global: SlidingWindow
    var scoped: map<string, seq<Instant>>

    constructor ()
      ensures fresh(global) && global.requests == [] && scoped == map[]
    {
      global := new SlidingWindow([]);
      scoped := map[];
    }

    /** Without any limit nothing is recorded. */
    method CheckGlobal(now: Instant, maxRpm: Option<u32>, maxRps: Option<u32>) returns (d: Decision)
      modifies global
      ensures maxRpm.None? && maxRps.None? ==> d == Decision(Accept, None, None, None, 0) && global.requests == old(global.requests)
      ensures maxRpm.Some? || maxRps.Some? ==>
                && global.requests == QueueAfter(old(global.requests), now, maxRpm, maxRps)
                && d == Decide(old(global.requests), now, maxRpm, maxRps)
    {
      if maxRpm.None? && maxRps.None? {
        return UNLIMITED;
      }
      d := global.CheckAndRecord(now, maxRpm, maxRps);
    }

    function Window(scope: string): seq<Instant>
      reads this
    {
      if scope in scoped then scoped[scope] else []
    }

    /** A scope has its own window; the others and the global one are untouched. */
    method CheckScoped(scope: string, now: Instant, maxRpm: Option<u32>) returns (d: Decision)
      modifies this`scoped
      ensures maxRpm.None? ==> d == Decision(Accept, None, None, None, 0) && scoped == old(scoped)
      ensures maxRpm.Some? ==>
                && Window(scope) == QueueAfter(old(Window(scope)), now, maxRpm, None)
                && d == Decide(old(Window(scope)), now, maxRpm, None)
      ensures forall s :: s != scope ==> Window(s) == old(Window(s))
    {
      if maxRpm.None? {
        return UNLIMITED;
      }
      var window := new SlidingWindow(Window(scope));
      d := window.CheckAndRecord(now, maxRpm, None);
      scoped := scoped[scope := window.requests];
    }
  }
}
