// The attempt throttle: the escalating lockout curve, the in-memory book of
// failures, and what they bound over time.
module Throttle {
  import opened Prelude
  import opened Text
  import opened Links

  const ATTEMPT_MAX_FAILURES: int := 5
  const ATTEMPT_LOCK_BASE_SECONDS: int := 30
  const ATTEMPT_LOCK_CAP_SECONDS: int := 900
  const ATTEMPT_SPACING: int := SECOND

  // ----- machine integers -------------------------------------------------

  const I32_MAX: int := 0x7FFF_FFFF

  type I32 = n: int | -0x8000_0000 <= n <= 0x7FFF_FFFF

  // The counter is a 32-bit integer: a release build wraps.
  function Increment(n: I32): I32 {
    if n == I32_MAX then -0x8000_0000 else n + 1
  }

  // A count of events as the 32-bit counter holds it.
  function Wrap32(n: nat): I32 {
    (n + 0x8000_0000) % 0x1_0000_0000 - 0x8000_0000
  }

  lemma WrapIncrement(n: nat)
    ensures Increment(Wrap32(n)) == Wrap32(n + 1)
    ensures n <= I32_MAX ==> Wrap32(n) == n
  {
  }

  function SaturatingMul(a: int, b: int): int {
    if a * b > I64_MAX then I64_MAX else if a * b < I64_MIN then I64_MIN else a * b
  }

  function Pow2(k: nat): (p: nat)
    ensures p >= 1
  {
    if k == 0 then 1 else 2 * Pow2(k - 1)
  }

  function Min(a: int, b: int): int { if a < b then a else b }

  function Max(a: int, b: int): int { if a < b then b else a }

  // ----- the curve --------------------------------------------------------

  // `lockout_until`
  function LockoutUntil(failures: I32, now: Time): Option<Time> {
    if failures < ATTEMPT_MAX_FAILURES then None
    else
      var doubles := failures - ATTEMPT_MAX_FAILURES;
      var seconds := SaturatingMul(ATTEMPT_LOCK_BASE_SECONDS, Pow2(Min(doubles, 16)));
      Some(now + Min(seconds, ATTEMPT_LOCK_CAP_SECONDS) * SECOND)
  }

  // The curve without machine limits: 30 seconds at the fifth failure,
  // doubling for ever, capped at 900.
  function LockSeconds(failures: int): int {
    if failures < 5 then 0 else Min(30 * Pow2(failures - 5), 900)
  }

  lemma {:induction false} Pow2Monotone(a: nat, b: nat)
    requires a <= b
    ensures Pow2(a) <= Pow2(b)
  {
    if a < b {
      Pow2Monotone(a, b - 1);
    }
  }

  // Clamping the shift at 16 and saturating the product change nothing.
  lemma CurveIsCappedDoubling(failures: I32, now: Time)
    ensures failures < 5 ==> LockoutUntil(failures, now) == None
    ensures failures >= 5 ==> LockoutUntil(failures, now) == Some(now + LockSeconds(failures) * SECOND)
  {
    assert Pow2(5) == 32 && Pow2(16) == 65536;
    if failures >= 5 {
      var d := failures - 5;
      Pow2Monotone(Min(d, 16), 16);
      if d > 5 {
        Pow2Monotone(5, Min(d, 16));
        Pow2Monotone(5, d);
      }
    }
  }

  // The curve is monotone and, from the fifth failure, between 30 and 900.
  lemma CurveMonotone(m: int, n: int)
    requires m <= n
    ensures LockSeconds(m) <= LockSeconds(n)
    ensures n >= 5 ==> 30 <= LockSeconds(n) <= 900
    ensures n >= 10 ==> LockSeconds(n) == 900
  {
    assert Pow2(5) == 32;
    if n >= 5 {
      Pow2Monotone(0, n - 5);
      if m >= 5 {
        Pow2Monotone(m - 5, n - 5);
      }
      if n >= 10 {
        Pow2Monotone(5, n - 5);
      }
    }
  }

  // ----- the book ---------------------------------------------------------

  datatype FailureEntry = FailureEntry(failures: I32, lockedUntil: Option<Time>, lastAttempt: Option<Time>)

  datatype Admission = Admitted | RateLimited(retryAfterSeconds: int)

  // What has happened to the book.
  datatype Event = Failed(key: string, at: Time) | WasReset(key: string)

  // The failures of one key since its last reset, oldest first.
  function Since(log: seq<Event>, key: string): seq<Time> {
    if log == [] then []
    else
      var past := Since(log[..|log| - 1], key);
      match log[|log| - 1]
      case Failed(k, at) => if k == key then past + [at] else past
      case WasReset(k) => if k == key then [] else past
  }

  // The entry a list of failures amounts to.
  function EntryOf(times: seq<Time>): Option<FailureEntry> {
    if times == [] then None
    else
      var last := times[|times| - 1];
      Some(FailureEntry(Wrap32(|times|), LockoutUntil(Wrap32(|times|), last), Some(last)))
  }

  function Lookup(entries: map<string, FailureEntry>, key: string): Option<FailureEntry> {
    if key in entries then Some(entries[key]) else None
  }

  // Whether an attempt at `now` is let through, given the key's failures:
  // the lock has lapsed and a second has passed since the last one.
  function Verdict(times: seq<Time>, now: Time): Admission {
    if times == [] then Admitted
    else
      var last := times[|times| - 1];
      var lock := LockoutUntil(Wrap32(|times|), last);
      if lock.Some? && now < lock.value then RateLimited(Max((lock.value - now) / SECOND, 1))
      else if now - last < ATTEMPT_SPACING then RateLimited(1)
      else Admitted
  }

  lemma SinceAppend(log: seq<Event>, e: Event, key: string)
    ensures Since(log + [e], key) ==
            if e.key != key then Since(log, key)
            else if e.Failed? then Since(log, key) + [e.at]
            else []
  {
    assert (log + [e])[..|log|] == log;
  }

  lemma EntryAppend(times: seq<Time>, now: Time)
    ensures var n := Increment(Wrap32(|times|));
            EntryOf(times + [now]) == Some(FailureEntry(n, LockoutUntil(n, now), Some(now)))
  {
    WrapIncrement(|times|);
  }

  // The verdict by the curve and the literal spacing of one second.
  lemma VerdictBySeconds(times: seq<Time>, now: Time)
    requires times != []
    ensures var lock := LockSeconds(Wrap32(|times|));
            var last := times[|times| - 1];
            Verdict(times, now) ==
              if Wrap32(|times|) >= 5 && now < last + lock * 1_000_000 then
                RateLimited(Max((last + lock * 1_000_000 - now) / 1_000_000, 1))
              else if now < last + 1_000_000 then RateLimited(1)
              else Admitted
  {
    CurveIsCappedDoubling(Wrap32(|times|), times[|times| - 1]);
  }

  class AttemptBook {
    var entries: map<string, FailureEntry>
    ghost var log: seq<Event>

    // Every entry is the fold of its key's failures since the last reset.
    ghost predicate Valid()
      reads this
    {
      forall key :: Lookup(entries, key) == EntryOf(Since(log, key))
    }

    constructor ()
      ensures Valid() && log == []
    {
      entries, log := map[], [];
    }

    method Check(key: string, now: Time) returns (r: Admission)
      requires Valid()
      ensures r == Verdict(Since(log, key), now)
      ensures Since(log, key) == [] ==> r == Admitted
      ensures Since(log, key) != [] ==>
                var n := |Since(log, key)|;
                var last := Since(log, key)[n - 1];
                r == if Wrap32(n) >= 5 && now < last + LockSeconds(Wrap32(n)) * 1_000_000 then
                       RateLimited(Max((last + LockSeconds(Wrap32(n)) * 1_000_000 - now) / 1_000_000, 1))
                     else if now < last + 1_000_000 then RateLimited(1)
                     else Admitted
    {
      if Since(log, key) != [] {
        VerdictBySeconds(Since(log, key), now);
      }
      hide LockSeconds, LockoutUntil;
      assert Lookup(entries, key) == EntryOf(Since(log, key));
      if key in entries {
        var entry := entries[key];
        if entry.lockedUntil.Some? && now < entry.lockedUntil.value {
          return RateLimited(Max((entry.lockedUntil.value - now) / SECOND, 1));
        }
        if entry.lastAttempt.Some? && now - entry.lastAttempt.value < ATTEMPT_SPACING {
          return RateLimited(1);
        }
      }
      return Admitted;
    }

    method RegisterFailure(key: string, now: Time)
      requires Valid()
      modifies this
      ensures Valid() && log == old(log) + [Failed(key, now)]
    {
      ghost var times := Since(log, key);
      assert Lookup(entries, key) == EntryOf(times);
      var entry := if key in entries then entries[key] else FailureEntry(0, None, None);
      assert entry.failures == Wrap32(|times|);
      entry := entry.(failures := Increment(entry.failures));
      entry := entry.(lockedUntil := LockoutUntil(entry.failures, now));
      entry := entry.(lastAttempt := Some(now));
      EntryAppend(times, now);
      entries := entries[key := entry];
      log := log + [Failed(key, now)];
      forall k ensures Lookup(entries, k) == EntryOf(Since(log, k)) {
        SinceAppend(old(log), Failed(key, now), k);
        assert Lookup(old(entries), k) == EntryOf(Since(old(log), k));
      }
    }

    method Reset(key: string)
      requires Valid()
      modifies this
      ensures Valid() && log == old(log) + [WasReset(key)]
    {
      entries := entries - {key};
      log := log + [WasReset(key)];
      forall k ensures Lookup(entries, k) == EntryOf(Since(log, k)) {
        SinceAppend(old(log), WasReset(key), k);
        assert Lookup(old(entries), k) == EntryOf(Since(old(log), k));
      }
    }

    method Failures(key: string) returns (n: I32)
      requires Valid()
      ensures n == Wrap32(|Since(log, key)|)
    {
      assert Lookup(entries, key) == EntryOf(Since(log, key));
      n := if key in entries then entries[key].failures else 0;
    }
  }

  // ----- single-key facts -------------------------------------------------

  // The wait after the n-th failure: its lock, and never less than a second.
  function Gap(n: int): int { Max(1, LockSeconds(n)) }

  // An attempt is admitted exactly when the wait of the last failure is over.
  lemma AdmittedIffWaitOver(times: seq<Time>, now: Time)
    requires times != []
    ensures Verdict(times, now) == Admitted <==> now >= times[|times| - 1] + Gap(Wrap32(|times|)) * SECOND
  {
    CurveIsCappedDoubling(Wrap32(|times|), times[|times| - 1]);
    CurveMonotone(Wrap32(|times|), Wrap32(|times|));
  }

  // The wait follows the true count of failures until the 32-bit counter
  // wraps; after that only where both have reached the cap.
  lemma WrappedWait(n: nat)
    ensures Gap(Wrap32(n)) == Gap(n) <==> n <= I32_MAX || Wrap32(n) >= 10
  {
    WrapIncrement(n);
    assert Pow2(0) == 1 && Pow2(1) == 2 && Pow2(2) == 4 && Pow2(3) == 8 && Pow2(4) == 16;
    CurveMonotone(Wrap32(n), n);
    if Wrap32(n) < 10 {
      CurveMonotone(Wrap32(n), 9);
      assert LockSeconds(9) == 480;
    } else {
      CurveMonotone(Wrap32(n), Wrap32(n));
    }
  }

  // A refused key is admitted again 900 seconds later at the latest.
  lemma RefusalLapses(times: seq<Time>, now: Time, later: Time)
    requires times != [] ==> times[|times| - 1] <= now
    requires later >= now + 900 * SECOND
    ensures Verdict(times, later) == Admitted
  {
    if times != [] {
      CurveIsCappedDoubling(Wrap32(|times|), times[|times| - 1]);
      CurveMonotone(Wrap32(|times|), Wrap32(|times|));
    }
  }

  // The advertised wait is rounded down: waiting it out and one second more
  // is always enough, waiting exactly that long is enough unless a fraction
  // of a second was cut off.
  lemma RetryAfterRoundsDown(times: seq<Time>, now: Time)
    requires times != [] && times[|times| - 1] <= now && Verdict(times, now).RateLimited?
    ensures var wait := Verdict(times, now).retryAfterSeconds;
            && wait >= 1
            && Verdict(times, now + (wait + 1) * SECOND) == Admitted
    ensures var wait := Verdict(times, now).retryAfterSeconds;
            var lock := LockoutUntil(Wrap32(|times|), times[|times| - 1]);
            Verdict(times, now + wait * SECOND) == Admitted <==>
            (lock.Some? ==> lock.value <= now + SECOND || (lock.value - now) % SECOND == 0)
  {
    CurveIsCappedDoubling(Wrap32(|times|), times[|times| - 1]);
    CurveMonotone(Wrap32(|times|), Wrap32(|times|));
  }

  // With a clock that does not go back another failure never lifts or
  // shortens a lock, except at the one count where the counter wraps.
  lemma LockNeverEarlier(times: seq<Time>, now: Time)
    requires |times| >= 5 && times[|times| - 1] <= now
    requires Wrap32(|times|) >= 5
    ensures var before := EntryOf(times).value.lockedUntil;
            var after := EntryOf(times + [now]).value.lockedUntil;
            before.Some? && ((after.Some? && before.value <= after.value) <==> Wrap32(|times|) != I32_MAX)
  {
    var n := Wrap32(|times|);
    EntryAppend(times, now);
    CurveIsCappedDoubling(n, times[|times| - 1]);
    if n != I32_MAX {
      CurveIsCappedDoubling(n + 1, now);
      CurveMonotone(n, n + 1);
    }
  }

  // ----- the bound over time ----------------------------------------------

  // One failed attempt on a key: gated ones passed a check first, ungated
  // ones (a refused invitation redemption) only register.
  datatype Attempt = Gated(check: Time, at: Time) | Ungated(at: Time)

  function Times(trace: seq<Attempt>): (times: seq<Time>)
    ensures |times| == |trace|
  {
    seq(|trace|, i requires 0 <= i < |trace| => trace[i].at)
  }

  // Failures on one key that do not overlap, under a clock that never goes
  // back, each gated one admitted by the book as it then stood.
  predicate Sequential(trace: seq<Attempt>) {
    trace == []
    || (var init, e := trace[..|trace| - 1], trace[|trace| - 1];
        var since := if init == [] then [] else [init[|init| - 1].at];
        && Sequential(init)
        && (e.Gated? ==> e.check <= e.at && Verdict(Times(init), e.check) == Admitted)
        && (init != [] ==> init[|init| - 1].at <= if e.Gated? then e.check else e.at))
  }

  function GatedCount(trace: seq<Attempt>): nat {
    if trace == [] then 0
    else GatedCount(trace[..|trace| - 1]) + (if trace[|trace| - 1].Gated? then 1 else 0)
  }

  // When the first gated failure was registered.
  function FirstGated(trace: seq<Attempt>): Time
    requires GatedCount(trace) > 0
  {
    var init := trace[..|trace| - 1];
    if GatedCount(init) > 0 then FirstGated(init) else trace[|trace| - 1].at
  }

  // The least time n gated failures take: the waits between them.
  function LeastSpan(n: nat): int {
    if n <= 1 then 0 else LeastSpan(n - 1) + Gap(n - 1)
  }

  lemma {:induction false} LeastSpanClosedForm(n: nat)
    requires n >= 10
    ensures LeastSpan(n) == 934 + 900 * (n - 10)
  {
    if n == 10 {
      assert Pow2(0) == 1 && Pow2(1) == 2 && Pow2(2) == 4 && Pow2(3) == 8 && Pow2(4) == 16;
      assert LeastSpan(5) == 4;
      assert LeastSpan(7) == 94;
      assert LeastSpan(9) == 454;
    } else {
      LeastSpanClosedForm(n - 1);
      CurveMonotone(n - 1, n - 1);
    }
  }

  lemma {:induction false} GatedAtMostAll(trace: seq<Attempt>)
    ensures GatedCount(trace) <= |trace|
  {
    if trace != [] {
      GatedAtMostAll(trace[..|trace| - 1]);
    }
  }

  // When the last failure was registered.
  function LastAt(trace: seq<Attempt>): Time
    requires trace != []
  {
    trace[|trace| - 1].at
  }

  lemma {:induction false} SpanBound(trace: seq<Attempt>)
    requires Sequential(trace) && GatedCount(trace) > 0 && |trace| <= I32_MAX + 1
    ensures LastAt(trace) >= FirstGated(trace) + LeastSpan(GatedCount(trace)) * SECOND
  {
    var init, e := trace[..|trace| - 1], trace[|trace| - 1];
    var n := GatedCount(init);
    if n > 0 {
      SpanBound(init);
      if e.Gated? {
        GatedAtMostAll(init);
        AdmittedIffWaitOver(Times(init), e.check);
        WrapIncrement(|init|);
        CurveMonotone(n, |init|);
        assert Gap(n) <= Gap(|init|);
      }
    }
  }

  // The n-th gated failure comes at least 934 + 900 (n - 10) seconds after
  // the first, for every n from ten on, however many ungated failures are
  // interleaved.
  predicate MeetsBound(trace: seq<Attempt>) {
    GatedCount(trace) >= 10 ==>
      trace != [] && LastAt(trace) - FirstGated(trace) >= (934 + 900 * (GatedCount(trace) - 10)) * SECOND
  }

  lemma ThrottleBound(trace: seq<Attempt>)
    requires Sequential(trace) && |trace| <= I32_MAX + 1
    ensures MeetsBound(trace)
  {
    GatedAtMostAll(trace);
    if GatedCount(trace) >= 10 {
      SpanBound(trace);
      LeastSpanClosedForm(GatedCount(trace));
    }
  }

  // ----- past the counter -------------------------------------------------

  // One more gated attempt, admitted as soon as the wait of the last failure
  // is over.
  lemma GatedInTime(init: seq<Attempt>, at: Time)
    requires init != [] && Sequential(init) && at == LastAt(init) + Gap(Wrap32(|init|)) * SECOND
    ensures var trace := init + [Gated(at, at)];
            && Sequential(trace) && GatedCount(trace) == GatedCount(init) + 1 && LastAt(trace) == at
            && FirstGated(trace) == if GatedCount(init) > 0 then FirstGated(init) else at
  {
    var trace := init + [Gated(at, at)];
    assert trace[..|trace| - 1] == init;
    AdmittedIffWaitOver(Times(init), at);
    hide Verdict, Times;
  }

  // Ungated failures at the instant of the last one.
  function Crowd(trace: seq<Attempt>, n: nat): (crowd: seq<Attempt>)
    requires trace != []
    ensures |crowd| == |trace| + n
  {
    if n == 0 then trace else Crowd(trace, n - 1) + [Ungated(LastAt(trace))]
  }

  lemma {:induction false} CrowdFacts(trace: seq<Attempt>, n: nat)
    requires trace != [] && Sequential(trace)
    ensures Sequential(Crowd(trace, n)) && GatedCount(Crowd(trace, n)) == GatedCount(trace)
    ensures LastAt(Crowd(trace, n)) == LastAt(trace)
    ensures GatedCount(trace) > 0 ==> FirstGated(Crowd(trace, n)) == FirstGated(trace)
  {
    hide Sequential, GatedCount, FirstGated, LastAt;
    if n > 0 {
      CrowdFacts(trace, n - 1);
      OneMoreUngated(Crowd(trace, n - 1), LastAt(trace));
    }
  }

  lemma OneMoreUngated(init: seq<Attempt>, at: Time)
    requires init != [] && Sequential(init) && at == LastAt(init)
    ensures var trace := init + [Ungated(at)];
            && Sequential(trace) && GatedCount(trace) == GatedCount(init) && LastAt(trace) == at
            && (GatedCount(init) > 0 ==> FirstGated(trace) == FirstGated(init))
  {
    var trace := init + [Ungated(at)];
    assert trace[..|trace| - 1] == init;
  }

  // Gated failures, each as early as the book lets it.
  function Eager(n: nat): (trace: seq<Attempt>)
    ensures |trace| == n
  {
    if n == 0 then [] else Eager(n - 1) + [Gated(LeastSpan(n) * SECOND, LeastSpan(n) * SECOND)]
  }

  lemma {:induction false} EagerFacts(n: nat)
    requires 0 < n <= I32_MAX
    ensures Sequential(Eager(n)) && GatedCount(Eager(n)) == n
    ensures LastAt(Eager(n)) == LeastSpan(n) * SECOND && FirstGated(Eager(n)) == 0
  {
    if n == 1 {
      assert Eager(1) == [Gated(0, 0)] && Eager(1)[..0] == [];
    } else {
      EagerFacts(n - 1);
      WrapIncrement(n - 1);
      hide Sequential, GatedCount, FirstGated, Gap, Wrap32, LastAt;
      GatedInTime(Eager(n - 1), LeastSpan(n) * SECOND);
    }
  }

  // Nine eager failures and a crowd up to the end of the counter.
  function Filled(): (trace: seq<Attempt>)
    ensures |trace| == I32_MAX + 1
  {
    Crowd(Eager(9), I32_MAX + 1 - 9)
  }

  // A tenth gated failure a second later, and a crowd after it.
  function Overrun(n: nat): (trace: seq<Attempt>)
    requires n > I32_MAX + 1
    ensures |trace| == n
  {
    Crowd(Filled() + [Gated(455 * SECOND, 455 * SECOND)], n - (I32_MAX + 2))
  }

  lemma FilledFacts()
    ensures Sequential(Filled()) && GatedCount(Filled()) == 9
    ensures LastAt(Filled()) == 454 * SECOND && FirstGated(Filled()) == 0
  {
    hide Sequential, GatedCount, FirstGated, LastAt, LeastSpan, Eager, Crowd;
    EagerFacts(9);
    EagerSpan();
    CrowdFacts(Eager(9), I32_MAX + 1 - 9);
  }

  lemma OverrunFacts(n: nat)
    requires n > I32_MAX + 1
    ensures Sequential(Overrun(n)) && GatedCount(Overrun(n)) == 10
    ensures LastAt(Overrun(n)) - FirstGated(Overrun(n)) == 455 * SECOND
  {
    hide Sequential, GatedCount, FirstGated, Gap, Wrap32, LastAt, Crowd, Filled;
    FilledFacts();
    FullCounter();
    GatedInTime(Filled(), 455 * SECOND);
    CrowdFacts(Filled() + [Gated(455 * SECOND, 455 * SECOND)], n - (I32_MAX + 2));
  }

  lemma EagerSpan()
    ensures LeastSpan(9) == 454
  {
    assert Pow2(0) == 1 && Pow2(1) == 2 && Pow2(2) == 4 && Pow2(3) == 8;
    assert LeastSpan(5) == 4;
    assert LeastSpan(7) == 94;
  }

  // A full counter reads as negative and locks nothing.
  lemma FullCounter()
    ensures Gap(Wrap32(I32_MAX + 1)) == 1
  {
    assert Wrap32(I32_MAX + 1) == -0x8000_0000;
  }

  // The bound holds for all traces of a length if and only if the 32-bit
  // counter holds every count but the last.
  lemma ThrottleBoundExactly(n: nat)
    ensures (forall trace :: |trace| == n && Sequential(trace) ==> MeetsBound(trace)) <==> n <= I32_MAX + 1
  {
    if n <= I32_MAX + 1 {
      forall trace | |trace| == n && Sequential(trace) ensures MeetsBound(trace) {
        ThrottleBound(trace);
      }
    } else {
      OverrunFacts(n);
      hide Overrun, Sequential;
      assert !MeetsBound(Overrun(n));
    }
  }
}
