/** The GCRA limiter in its virtual-scheduling form, over exact reals (seconds). */
module RateLimiter {
  import opened Bytes

  // ---- the scripts as functions of the stored TAT ------------------------------

  /** A key that holds a theoretical arrival time, or nothing. */
  type Stored = Option<real>

  function RealMax(a: real, b: real): real { if a >= b then a else b }

  function Tat(s: Stored, now: real): real { if s.Some? then RealMax(s.value, now) else now }

  /** math.ceil. */
  function Ceil(x: real): (n: int)
    ensures x <= n as real < x + 1.0
  {
    -((-x).Floor)
  }

  /** The emission interval and the burst offset both scripts derive from max and duration. */
  datatype Rate = Rate(interval: real, offset: real)

  function RateOf(max: int, duration: real): Rate
    requires max >= 1
  {
    var interval := duration / max as real;
    Rate(interval, interval * (max - 1) as real)
  }

  predicate Positive(r: Rate) { r.interval > 0.0 && r.offset >= 0.0 }

  lemma RateIsPositive(max: int, duration: real)
    requires max >= 1 && duration > 0.0
    ensures Positive(RateOf(max, duration))
  {
    var interval := duration / max as real;
    assert interval * max as real == duration;
    assert interval > 0.0;
    assert interval * (max - 1) as real >= 0.0;
  }

  predicate Allowed(s: Stored, now: real, r: Rate) { now >= Tat(s, now) - r.offset }

  /** What both scripts return: 0, or the wait in whole milliseconds. */
  function WaitMs(s: Stored, now: real, r: Rate): int {
    if Allowed(s, now, r) then 0 else Ceil((Tat(s, now) - r.offset - now) * 1000.0)
  }

  /** The TAT that gcraTryConsumeScript leaves behind. */
  function Consume(s: Stored, now: real, r: Rate): Stored {
    if Allowed(s, now, r) then Some(Tat(s, now) + r.interval) else s
  }

  // ---- traces -----------------------------------------------------------------

  /** The limiter's stored TAT before the i-th of a sequence of attempts. */
  function StoredAt(s: Stored, times: seq<real>, r: Rate, i: nat): Stored
    requires i <= |times|
  {
    if i == 0 then s else Consume(StoredAt(s, times, r, i - 1), times[i - 1], r)
  }

  predicate Accepted(s: Stored, times: seq<real>, r: Rate, i: nat)
    requires i < |times|
  {
    Allowed(StoredAt(s, times, r, i), times[i], r)
  }

  /** How many of the attempts lo..hi-1 are accepted. */
  function AcceptedCount(s: Stored, times: seq<real>, r: Rate, lo: nat, hi: nat): nat
    requires lo <= hi <= |times|
    decreases hi
  {
    if lo == hi then 0
    else AcceptedCount(s, times, r, lo, hi - 1) + if Accepted(s, times, r, hi - 1) then 1 else 0
  }

  predicate Nondecreasing(times: seq<real>) { forall i, j :: 0 <= i < j < |times| ==> times[i] <= times[j] }

  /** n intervals, by addition. */
  function Times(n: nat, interval: real): real { if n == 0 then 0.0 else Times(n - 1, interval) + interval }

  lemma {:induction false} TimesIsProduct(n: nat, interval: real)
    ensures Times(n, interval) == interval * n as real
  {
    if n > 0 {
      TimesIsProduct(n - 1, interval);
      assert interval * n as real == interval * (n - 1) as real + interval;
    }
  }

  /** After n acceptances since attempt lo, the TAT is at least n intervals past time lo. */
  lemma {:induction false} TatAdvances(s: Stored, times: seq<real>, r: Rate, lo: nat, hi: nat)
    requires lo < hi <= |times| && Nondecreasing(times) && Positive(r)
    ensures var n := AcceptedCount(s, times, r, lo, hi);
            n > 0 ==> var t := StoredAt(s, times, r, hi); t.Some? && t.value >= times[lo] + Times(n, r.interval)
    decreases hi
  {
    if lo < hi - 1 { TatAdvances(s, times, r, lo, hi - 1); }
  }

  /** n acceptances in a window take up at most the burst, one interval and the window itself. */
  lemma {:induction false} WindowInIntervals(s: Stored, times: seq<real>, r: Rate, lo: nat, hi: nat)
    requires lo < hi <= |times| && Nondecreasing(times) && Positive(r)
    ensures Times(AcceptedCount(s, times, r, lo, hi), r.interval) <= r.offset + r.interval + (times[hi - 1] - times[lo])
    decreases hi
  {
    if lo < hi - 1 {
      WindowInIntervals(s, times, r, lo, hi - 1);
      TatAdvances(s, times, r, lo, hi - 1);
    }
  }

  lemma DivideBound(n: int, max: int, interval: real, window: real)
    requires interval > 0.0 && interval * n as real <= interval * max as real + window
    ensures n <= max + (window / interval).Floor
  {
    var q := window / interval;
    assert q * interval == window;
    assert interval * (n - max) as real == interval * n as real - interval * max as real;
    assert interval * ((n - max) as real - q) <= 0.0;
    assert (n - max) as real <= q;
  }

  lemma WindowRatio(w: real, max: int, duration: real)
    requires max >= 1 && duration > 0.0
    ensures w / (duration / max as real) == w * max as real / duration
  {
    var m := max as real;
    var interval := duration / m;
    assert interval * m == duration;
    assert (w * m / duration) * interval * m == (w * m / duration) * duration == w * m;
    assert (w * m / duration) * interval == w;
  }

  /** The same bound with the burst written as max intervals. */
  lemma WindowBound(s: Stored, times: seq<real>, r: Rate, max: nat, lo: nat, hi: nat)
    requires lo < hi <= |times| && Nondecreasing(times) && Positive(r)
    requires r.offset + r.interval == Times(max, r.interval)
    ensures Times(AcceptedCount(s, times, r, lo, hi), r.interval)
         <= Times(max, r.interval) + (times[hi - 1] - times[lo])
  {
    WindowInIntervals(s, times, r, lo, hi);
  }

  lemma OffsetIsOneShort(max: int, duration: real)
    requires max >= 1 && duration > 0.0
    ensures var r := RateOf(max, duration);
            Positive(r) && r.offset + r.interval == Times(max, r.interval)
  {
    RateIsPositive(max, duration);
    TimesIsProduct(max - 1, RateOf(max, duration).interval);
  }

  lemma FromIntervals(n: nat, max: nat, interval: real, w: real)
    requires interval > 0.0 && Times(n, interval) <= Times(max, interval) + w
    ensures n <= max + (w / interval).Floor
  {
    TimesIsProduct(n, interval);
    TimesIsProduct(max, interval);
    DivideBound(n, max, interval, w);
  }

  /** What a rate of max per duration lets through in a window of length w. */
  function WindowLimit(w: real, max: int, duration: real): int
    requires duration > 0.0
  {
    max + (w * max as real / duration).Floor
  }

  /** The rate bound: over any trace with a nondecreasing clock and any initial TAT, the requests
      accepted inside a window of length W number at most max + floor(W * max / duration). */
  lemma RateBound(s: Stored, times: seq<real>, max: int, duration: real, lo: nat, hi: nat)
    requires lo < hi <= |times| && Nondecreasing(times) && max >= 1 && duration > 0.0
    ensures AcceptedCount(s, times, RateOf(max, duration), lo, hi)
         <= WindowLimit(times[hi - 1] - times[lo], max, duration)
  {
    var r, w := RateOf(max, duration), times[hi - 1] - times[lo];
    var n := AcceptedCount(s, times, r, lo, hi);
    assert Times(n, r.interval) <= Times(max, r.interval) + w && r.interval > 0.0 by {
      OffsetIsOneShort(max, duration);
      WindowBound(s, times, r, max, lo, hi);
    }
    IntervalsToRate(n, max, duration, r.interval, w);
  }

  lemma IntervalsToRate(n: nat, max: nat, duration: real, interval: real, w: real)
    requires max >= 1 && duration > 0.0 && interval == duration / max as real && interval > 0.0
    requires Times(n, interval) <= Times(max, interval) + w
    ensures n <= WindowLimit(w, max, duration)
  {
    FromIntervals(n, max, interval, w);
    WindowRatio(w, max, duration);
  }

  /** The bound is tight: from an idle limiter, max requests at once and then one per interval are
      all accepted. */
  function BurstThenSteady(start: real, max: nat, interval: real, k: nat): real {
    if k < max then start else start + Times(k - max + 1, interval)
  }

  lemma {:induction false} TimesSplit(a: nat, b: nat, interval: real)
    ensures Times(a + b, interval) == Times(a, interval) + Times(b, interval)
  {
    if b > 0 { TimesSplit(a, b - 1, interval); }
  }

  lemma {:induction false} TimesPositive(n: nat, interval: real)
    requires interval > 0.0
    ensures Times(n, interval) >= 0.0
  {
    if n > 0 { TimesPositive(n - 1, interval); }
  }

  lemma {:induction false} BurstThenSteadyAccepted(start: real, max: nat, duration: real, n: nat, i: nat)
    requires max >= 1 && duration > 0.0 && i < n
    ensures var r := RateOf(max, duration);
            var times := seq(n, (k: nat) => BurstThenSteady(start, max, r.interval, k));
            Accepted(None, times, r, i) && StoredAt(None, times, r, i + 1) == Some(start + Times(i + 1, r.interval))
    decreases i
  {
    var r := RateOf(max, duration);
    var times := seq(n, (k: nat) => BurstThenSteady(start, max, r.interval, k));
    RateIsPositive(max, duration);
    TimesIsProduct(max - 1, r.interval);
    if i > 0 { BurstThenSteadyAccepted(start, max, duration, n, i - 1); }
    if i < max {
      TimesSplit(i, max - 1 - i, r.interval);
      TimesPositive(max - 1 - i, r.interval);
      TimesPositive(i, r.interval);
    } else {
      TimesSplit(i - max + 1, max - 1, r.interval);
      TimesPositive(max - 1, r.interval);
    }
  }

  lemma {:induction false} AllAccepted(s: Stored, times: seq<real>, r: Rate, hi: nat)
    requires hi <= |times| && forall i :: 0 <= i < hi ==> Accepted(s, times, r, i)
    ensures AcceptedCount(s, times, r, 0, hi) == hi
  {
    if hi > 0 { AllAccepted(s, times, r, hi - 1); }
  }

  lemma Quotient(y: real, k: int, duration: real)
    requires duration > 0.0 && y == k as real * duration
    ensures y / duration == k as real
  {
  }

  lemma LimitIs(w: real, max: int, duration: real, y: real, k: int)
    requires duration > 0.0 && y == w * max as real && y / duration == k as real
    ensures WindowLimit(w, max, duration) == max + k
  {
  }

  lemma WholeIntervals(w: real, k: int, max: int, duration: real)
    requires max >= 1 && duration > 0.0 && w == duration / max as real * k as real
    ensures WindowLimit(w, max, duration) == max + k
  {
    var m, x := max as real, k as real;
    var interval := duration / m;
    assert interval * m == duration;
    assert w * m == (interval * m) * x == x * duration;
    Quotient(w * m, k, duration);
    LimitIs(w, max, duration, w * m, k);
  }

  /** n - max whole intervals are a window in which the rate allows exactly n. */
  lemma SteadyWindow(max: nat, duration: real, n: nat)
    requires max >= 1 && duration > 0.0 && n >= max
    ensures WindowLimit(Times(n - max, RateOf(max, duration).interval), max, duration) == n
  {
    TimesIsProduct(n - max, RateOf(max, duration).interval);
    WholeIntervals(Times(n - max, RateOf(max, duration).interval), n - max, max, duration);
  }

  /** So the bound is reached, for every length of trace from the burst on. */
  lemma RateBoundIsTight(start: real, max: nat, duration: real, n: nat)
    requires max >= 1 && duration > 0.0 && n >= max
    ensures var r := RateOf(max, duration);
            var times := seq(n, (k: nat) => BurstThenSteady(start, max, r.interval, k));
            AcceptedCount(None, times, r, 0, n) == n == WindowLimit(times[n - 1] - times[0], max, duration)
  {
    var r := RateOf(max, duration);
    var times := seq(n, (k: nat) => BurstThenSteady(start, max, r.interval, k));
    forall i | 0 <= i < n ensures Accepted(None, times, r, i) { BurstThenSteadyAccepted(start, max, duration, n, i); }
    AllAccepted(None, times, r, n);
    SteadyWindow(max, duration, n);
  }

  // ---- waits ------------------------------------------------------------------

  /** Waiting exactly the returned milliseconds makes the retry succeed when nothing else is accepted
      meanwhile, and no shorter whole number of milliseconds does. */
  lemma WaitIsLeast(s: Stored, now: real, r: Rate, ms: nat)
    requires Positive(r)
    ensures Allowed(s, now + ms as real / 1000.0, r) <==> ms >= WaitMs(s, now, r)
  {
    var gap := Tat(s, now) - r.offset - now;
    assert Ceil(gap * 1000.0) <= ms <==> gap * 1000.0 <= ms as real;
    assert now + ms as real / 1000.0 - now == ms as real / 1000.0;
  }

  // ---- the expiring key ---------------------------------------------------------

  /** The key as Redis keeps it: a TAT and the time at which EX removes it. */
  datatype Key = Absent | Held(tat: real, until: real)

  function Visible(k: Key, now: real): Stored { if k.Held? && now < k.until then Some(k.tat) else None }

  /** SET key new_tat EX ceil(new_tat - now). */
  function ConsumeExpiring(k: Key, now: real, r: Rate): Key {
    var s := Visible(k, now);
    if Allowed(s, now, r) then
      var newTat := Tat(s, now) + r.interval;
      Held(newTat, now + Ceil(newTat - now) as real)
    else k
  }

  function KeyAt(k: Key, times: seq<real>, r: Rate, i: nat): Key
    requires i <= |times|
  {
    if i == 0 then k else ConsumeExpiring(KeyAt(k, times, r, i - 1), times[i - 1], r)
  }

  /** The expiring key and the everlasting one agree from `now` on. */
  predicate Agree(k: Key, s: Stored, now: real) {
    match s
    case None => k.Absent? || k.until <= now
    case Some(tat) => if k.Held? then k.tat == tat && k.until >= tat else tat <= now
  }

  lemma AgreeDecides(k: Key, s: Stored, now: real, later: real, r: Rate)
    requires Agree(k, s, now) && now <= later && Positive(r)
    ensures Tat(Visible(k, later), later) == Tat(s, later)
    ensures Agree(ConsumeExpiring(k, later, r), Consume(s, later, r), later)
  {
  }

  /** Expiry is invisible: over any nondecreasing trace, attempt by attempt, the limiter whose key
      expires decides and waits exactly like one whose key never does. */
  lemma {:induction false} ExpiryIsInvisible(k: Key, s: Stored, start: real, times: seq<real>, r: Rate, i: nat)
    requires Agree(k, s, start) && Positive(r) && i < |times| && Nondecreasing([start] + times)
    ensures var e, t := Visible(KeyAt(k, times, r, i), times[i]), StoredAt(s, times, r, i);
            WaitMs(e, times[i], r) == WaitMs(t, times[i], r)
            && (Allowed(e, times[i], r) <==> Allowed(t, times[i], r))
  {
    AgreeAlong(k, s, start, times, r, i);
    assert ([start] + times)[i] <= ([start] + times)[i + 1];
    AgreeDecides(KeyAt(k, times, r, i), StoredAt(s, times, r, i), ([start] + times)[i], times[i], r);
  }

  lemma {:induction false} AgreeAlong(k: Key, s: Stored, start: real, times: seq<real>, r: Rate, i: nat)
    requires Agree(k, s, start) && Positive(r) && i <= |times| && Nondecreasing([start] + times)
    ensures Agree(KeyAt(k, times, r, i), StoredAt(s, times, r, i), ([start] + times)[i])
    decreases i
  {
    if i > 0 {
      AgreeAlong(k, s, start, times, r, i - 1);
      assert ([start] + times)[i - 1] <= ([start] + times)[i];
      AgreeDecides(KeyAt(k, times, r, i - 1), StoredAt(s, times, r, i - 1),
                   ([start] + times)[i - 1], times[i - 1], r);
    }
  }

  /** The key's lifetime is the least whole number of seconds that outlives its TAT. */
  lemma LifetimeIsLeast(k: Key, now: real, r: Rate, seconds: int)
    requires Positive(r) && Allowed(Visible(k, now), now, r)
    ensures var n := ConsumeExpiring(k, now, r);
            n.Held? && n.tat == Tat(Visible(k, now), now) + r.interval
            && (now + seconds as real >= n.tat <==> now + seconds as real >= n.until)
  {
    var gap := Tat(Visible(k, now), now) + r.interval - now;
    assert gap <= seconds as real <==> Ceil(gap) <= seconds;
  }

  // ---- the limiter ----------------------------------------------------------------

  class GCRALimiter {
    var key: Key

    constructor ()
      ensures key == Absent
    {
      key := Absent;
    }

    /** Check: the wait, without consuming. */
    method Check(now: real, max: int, duration: real) returns (wait: int)
      ensures wait == if max <= 0 || duration <= 0.0 then 0 else WaitMs(Visible(key, now), now, RateOf(max, duration))
    {
      if max <= 0 || duration <= 0.0 { return 0; }
      var interval := duration / max as real;
      var burst := max - 1;
      if burst < 0 { burst := 0; }
      var tat := if key.Held? && now < key.until then key.tat else now;
      tat := RealMax(tat, now);
      var allowAt := tat - interval * burst as real;
      if now < allowAt { return Ceil((allowAt - now) * 1000.0); }
      return 0;
    }

    /** TryConsume: same decision and wait as Check; on success the TAT moves on by one interval. */
    method TryConsume(now: real, max: int, duration: real) returns (wait: int)
      modifies this
      ensures wait == if max <= 0 || duration <= 0.0 then 0
          else WaitMs(Visible(old(key), now), now, RateOf(max, duration))
      ensures key == if max <= 0 || duration <= 0.0 then old(key)
          else ConsumeExpiring(old(key), now, RateOf(max, duration))
    {
      if max <= 0 || duration <= 0.0 { return 0; }
      var interval := duration / max as real;
      var burst := max - 1;
      if burst < 0 { burst := 0; }
      var tat := if key.Held? && now < key.until then key.tat else now;
      tat := RealMax(tat, now);
      var allowAt := tat - interval * burst as real;
      if now < allowAt { return Ceil((allowAt - now) * 1000.0); }
      var newTat := tat + interval;
      key := Held(newTat, now + Ceil(newTat - now) as real);
      return 0;
    }
  }
}
