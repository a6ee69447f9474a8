/** How often a handler can start for one task: under the exponential policy without crashes, and
    for one stream entry with crash reclaims; and what the backoff arithmetic does. */
module RetryBudget {
  import opened Bytes
  import opened ZSets
  import opened Codec
  import opened Broker
  import opened Protocol
  import opened Pipeline
  import Janitor

  // ---- the exponential policy ------------------------------------------------

  function ShouldRetry(t: Task, e: Failure): bool { !e.skip && t.retry < t.maxRetry }

  function Pow2(n: nat): nat { if n == 0 then 1 else 2 * Pow2(n - 1) }

  /** Go's int64 product, which wraps. */
  function Wrap64(x: int): int {
    var u := x % 0x1_0000_0000_0000_0000;
    if u < 0x8000_0000_0000_0000 then u else u - 0x1_0000_0000_0000_0000
  }

  /** NextBackoff without jitter, in nanoseconds. */
  function NextBackoff(base: int, max: int, retry: nat): int {
    var backoff := Wrap64(base * Pow2(retry));
    if backoff > max then max else backoff
  }

  /** The delay lies between zero and the cap if and only if the product's low 64 bits have a clear sign
      bit; it never exceeds the cap. A negative delay makes the retry due at once, unless it reaches
      back past the epoch. */
  lemma BackoffInRangeIff(base: int, max: int, retry: nat)
    requires max >= 0
    ensures 0 <= NextBackoff(base, max, retry) <==> base * Pow2(retry) % 0x1_0000_0000_0000_0000 < 0x8000_0000_0000_0000
    ensures NextBackoff(base, max, retry) <= max
  {
  }

  function Capped(base: int, max: int, retry: nat): int {
    if base * Pow2(retry) > max then max else base * Pow2(retry)
  }

  lemma WrapIsIdentityIff(x: int)
    ensures Wrap64(x) == x <==> IsInt64(x)
  {
  }

  /** The delay is base * 2^retry capped at max if and only if that product fits int64, or wraps to a
      value that the cap cuts off as well. */
  lemma BackoffIsCappedIff(base: int, max: int, retry: nat)
    requires base >= 0 && 0 <= max < 0x8000_0000_0000_0000
    ensures NextBackoff(base, max, retry) == Capped(base, max, retry)
       <==> IsInt64(base * Pow2(retry)) || Wrap64(base * Pow2(retry)) >= max
  {
    WrapIsIdentityIff(base * Pow2(retry));
    ProductIsNonNegative(base, Pow2(retry));
  }

  lemma ProductIsNonNegative(a: int, b: nat)
    requires a >= 0
    ensures a * b >= 0
  {
  }

  /** Past the first product that does not fit, delays can still happen to be right: with a base of
      100 ms and a cap of one hour the 38th is, and the 37th is not. */
  lemma FittingIsNotNecessary()
    ensures var base, hour := 100_000_000, 3_600_000_000_000;
            !IsInt64(base * Pow2(38)) && NextBackoff(base, hour, 38) == hour && NextBackoff(base, hour, 37) < 0
  {
    assert Pow2(10) == 1024 && Pow2(20) == 1048576 && Pow2(30) == 1073741824;
    assert Pow2(37) == 128 * Pow2(30);
  }

  /** While the next product fits, the delay does not shrink from one attempt to the next. */
  lemma BackoffIsMonotone(base: int, max: int, retry: nat)
    requires base >= 0 && max >= 0 && IsInt64(base * Pow2(retry + 1))
    ensures NextBackoff(base, max, retry) <= NextBackoff(base, max, retry + 1)
  {
    var p := base * Pow2(retry);
    ProductIsNonNegative(base, Pow2(retry));
    Doubled(base, Pow2(retry));
    WrapIsIdentityIff(p);
    WrapIsIdentityIff(2 * p);
  }

  lemma Doubled(a: int, b: int)
    ensures a * (2 * b) == 2 * (a * b)
  {
  }

  /** The run time of a retry, in milliseconds as the delayed set's score: time.Now().Add(backoff),
      then UnixMilli, which rounds down. */
  function RunAtMs(nowNs: int, backoff: int): int { (nowNs + backoff) / 1_000_000 }

  /** A retry's run time is before the epoch if and only if the product's low 64 bits, as a signed
      number, reach back past it. */
  lemma RunTimeBeforeEpochIff(base: int, max: int, retry: nat, nowNs: int)
    requires 0 <= nowNs < 0x8000_0000_0000_0000 && max >= 0
    ensures RunAtMs(nowNs, NextBackoff(base, max, retry)) < 0
       <==> 0x8000_0000_0000_0000 <= base * Pow2(retry) % 0x1_0000_0000_0000_0000 < 0x1_0000_0000_0000_0000 - nowNs
  {
  }

  lemma NeverDueIff(z: ZSet, x: Item)
    requires x in z
    ensures (forall now :: x !in ByScore(z, 0, now)) <==> x.score < 0
  {
    if x.score >= 0 { assert x in ByScore(z, 0, x.score); }
  }

  /** So exactly then the retried task is stranded: no clock ever makes it due, and no promote call moves
      it. */
  lemma RetryIsStrandedIff(s: State, x: Item, base: int, max: int, retry: nat, nowNs: int)
    requires Valid(s.delayed) && x in s.delayed && 0 <= nowNs < 0x8000_0000_0000_0000 && max >= 0
    requires x.score == RunAtMs(nowNs, NextBackoff(base, max, retry))
    ensures var low := base * Pow2(retry) % 0x1_0000_0000_0000_0000;
            var stranded := 0x8000_0000_0000_0000 <= low < 0x1_0000_0000_0000_0000 - nowNs;
            && ((forall now :: x !in ByScore(s.delayed, 0, now)) <==> stranded)
            && (stranded ==> forall now, batch: nat, hard :: x in Promote(s, now, batch, hard).delayed)
  {
    RunTimeBeforeEpochIff(base, max, retry, nowNs);
    NeverDueIff(s.delayed, x);
    if x.score < 0 {
      forall now, batch: nat, hard ensures x in Promote(s, now, batch, hard).delayed {
        NegativeScoreNeverPromoted(s, now, batch, hard, x);
      }
    }
  }

  /** With the default base of 100 ms, a cap of one hour and a clock in 2025, the retry after the 37th
      failure is stranded; after the 39th the delay is negative too, but the retry is due at once. */
  lemma WrappedBackoffStrandsTask()
    ensures var base, hour, nowNs := 100_000_000, 3_600_000_000_000, 1_750_000_000_000_000_000;
            && NextBackoff(base, hour, 37) < 0 && RunAtMs(nowNs, NextBackoff(base, hour, 37)) < 0
            && NextBackoff(base, hour, 39) < 0 <= RunAtMs(nowNs, NextBackoff(base, hour, 39))
  {
    assert Pow2(10) == 1024 && Pow2(20) == 1048576 && Pow2(30) == 1073741824;
    assert Pow2(37) == 128 * Pow2(30) && Pow2(39) == 512 * Pow2(30);
  }

  // ---- without crashes: one attempt after another ------------------------------

  /** An attempt under the exponential policy whose broker calls apply and whose handler, when it
      is reached, fails in a way that may be retried. */
  ghost predicate FailingAttempt(env: Env) {
    && env.reply(0) && !env.cancelled && env.handlerExists
    && (forall t, e :: env.shouldRetry(t, e) == ShouldRetry(t, e))
    && match env.outcome
       case Panic(_) => true
       case Done(err) => err.Some? && !err.value.handled && !err.value.skip && !err.value.noHandler
  }

  datatype Fate = Waiting(t: Task) | Buried(t: Task)

  /** The task's life over a sequence of attempts: it comes back after a retry or a rate-limit
      deferral and ends when it is dead-lettered. */
  ghost function Life(envs: seq<Env>, t: Task): (Fate, nat)
    requires forall env :: env in envs ==> FailingAttempt(env)
    decreases envs
  {
    if envs == [] then (Waiting(t), 0)
    else
      AttemptSettles(envs[0], t);
      var done := Process(envs[0], BUILT_CHAIN, t);
      var st := done.applied[0];
      if st.DeadLettered? then (Buried(st.t), done.starts)
      else
        var (fate, n) := Life(envs[1..], st.t);
        (fate, done.starts + n)
  }

  lemma AttemptSettles(env: Env, t: Task)
    requires FailingAttempt(env)
    ensures var done := Process(env, BUILT_CHAIN, t);
            && |done.applied| == 1
            && (done.applied[0].Deferred? ==> done.starts == 0 && done.applied[0].t == t && t.retry <= t.maxRetry)
            && (done.applied[0].Retried? ==>
                  && done.starts == 1 && done.applied[0].t.retry == t.retry + 1 < t.maxRetry
                  && done.applied[0].t.maxRetry == t.maxRetry)
            && (done.applied[0].DeadLettered? ==>
                  done.starts == (if t.retry > t.maxRetry then 0 else 1) && t.retry + 1 >= t.maxRetry)
            && !done.applied[0].Completed?
  {
    ProcessFollowsMatrix(env, t);
  }

  /** How many handler starts an always-failing task has left. */
  function Budget(t: Task): nat {
    if t.retry > t.maxRetry then 0 else if t.maxRetry - t.retry > 1 then t.maxRetry - t.retry else 1
  }

  /** An always-failing task starts its handler exactly max(1, MaxRetry - Retry) times before it is
      dead-lettered (never, if MaxRetry is already exceeded); until then each start raises Retry by
      one and leaves attempts to go. */
  lemma {:induction false} FailingTaskSpendsItsBudget(envs: seq<Env>, t: Task)
    requires forall env :: env in envs ==> FailingAttempt(env)
    ensures var (fate, n) := Life(envs, t);
            && (fate.Buried? ==> n == Budget(t))
            && (fate.Waiting? ==>
                  fate.t.retry == t.retry + n && fate.t.maxRetry == t.maxRetry && (n > 0 ==> n < Budget(t)))
    decreases envs
  {
    if envs != [] {
      AttemptSettles(envs[0], t);
      var st := Process(envs[0], BUILT_CHAIN, t).applied[0];
      if !st.DeadLettered? { FailingTaskSpendsItsBudget(envs[1..], st.t); }
    }
  }

  /** The attempts that the rate limiter lets through. */
  function Served(envs: seq<Env>): nat {
    if envs == [] then 0
    else (if envs[0].tokens.Wait? && envs[0].tokens.ms > 0 then 0 else 1) + Served(envs[1..])
  }

  lemma ServedAttemptSettles(env: Env, t: Task)
    requires FailingAttempt(env)
    ensures var st := Process(env, BUILT_CHAIN, t).applied[0];
            && |Process(env, BUILT_CHAIN, t).applied| == 1
            && (st.Deferred? <==> t.retry <= t.maxRetry && env.tokens.Wait? && env.tokens.ms > 0)
            && (st.DeadLettered? <==> t.retry > t.maxRetry || (!st.Deferred? && t.retry + 1 >= t.maxRetry))
  {
    ProcessFollowsMatrix(env, t);
  }

  /** And it does end there: an always-failing task is dead-lettered if and only if its budget is used
      up by attempts the limiter let through (any attempt will do once MaxRetry is exceeded). */
  lemma {:induction false} FailingTaskIsBuriedIff(envs: seq<Env>, t: Task)
    requires forall env :: env in envs ==> FailingAttempt(env)
    ensures Life(envs, t).0.Buried? <==> envs != [] && Served(envs) >= Budget(t)
    decreases envs
  {
    if envs != [] {
      AttemptSettles(envs[0], t);
      ServedAttemptSettles(envs[0], t);
      var st := Process(envs[0], BUILT_CHAIN, t).applied[0];
      if !st.DeadLettered? { FailingTaskIsBuriedIff(envs[1..], st.t); }
    }
  }

  // ---- with crashes: one stream entry, delivered again and again ----------------

  /** Handler starts over the deliveries of one entry, each with its own environment and delivery-count
      tag; deliveries that settle nothing leave the entry to be reclaimed. */
  function Starts(envs: seq<Env>, tags: seq<Option<int>>, t: Task): nat
    requires |envs| == |tags|
  {
    if envs == [] then 0
    else HandlerRuns(envs[0], WithDeliveryCount(t, tags[0])) + Starts(envs[1..], tags[1..], t)
  }

  /** The first delivery carries no tag; the k-th redelivery carries the true count. */
  predicate TrueTags(tags: seq<Option<int>>, from: nat) {
    forall k :: 0 <= k < |tags| ==> tags[k] == if from + k == 0 then None else Some(from + k + 1)
  }

  lemma {:induction false} StartsFrom(envs: seq<Env>, tags: seq<Option<int>>, t: Task, from: nat)
    requires |envs| == |tags| && TrueTags(tags, from) && t.retry >= 0
    ensures Starts(envs, tags, t) <= if t.maxRetry + 1 - from > 0 then t.maxRetry + 1 - from else 0
    decreases envs
  {
    if envs != [] {
      forall k | 0 <= k < |tags[1..]| ensures tags[1..][k] == if from + 1 + k == 0 then None
          else Some(from + 1 + k + 1) {
        assert tags[1..][k] == tags[k + 1];
      }
      StartsFrom(envs[1..], tags[1..], t, from + 1);
    }
  }

  /** With true delivery counts one entry starts its handler at most MaxRetry + 1 times, however
      often workers crash and whatever the handler and the broker do. */
  lemma CrashesAreBounded(envs: seq<Env>, tags: seq<Option<int>>, t: Task)
    requires |envs| == |tags| && TrueTags(tags, 0) && t.retry >= 0
    ensures Starts(envs, tags, t) <= if t.maxRetry >= 0 then t.maxRetry + 1 else 0
  {
    StartsFrom(envs, tags, t, 0);
  }

  /** The bound is reached: a worker that crashes in the handler every time gets that many starts. */
  lemma {:induction false} CrashBoundIsTight(env: Env, t: Task, n: nat, from: nat)
    requires env.handlerExists && !env.cancelled && env.tokens.Unlimited? && t.retry <= t.maxRetry
    requires from + n == t.maxRetry + 1
    ensures Starts(seq(n, _ => env), seq(n, k => if from + k == 0 then None else Some(from + k + 1)), t) == n
    decreases n
  {
    var envs := seq(n, _ => env);
    var tags := seq(n, k => if from + k == 0 then None else Some(from + k + 1));
    if n > 0 {
      assert envs[1..] == seq(n - 1, _ => env);
      assert tags[1..] == seq(n - 1, k => if from + 1 + k == 0 then None else Some(from + 1 + k + 1));
      CrashBoundIsTight(env, t, n - 1, from + 1);
    }
  }

  /** When redeliveries are tagged with the fallback count 1 instead, nothing bounds the starts. */
  lemma {:induction false} FallbackTagsAreUnbounded(env: Env, t: Task, n: nat)
    requires env.handlerExists && !env.cancelled && env.tokens.Unlimited? && t.maxRetry >= 0
    ensures Starts(seq(n, _ => env), seq(n, _ => Some(1)), t) == n
    decreases n
  {
    if n > 0 {
      assert seq(n, _ => env)[1..] == seq(n - 1, _ => env);
      assert seq(n, _ => Some(1))[1..] == seq(n - 1, _ => Some(1));
      FallbackTagsAreUnbounded(env, t, n - 1);
    }
  }

  /** The tag the last of the claimed messages gets at each of a sequence of ticks. */
  function LastTags(pels: seq<Janitor.Pel>, ids: seq<seq<nat>>, me: Bytes): seq<Option<int>>
    requires |pels| == |ids| && forall k :: 0 <= k < |ids| ==> ids[k] != []
  {
    seq(|pels|, k requires 0 <= k < |pels| =>
      Some(Janitor.Tags(Janitor.Claimed(pels[k], me, ids[k]), me, ids[k], false)[|ids[k]| - 1]))
  }

  /** And ticks do that: while a crashing message is each time the last one claimed, behind one that the
      janitor's consumer is still working on, every redelivery starts its handler. */
  lemma BusyNeighbourIsUnbounded(env: Env, t: Task, pels: seq<Janitor.Pel>, ids: seq<seq<nat>>, me: Bytes, minIdle: int)
    requires env.handlerExists && !env.cancelled && env.tokens.Unlimited? && t.maxRetry >= 0
    requires |pels| == |ids| && forall k :: 0 <= k < |ids| ==> ids[k] != []
    requires forall k :: 0 <= k < |ids| ==>
      Janitor.GoodClaim(pels[k], minIdle, ids[k])
      && Janitor.BusyBetween(pels[k], me, minIdle, ids[k][0], ids[k][|ids[k]| - 1])
    ensures Starts(seq(|pels|, _ => env), LastTags(pels, ids, me), t) == |pels|
  {
    forall k | 0 <= k < |pels| ensures LastTags(pels, ids, me)[k] == Some(1) {
      Janitor.BusyTagsLastOnce(pels[k], me, minIdle, ids[k]);
    }
    assert LastTags(pels, ids, me) == seq(|pels|, _ => Some(1));
    FallbackTagsAreUnbounded(env, t, |pels|);
  }

  /** The PELs of such ticks: message 3 comes back with one more delivery each time, and each time stalls
      again behind message 2. */
  function BusyPels(n: nat, other: Bytes, me: Bytes, minIdle: int): seq<Janitor.Pel> {
    seq(n, k requires 0 <= k < n => Janitor.BusyPel(other, me, minIdle, 1, k + 1))
  }

  /** For any MaxRetry there is such a sequence that exceeds it by as much as one likes. */
  lemma StartsExceedAnyLimit(env: Env, t: Task, n: nat, other: Bytes, me: Bytes, minIdle: int)
    requires env.handlerExists && !env.cancelled && env.tokens.Unlimited? && t.maxRetry >= 0 && minIdle > 0
    ensures var ids := seq(n, _ => [1, 3]);
            Starts(seq(n, _ => env), LastTags(BusyPels(n, other, me, minIdle), ids, me), t) == n
  {
    var pels, ids := BusyPels(n, other, me, minIdle), seq(n, _ => [1, 3]);
    forall k | 0 <= k < n
      ensures Janitor.GoodClaim(pels[k], minIdle, ids[k])
      ensures Janitor.BusyBetween(pels[k], me, minIdle, ids[k][0], ids[k][|ids[k]| - 1])
    {
      Janitor.BusyPelClaims(other, me, minIdle, 1, k + 1, 10, 100);
    }
    BusyNeighbourIsUnbounded(env, t, pels, ids, me, minIdle);
  }
}
