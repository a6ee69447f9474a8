/** One worker processing one message: decode, gates, the middleware chain and settlement, with the
    handler's outcome and the success of every broker call left open. */
module Pipeline {
  import opened Bytes
  import opened Codec
  import opened Broker
  import opened Protocol

  // ---- errors and environment ----------------------------------------------

  /** A Go error, by what errors.Is can find in its chain. */
  datatype Failure = Failure(text: Bytes, handled: bool, skip: bool, noHandler: bool)

  function Plain(text: Bytes): Failure { Failure(text, false, false, false) }
  function NoHandler(env: Env): Failure { Failure(env.noHandlerText, false, false, true) }
  function Handled(e: Failure): Failure { e.(handled := true) }

  /** How a stage ends: it returns an error (or nil), or it panics. */
  datatype Outcome = Done(err: Option<Failure>) | Panic(text: Bytes)

  datatype Tokens = Unlimited | LimiterError | Wait(ms: int)

  /** Everything outside the worker's control during one processing. `reply(n)` is whether the n-th
      broker settlement call is applied; `shouldRetry` and `backoff` are the retry policy. */
  datatype Env = Env(
    reply: nat -> bool,
    shouldRetry: (Task, Failure) -> bool, backoff: Task -> int, now: int,
    handlerExists: bool, outcome: Outcome, result: Bytes,
    tokens: Tokens, cancelled: bool,
    brokerText: Bytes, gateText: Bytes, noHandlerText: Bytes)

  datatype Stage = RetryAndDLQ | UniqueLockWatchdog | RateLimit | Recovery | Handler

  /** The order fixed by buildMiddlewareChain. */
  const BUILT_CHAIN: seq<Stage> := [RetryAndDLQ, UniqueLockWatchdog, RateLimit, Recovery, Handler]

  // ---- what a chain does ---------------------------------------------------

  /** The state the stages share: the task, the abort flag, the broker calls made and applied, the
      early lock releases and the handler starts. */
  datatype Ctx = Ctx(task: Task, aborted: bool, calls: nat, applied: seq<Settlement>, releases: nat, starts: nat)

  /** One settlement call to the broker. */
  function Call(env: Env, x: Ctx, st: Settlement): Ctx {
    x.(calls := x.calls + 1, applied := if env.reply(x.calls) then x.applied + [st] else x.applied)
  }

  predicate GoesToDLQ(env: Env, t: Task, e: Failure) { e.noHandler || e.skip || !env.shouldRetry(t, e) }

  function Failed(t: Task, e: Failure): Task { t.(retry := t.retry + 1, lastError := e.text) }

  /** The settlement of a failed execution. */
  function FailureSettlement(env: Env, t: Task, e: Failure): Settlement {
    var u := Failed(t, e);
    if GoesToDLQ(env, u, e) then DeadLettered(u, env.now) else Retried(u, env.now + env.backoff(u))
  }

  function OnFailure(env: Env, x: Ctx, e: Failure): (Ctx, Outcome) {
    var y := Call(env, x.(task := Failed(x.task, e)), FailureSettlement(env, x.task, e));
    (y, Done(Some(if env.reply(x.calls) then Handled(e) else Plain(env.brokerText))))
  }

  function RunChain(env: Env, stages: seq<Stage>, x: Ctx): (Ctx, Outcome)
    decreases |stages|, 0
  {
    if x.aborted || stages == [] then (x, Done(None)) else RunStage(env, stages[0], stages[1..], x)
  }

  function RunStage(env: Env, stage: Stage, rest: seq<Stage>, x: Ctx): (Ctx, Outcome)
    decreases |rest|, 1
  {
    match stage
    case RetryAndDLQ =>
      var (y, o) := RunChain(env, rest, x);
      if o.Done? && o.err.Some? && !o.err.value.handled then OnFailure(env, y, o.err.value) else (y, o)
    case UniqueLockWatchdog =>
      if x.task.uniqueKey == [] then RunChain(env, rest, x)
      else if x.task.uniqueScope == UNTIL_START then RunChain(env, rest, x.(releases := x.releases + 1))
      else
        var (y, o) := RunChain(env, rest, x);
        if o.Done? && o.err.Some? && y.task.uniqueScope == UNTIL_SUCCESS then (y.(releases := y.releases + 1), o)
            else (y, o)
    case RateLimit =>
      if env.tokens.Wait? && env.tokens.ms > 0 then
        var y := Call(env, x, Deferred(x.task, env.now + env.tokens.ms));
        if env.reply(x.calls) then (y.(aborted := true), Done(None)) else (y, Done(Some(Plain(env.brokerText))))
      else RunChain(env, rest, x)
    case Recovery =>
      var (y, o) := RunChain(env, rest, x);
      if o.Panic? then (y, Done(Some(Plain(o.text)))) else (y, o)
    case Handler =>
      if !env.handlerExists then (x, Done(Some(NoHandler(env))))
      else (x.(starts := x.starts + 1), env.outcome)
  }

  /** Complete only when the chain returned nil without aborting. */
  function Execute(env: Env, chain: seq<Stage>, x: Ctx): Ctx {
    var (y, o) := RunChain(env, chain, x);
    if o.Panic? || o.err.Some? || y.aborted then y
    else Call(env, y, Completed(if env.result != [] then y.task.(result := env.result) else y.task))
  }

  /** Reclaimed messages carry their delivery count; it replaces the retry counter. */
  function WithDeliveryCount(t: Task, count: Option<int>): Task {
    if count.Some? && count.value > 0 then t.(retry := count.value - 1) else t
  }

  /** Process on a decodable message: the max-retry gate, the cancel gate, then the chain. */
  function Process(env: Env, chain: seq<Stage>, t: Task): Ctx {
    var x := Ctx(t, false, 0, [], 0, 0);
    if t.retry > t.maxRetry then
      var u := t.(lastError := env.gateText);
      Call(env, x.(task := u), DeadLettered(u, env.now))
    else if env.cancelled then Call(env, x, Completed(t))
    else Execute(env, chain, x)
  }

  // ---- at most one settlement, for any chain --------------------------------

  /** A stage has settled nothing new, or exactly one settlement and says so to its caller: by a
      handled error, or by aborting with nil. */
  predicate SettledOnceAndSaid(x: Ctx, y: Ctx, o: Outcome) {
    || (y.applied == x.applied && y.aborted == x.aborted)
    || (|y.applied| == |x.applied| + 1 && y.applied[..|x.applied|] == x.applied && o.Done? &&
        (if o.err.Some? then o.err.value.handled else y.aborted))
  }

  /** Whatever middlewares are stacked in whatever order, settlements never double. */
  lemma {:induction false} ChainSettlesAtMostOnce(env: Env, stages: seq<Stage>, x: Ctx)
    ensures var (y, o) := RunChain(env, stages, x); SettledOnceAndSaid(x, y, o)
    decreases |stages|
  {
    if !x.aborted && stages != [] {
      var rest := stages[1..];
      match stages[0]
      case UniqueLockWatchdog =>
        ChainSettlesAtMostOnce(env, rest, x);
        ChainSettlesAtMostOnce(env, rest, x.(releases := x.releases + 1));
      case Handler =>
      case _ => ChainSettlesAtMostOnce(env, rest, x);
    }
  }

  /** One processing applies at most one of complete, retry, defer and dead-letter, for any chain,
      handler outcome and pattern of broker failures. */
  lemma ProcessSettlesAtMostOnce(env: Env, chain: seq<Stage>, t: Task)
    ensures |Process(env, chain, t).applied| <= 1
  {
    ChainSettlesAtMostOnce(env, chain, Ctx(t, false, 0, [], 0, 0));
  }

  // ---- the built chain, as a flat decision table -----------------------------

  /** A failed execution is charged an attempt and keeps the error's text. Permanent failures, and those
      the policy gives up on, are dead-lettered now; the rest run again after the backoff. */
  function FailureRow(env: Env, t: Task, e: Failure, call: nat): seq<Settlement> {
    var charged := t.(retry := t.retry + 1, lastError := e.text);
    if !env.reply(call) then []
    else if !e.noHandler && !e.skip && env.shouldRetry(charged, e) then
      [Retried(charged, env.now + env.backoff(charged))]
    else [DeadLettered(charged, env.now)]
  }

  /** The outcome matrix of the settlement rules, row by row. A failed defer is an execution failure
      like any other: it falls to the retry row of the second broker call. */
  function OutcomeMatrix(env: Env, t: Task): seq<Settlement> {
    if t.retry > t.maxRetry then
      (if env.reply(0) then [DeadLettered(t.(lastError := env.gateText), env.now)] else [])
    else if env.cancelled then
      (if env.reply(0) then [Completed(t)] else [])
    else if env.tokens.Wait? && env.tokens.ms > 0 then
      (if env.reply(0) then [Deferred(t, env.now + env.tokens.ms)] else FailureRow(env, t, Plain(env.brokerText), 1))
    else if !env.handlerExists then FailureRow(env, t, NoHandler(env), 0)
    else match env.outcome
      case Panic(text) => FailureRow(env, t, Plain(text), 0)
      case Done(err) =>
        if err.Some? then (if err.value.handled then [] else FailureRow(env, t, err.value, 0))
        else if env.reply(0) then [Completed(if env.result != [] then t.(result := env.result) else t)]
        else []
  }

  function HandlerRuns(env: Env, t: Task): nat {
    if t.retry <= t.maxRetry && !env.cancelled && !(env.tokens.Wait? && env.tokens.ms > 0) && env.handlerExists
    then 1 else 0
  }

  lemma FailureFollowsRow(env: Env, x: Ctx, e: Failure)
    requires x.applied == []
    ensures var y := OnFailure(env, x, e).0; y.applied == FailureRow(env, x.task, e, x.calls) && y.starts == x.starts
  {
  }

  /** The retry stage around the rest of the built chain. */
  lemma ChainTail(env: Env, x: Ctx)
    requires !x.aborted
    ensures var (y, o) := RunChain(env, WATCHED_CHAIN, x);
            RunChain(env, BUILT_CHAIN, x) ==
              if o.Done? && o.err.Some? && !o.err.value.handled then OnFailure(env, y, o.err.value) else (y, o)
  {
    assert BUILT_CHAIN[1..] == WATCHED_CHAIN;
  }

  /** The layered chain settles exactly what the flat table says and starts the handler exactly when
      no gate or limit stands in the way. */
  lemma ProcessFollowsMatrix(env: Env, t: Task)
    ensures Process(env, BUILT_CHAIN, t).applied == OutcomeMatrix(env, t)
    ensures Process(env, BUILT_CHAIN, t).starts == HandlerRuns(env, t)
  {
    if t.retry <= t.maxRetry && !env.cancelled {
      var x := Ctx(t, false, 0, [], 0, 0);
      WatchdogTail(env, x);
      ChainTail(env, x);
      var (y, o) := RunChain(env, WATCHED_CHAIN, x);
      if o.Done? && o.err.Some? && !o.err.value.handled { FailureFollowsRow(env, y, o.err.value); }
    }
  }

  const WATCHED_CHAIN: seq<Stage> := [UniqueLockWatchdog, RateLimit, Recovery, Handler]
  const LIMITED_CHAIN: seq<Stage> := [RateLimit, Recovery, Handler]

  /** Recovery around the handler: a panic comes out as an ordinary error. */
  lemma RecoveryTail(env: Env, x: Ctx)
    requires !x.aborted
    ensures RunChain(env, [Recovery, Handler], x) ==
      if !env.handlerExists then (x, Done(Some(NoHandler(env))))
      else (x.(starts := x.starts + 1), if env.outcome.Panic? then Done(Some(Plain(env.outcome.text))) else env.outcome)
  {
    assert [Recovery, Handler][1..] == [Handler];
    assert RunChain(env, [Handler], x) == RunStage(env, Handler, [], x);
  }

  lemma RateLimitTail(env: Env, x: Ctx)
    requires !x.aborted
    ensures RunChain(env, LIMITED_CHAIN, x) ==
      if env.tokens.Wait? && env.tokens.ms > 0 then RunStage(env, RateLimit, [Recovery, Handler], x)
      else RunChain(env, [Recovery, Handler], x)
  {
    assert LIMITED_CHAIN[1..] == [Recovery, Handler];
  }

  /** The watchdog gives up the lock before the handler starts, or when the rest of the chain fails, by
      the scope of the task. */
  predicate ReleasesEarly(env: Env, t: Task) {
    var waits := env.tokens.Wait? && env.tokens.ms > 0;
    && t.uniqueKey != []
    && (|| t.uniqueScope == UNTIL_START
        || (t.uniqueScope == UNTIL_SUCCESS &&
            if waits then !env.reply(0) else !env.handlerExists || env.outcome != Done(None)))
  }

  /** Up to the release of the lock, the chain below the retry stage does what its limiter and
      handler do. */
  lemma WatchdogTail(env: Env, x: Ctx)
    requires !x.aborted && x.calls == 0 && x.applied == [] && x.starts == 0
    ensures var (y, o) := RunChain(env, WATCHED_CHAIN, x);
            var waits := env.tokens.Wait? && env.tokens.ms > 0;
            && y.task == x.task
            && y.releases == x.releases + (if ReleasesEarly(env, x.task) then 1 else 0)
            && (if waits then
                  y.calls == 1 && y.starts == 0 &&
                  if env.reply(0) then y.aborted && o == Done(None)
                      && y.applied == [Deferred(x.task, env.now + env.tokens.ms)]
                  else !y.aborted && o == Done(Some(Plain(env.brokerText))) && y.applied == []
                else
                  y.calls == 0 && y.applied == [] && !y.aborted &&
                  if !env.handlerExists then y.starts == 0 && o == Done(Some(NoHandler(env)))
                  else y.starts == 1 && o == if env.outcome.Panic? then Done(Some(Plain(env.outcome.text)))
                      else env.outcome)
  {
    assert WATCHED_CHAIN[1..] == LIMITED_CHAIN;
    RecoveryTail(env, x);
    RateLimitTail(env, x);
    var x' := x.(releases := x.releases + 1);
    RecoveryTail(env, x');
    RateLimitTail(env, x');
  }

  /** The lock is released early at most once, and exactly when the task got past the gates and has a key
      whose scope says so: until-start at once, until-success after a failure of any kind (also of the
      defer), until-succeeded never. */
  lemma EarlyReleaseIff(env: Env, t: Task)
    ensures var n := Process(env, BUILT_CHAIN, t).releases;
            n <= 1 && (n == 1 <==> t.retry <= t.maxRetry && !env.cancelled && ReleasesEarly(env, t))
    ensures t.uniqueScope == UNTIL_SUCCEEDED || t.uniqueKey == [] ==> Process(env, BUILT_CHAIN, t).releases == 0
  {
    if t.retry <= t.maxRetry && !env.cancelled {
      WatchdogTail(env, Ctx(t, false, 0, [], 0, 0));
      assert BUILT_CHAIN[1..] == WATCHED_CHAIN;
    }
  }

  /** What the handler ends with, when it is reached and fails, once Recovery has seen it. */
  predicate FailsWith(env: Env, e: Failure) {
    if !env.handlerExists then e.noHandler && !e.handled && !e.skip && e.text == env.noHandlerText
    else match env.outcome
         case Panic(text) => e.text == text && !e.noHandler && !e.handled && !e.skip
         case Done(err) => err == Some(e) && !e.handled
  }

  /** What becomes of an execution that got to its handler and failed, when the broker call goes through:
      one settlement, of the same task charged one attempt and marked with the error. A missing handler or
      a skip error is dead-lettered now; anything else is dead-lettered now exactly when the policy
      refuses the charged task, and otherwise runs again after that task's backoff. */
  lemma FailureIsSettled(env: Env, t: Task, e: Failure)
    requires t.retry <= t.maxRetry && !env.cancelled && !(env.tokens.Wait? && env.tokens.ms > 0) && env.reply(0)
    requires FailsWith(env, e)
    ensures var done := Process(env, BUILT_CHAIN, t).applied;
            && |done| == 1 && (done[0].DeadLettered? || done[0].Retried?)
            && done[0].t == t.(retry := t.retry + 1, lastError := e.text)
            && (e.noHandler || e.skip ==> done[0].DeadLettered?)
            && (!e.noHandler && !e.skip ==> (done[0].DeadLettered? <==> !env.shouldRetry(done[0].t, e)))
            && (done[0].DeadLettered? ==> done[0].now == env.now)
            && (done[0].Retried? ==> done[0].runAt == env.now + env.backoff(done[0].t))
  {
    ProcessFollowsMatrix(env, t);
  }

  lemma MatrixChangesOnlyProgress(env: Env, t: Task, st: Settlement)
    requires st in OutcomeMatrix(env, t) && TextsFit(env) && IsInt32(t.retry) && IsInt32(t.retry + 1)
        && |t.lastError| < 0x1_0000_0000
    ensures SameButProgress(t, st.t)
  {
  }

  // ---- from one processing to the protocol -----------------------------------

  /** Environment texts a Go program can hold in memory next to a message. */
  predicate TextsFit(env: Env) {
    && |env.brokerText| < 0x1_0000_0000 && |env.gateText| < 0x1_0000_0000 && |env.noHandlerText| < 0x1_0000_0000
    && match env.outcome
       case Panic(text) => |text| < 0x1_0000_0000
       case Done(err) => err.Some? ==> |err.value.text| < 0x1_0000_0000
  }

  /** The retry counter and last error of a message, as a Go program can hold them. */
  predicate InRange(t: Task) { IsInt32(t.retry) && IsInt32(t.retry + 1) && |t.lastError| < 0x1_0000_0000 }

  lemma MatrixSettles(c: TaskCodec, body: Bytes, count: Option<int>, env: Env, st: Settlement)
    requires c.decode(body).Some? && TextsFit(env) && InRange(WithDeliveryCount(c.decode(body).value, count))
    requires st in OutcomeMatrix(env, WithDeliveryCount(c.decode(body).value, count))
    ensures SettlementOf(c, body, st)
  {
    MatrixChangesOnlyProgress(env, WithDeliveryCount(c.decode(body).value, count), st);
  }

  /** What a worker applies to a message it holds is a settlement the protocol allows: same task,
      only progress changed; so every processing is at most one Settle step of a run. */
  lemma ProcessIsOneProtocolStep(c: TaskCodec, w: World, e: Entry, count: Option<int>, env: Env, lim: Limits)
    requires e in w.held && c.decode(e.body).Some? && TextsFit(env)
    requires InRange(WithDeliveryCount(c.decode(e.body).value, count))
    ensures var done := Process(env, BUILT_CHAIN, WithDeliveryCount(c.decode(e.body).value, count)).applied;
            |done| <= 1 && forall st :: st in done ==>
              SettlementOf(c, e.body, st) && Next(c, w, Settle(e, st, lim)) == SettleHeld(c, w, e, st, lim)
  {
    var t := WithDeliveryCount(c.decode(e.body).value, count);
    ProcessSettlesAtMostOnce(env, BUILT_CHAIN, t);
    ProcessFollowsMatrix(env, t);
    forall st | st in OutcomeMatrix(env, t) ensures SettlementOf(c, e.body, st) {
      MatrixSettles(c, e.body, count, env, st);
    }
  }

  /** Only a handler that returned nil, or a cancellation seen first, completes a task. */
  lemma CompletionMeansSuccess(env: Env, t: Task, u: Task)
    requires Completed(u) in Process(env, BUILT_CHAIN, t).applied
    ensures t.retry <= t.maxRetry && (env.cancelled || (env.handlerExists && env.outcome == Done(None)))
  {
    ProcessFollowsMatrix(env, t);
  }

  /** A failed first settlement leaves the message unsettled, so pending, except in exactly one case:
      it was the defer of a rate-limited task, and the settlement charged for that failure goes through. */
  lemma FailedSettlementLeavesPendingIff(env: Env, t: Task)
    requires !env.reply(0)
    ensures Process(env, BUILT_CHAIN, t).applied == []
       <==> !(t.retry <= t.maxRetry && !env.cancelled && env.tokens.Wait? && env.tokens.ms > 0 && env.reply(1))
  {
    ProcessFollowsMatrix(env, t);
  }

  /** A rate-limited task whose defer call fails is charged an execution: with one attempt left it
      is dead-lettered although its handler never started. */
  lemma FailedDeferChargesAnAttempt(env: Env, t: Task)
    requires t.retry <= t.maxRetry && !env.cancelled && env.tokens.Wait? && env.tokens.ms > 0
    requires !env.reply(0) && env.reply(1)
    ensures var done := Process(env, BUILT_CHAIN, t);
            var u := t.(retry := t.retry + 1, lastError := env.brokerText);
            done.starts == 0 && done.applied == [if env.shouldRetry(u, Plain(env.brokerText))
                                                 then Retried(u, env.now + env.backoff(u))
                                                 else DeadLettered(u, env.now)]
  {
    ProcessFollowsMatrix(env, t);
  }

  // ---- the code: a context whose Next walks the chain --------------------------

  class BrokerCalls {
    const env: Env
    var calls: nat
    var applied: seq<Settlement>
    var releases: nat
    var acks: nat
    var deletes: nat

    constructor (env: Env)
      ensures this.env == env && calls == 0 && applied == [] && releases == 0 && acks == 0 && deletes == 0
    {
      this.env := env;
      calls, applied, releases, acks, deletes := 0, [], 0, 0, 0;
    }

    /** The plain XACK and XDEL of a message that does not decode. */
    method Discard()
      modifies this`acks, this`deletes
      ensures acks == old(acks) + 1 && deletes == old(deletes) + 1
    {
      acks := acks + 1;
      deletes := deletes + 1;
    }

    method Do(st: Settlement) returns (ok: bool)
      modifies this`calls, this`applied
      ensures ok == env.reply(old(calls)) && calls == old(calls) + 1 && releases == old(releases)
      ensures applied == if ok then old(applied) + [st] else old(applied)
    {
      ok := env.reply(calls);
      calls := calls + 1;
      if ok { applied := applied + [st]; }
    }

    method ReleaseUniqueLock()
      modifies this`releases
      ensures releases == old(releases) + 1
    {
      releases := releases + 1;
    }
  }

  class ConsumeContext {
    const env: Env
    const handlers: seq<Stage>
    const broker: BrokerCalls
    var task: Task
    var index: int
    var aborted: bool
    var starts: nat

    constructor (env: Env, handlers: seq<Stage>, broker: BrokerCalls, task: Task)
      ensures this.env == env && this.handlers == handlers && this.broker == broker && this.task == task
      ensures index == -1 && !aborted && starts == 0
    {
      this.env, this.handlers, this.broker, this.task := env, handlers, broker, task;
      index, aborted, starts := -1, false, 0;
    }

    ghost predicate Valid()
      reads this, broker
    {
      broker.env == env && -1 <= index <= |handlers|
    }

    function Abs(): Ctx
      reads this, broker
    {
      Ctx(task, aborted, broker.calls, broker.applied, broker.releases, starts)
    }

    /** The stages not yet entered. */
    ghost function Rest(): seq<Stage>
      requires Valid() && index < |handlers|
      reads this, broker
    {
      handlers[index + 1..]
    }

    method Abort()
      modifies this`aborted, this`index
      ensures aborted && index == |handlers|
    {
      aborted := true;
      index := |handlers|;
    }

    method Next() returns (o: Outcome)
      requires Valid() && index < |handlers|
      modifies this, broker`calls, broker`applied, broker`releases
      ensures Valid() && (Abs(), o) == RunChain(env, old(Rest()), old(Abs()))
      decreases |handlers| - index, 0
    {
      if aborted { return Done(None); }
      index := index + 1;
      if index < |handlers| {
        ghost var rest := old(Rest());
        assert rest[0] == handlers[index] && rest[1..] == handlers[index + 1..];
        o := Invoke(handlers[index]);
      } else {
        o := Done(None);
      }
    }

    method Invoke(stage: Stage) returns (o: Outcome)
      requires Valid() && index < |handlers|
      modifies this, broker`calls, broker`applied, broker`releases
      ensures Valid() && (Abs(), o) == RunStage(env, stage, old(Rest()), old(Abs()))
      decreases |handlers| - index, 2
    {
      match stage
      case RetryAndDLQ => o := RetryAndDLQMiddleware();
      case UniqueLockWatchdog => o := UniqueLockWatchdogMiddleware();
      case RateLimit => o := RateLimitMiddleware();
      case Recovery =>
        o := Next();
        if o.Panic? { o := Done(Some(Plain(o.text))); }
      case Handler =>
        if !env.handlerExists { return Done(Some(NoHandler(env))); }
        starts := starts + 1;
        o := env.outcome;
    }

    method RetryAndDLQMiddleware() returns (o: Outcome)
      requires Valid() && index < |handlers|
      modifies this, broker`calls, broker`applied, broker`releases
      ensures Valid() && (Abs(), o) == RunStage(env, RetryAndDLQ, old(Rest()), old(Abs()))
      decreases |handlers| - index, 1
    {
      o := Next();
      if o.Panic? || o.err.None? { return; }
      var err := o.err.value;
      if err.handled { return; }
      task := task.(retry := task.retry + 1, lastError := err.text);
      if err.noHandler || err.skip || !env.shouldRetry(task, err) {
        var ok := broker.Do(DeadLettered(task, env.now));
        if !ok { return Done(Some(Plain(env.brokerText))); }
        return Done(Some(Handled(err)));
      }
      var runAt := env.now + env.backoff(task);
      var ok := broker.Do(Retried(task, runAt));
      if !ok { return Done(Some(Plain(env.brokerText))); }
      return Done(Some(Handled(err)));
    }

    method UniqueLockWatchdogMiddleware() returns (o: Outcome)
      requires Valid() && index < |handlers|
      modifies this, broker`calls, broker`applied, broker`releases
      ensures Valid() && (Abs(), o) == RunStage(env, UniqueLockWatchdog, old(Rest()), old(Abs()))
      decreases |handlers| - index, 1
    {
      if task.uniqueKey == [] {
        o := Next();
        return;
      }
      if task.uniqueScope == UNTIL_START {
        broker.ReleaseUniqueLock();
        o := Next();
        return;
      }
      o := Next();
      if o.Done? && o.err.Some? && task.uniqueScope == UNTIL_SUCCESS {
        broker.ReleaseUniqueLock();
      }
    }

    method RateLimitMiddleware() returns (o: Outcome)
      requires Valid() && index < |handlers|
      modifies this, broker`calls, broker`applied, broker`releases
      ensures Valid() && (Abs(), o) == RunStage(env, RateLimit, old(Rest()), old(Abs()))
      decreases |handlers| - index, 1
    {
      if env.tokens.Wait? && env.tokens.ms > 0 {
        var ok := broker.Do(Deferred(task, env.now + env.tokens.ms));
        if !ok { return Done(Some(Plain(env.brokerText))); }
        Abort();
        return Done(None);
      }
      o := Next();
    }
  }

  class MessageProcessor {
    const env: Env
    const chain: seq<Stage>
    const broker: BrokerCalls

    constructor (env: Env, chain: seq<Stage>)
      ensures this.env == env && this.chain == chain && fresh(broker) && broker.env == env
      ensures Idle()
    {
      this.env, this.chain := env, chain;
      this.broker := new BrokerCalls(env);
    }

    ghost predicate Idle()
      reads broker
    {
      && broker.env == env && broker.calls == 0 && broker.applied == [] && broker.releases == 0
      && broker.acks == 0 && broker.deletes == 0
    }

    /** Process on one stream message: a payload that is neither bytes nor text is left alone, one
        that does not decode is acknowledged and deleted, and any other ends with the settlements of
        `Process`. */
    method ProcessMessage(taskField: Option<Bytes>, payloadField: Option<Bytes>, count: Option<int>)
      requires Idle()
      modifies broker
      ensures var payload := if taskField.Some? then taskField else payloadField;
              var corrupt := payload.Some? && Decode(payload.value).None?;
              && broker.acks == broker.deletes == (if corrupt then 1 else 0)
              && broker.applied == if payload.None? || corrupt then []
                                   else Process(env, chain,
                                       WithDeliveryCount(Decode(payload.value).value, count)).applied
    {
      var payload := if taskField.Some? then taskField else payloadField;
      if payload.None? { return; }
      var ok, task := Unmarshal(payload.value, EMPTY_TASK);
      if !ok {
        broker.Discard();
        return;
      }
      if count.Some? && count.value > 0 { task := task.(retry := count.value - 1); }
      var gated := RouteExceededMaxRetry(task);
      if gated { return; }
      gated := DiscardIfCancelled(task);
      if gated { return; }
      ExecuteAndSettle(task);
    }

    method RouteExceededMaxRetry(task: Task) returns (gated: bool)
      requires Idle()
      modifies broker`calls, broker`applied, broker`releases
      ensures gated == (task.retry > task.maxRetry)
      ensures gated ==> broker.applied == if env.reply(0)
          then [DeadLettered(task.(lastError := env.gateText), env.now)] else []
      ensures !gated ==> Idle()
    {
      if task.retry <= task.maxRetry { return false; }
      var _ := broker.Do(DeadLettered(task.(lastError := env.gateText), env.now));
      gated := true;
    }

    method DiscardIfCancelled(task: Task) returns (gated: bool)
      requires Idle()
      modifies broker`calls, broker`applied, broker`releases
      ensures gated == env.cancelled
      ensures gated ==> broker.applied == if env.reply(0) then [Completed(task)] else []
      ensures !gated ==> Idle()
    {
      if !env.cancelled { return false; }
      var _ := broker.Do(Completed(task));
      gated := true;
    }

    method ExecuteAndSettle(task: Task)
      requires Idle()
      modifies broker`calls, broker`applied, broker`releases
      ensures broker.applied == Execute(env, chain, Ctx(task, false, 0, [], 0, 0)).applied
    {
      var c := new ConsumeContext(env, chain, broker, task);
      assert c.Rest() == chain;
      var o := c.Next();
      if o.Panic? || o.err.Some? || c.aborted { return; }
      var t := c.task;
      if env.result != [] { t := t.(result := env.result); }
      var _ := broker.Do(Completed(t));
    }
  }
}
