/** Unique locks under every interleaving: nobody touches another task's lock, and while a task that
    is unique until it succeeds is live it holds its lock, so no second task with its key is. */
module UniqueLocks {
  import opened Bytes
  import opened ZSets
  import opened Codec
  import opened Broker
  import opened Protocol

  // ---- nobody touches another task's lock ---------------------------------

  /** The task ID a step acts for, where it acts for one. */
  function Actor(c: TaskCodec, a: Step): Option<Bytes> {
    match a
    case EnqueueUniqueTask(t, _, _) => Some(t.id)
    case DelayUniqueTask(t, _, _, _, _) => Some(t.id)
    case Settle(e, _, _) => c.Id(e.body)
    case ReleaseLock(e) => c.Id(e.body)
    case RenewLock(e, _) => c.Id(e.body)
    case _ => None
  }

  predicate Foreign(c: TaskCodec, a: Step, key: Bytes, owner: Bytes) {
    Actor(c, a) != Some(owner) && a != ExpireLock(key)
  }

  lemma ForeignStepKeepsLock(c: TaskCodec, w: World, a: Step, key: Bytes)
    requires key in w.q.locks && Foreign(c, a, key, w.q.locks[key].owner)
    ensures var v := Next(c, w, a); key in v.q.locks && v.q.locks[key] == w.q.locks[key]
  {
    match a
    case Settle(e, st, lim) =>
      if e in w.held && SettlementOf(c, e.body, st) { ForeignSettleKeepsLock(c, w, e, st, lim, key); }
    case _ =>
  }

  lemma ForeignSettleKeepsLock(c: TaskCodec, w: World, e: Entry, st: Settlement, lim: Limits, key: Bytes)
    requires key in w.q.locks && st.t.id != w.q.locks[key].owner
    ensures var v := SettleHeld(c, w, e, st, lim); key in v.q.locks && v.q.locks[key] == w.q.locks[key]
  {
  }

  /** Over any run in which the lock does not expire and no step acts for its owner, the lock stays
      exactly as it is, whatever other tasks enqueue, settle, release or renew. */
  lemma {:induction false} ForeignRunKeepsLock(c: TaskCodec, w: World, steps: seq<Step>, key: Bytes)
    requires key in w.q.locks && forall a :: a in steps ==> Foreign(c, a, key, w.q.locks[key].owner)
    ensures var v := Run(c, w, steps); key in v.q.locks && v.q.locks[key] == w.q.locks[key]
    decreases steps
  {
    if steps != [] {
      ForeignStepKeepsLock(c, w, steps[0], key);
      ForeignRunKeepsLock(c, Next(c, w, steps[0]), steps[1..], key);
    }
  }

  // ---- mutual exclusion ----------------------------------------------------

  /** A body whose task carries a unique key. */
  predicate IsUnique(c: TaskCodec, body: Bytes) { c.decode(body).Some? && c.decode(body).value.uniqueKey != [] }

  function T(c: TaskCodec, body: Bytes): Task
    requires IsUnique(c, body)
  {
    c.decode(body).value
  }

  datatype Profile = Profile(key: Bytes, scope: int)

  /** An ID always carries the same key and scope. */
  ghost predicate Fitting(c: TaskCodec, who: Bytes -> Profile, body: Bytes) {
    IsUnique(c, body) ==> who(T(c, body).id) == Profile(T(c, body).uniqueKey, T(c, body).uniqueScope)
  }

  ghost predicate ProfilesOk(c: TaskCodec, who: Bytes -> Profile, w: World) {
    && (forall e :: e in w.q.stream ==> Fitting(c, who, e.body))
    && (forall i :: i in w.q.delayed ==> Fitting(c, who, i.member))
    && (forall h :: h in w.held ==> Fitting(c, who, h.body))
  }

  ghost predicate SameTask(c: TaskCodec, a: Bytes, b: Bytes) {
    IsUnique(c, a) && IsUnique(c, b) && T(c, a).id == T(c, b).id
  }

  /** At most one live copy of each unique task. */
  ghost predicate SingleCopies(c: TaskCodec, w: World) {
    && (forall d, e :: d in w.q.stream && e in w.q.stream && SameTask(c, d.body, e.body) ==> d == e)
    && (forall i, j :: i in w.q.delayed && j in w.q.delayed && SameTask(c, i.member, j.member) ==> i == j)
    && (forall e, i :: e in w.q.stream && i in w.q.delayed ==> !SameTask(c, e.body, i.member))
  }

  /** The body is live: queued in the stream or waiting in the delayed set. */
  ghost predicate Live(w: World, body: Bytes) {
    (exists e :: e in w.q.stream && e.body == body) || (exists i :: i in w.q.delayed && i.member == body)
  }

  ghost predicate Locked(c: TaskCodec, locks: map<Bytes, Lock>, body: Bytes) {
    IsUnique(c, body) && T(c, body).uniqueScope == UNTIL_SUCCEEDED ==>
      T(c, body).uniqueKey in locks && locks[T(c, body).uniqueKey].owner == T(c, body).id
  }

  ghost predicate HoldersLocked(c: TaskCodec, w: World) {
    && (forall e :: e in w.q.stream ==> Locked(c, w.q.locks, e.body))
    && (forall i :: i in w.q.delayed ==> Locked(c, w.q.locks, i.member))
  }

  ghost predicate LockInv(c: TaskCodec, who: Bytes -> Profile, w: World) {
    ProfilesOk(c, who, w) && SingleCopies(c, w) && HoldersLocked(c, w)
  }

  ghost predicate NotLive(c: TaskCodec, w: World, id: Bytes) {
    && (forall e :: e in w.q.stream && IsUnique(c, e.body) ==> T(c, e.body).id != id)
    && (forall i :: i in w.q.delayed && IsUnique(c, i.member) ==> T(c, i.member).id != id)
  }

  /** A task that may be enqueued: it decodes to itself, matches its profile and is not live yet. */
  ghost predicate Fresh(c: TaskCodec, who: Bytes -> Profile, w: World, t: Task) {
    && t.uniqueKey != [] && who(t.id) == Profile(t.uniqueKey, t.uniqueScope)
    && c.decode(c.encode(t)).Some? && SameIdentity(c.decode(c.encode(t)).value, t)
    && NotLive(c, w, t.id)
  }

  /** Some live task that is unique until it succeeds has this key. */
  ghost predicate KeyInUse(c: TaskCodec, w: World, key: Bytes) {
    exists body :: Live(w, body) && IsUnique(c, body) && T(c, body).uniqueScope == UNTIL_SUCCEEDED
        && T(c, body).uniqueKey == key
  }

  /** No expiry of a lock in use, no stale settlement, no enqueue of a live ID, keys only through the
      unique enqueue scripts; early release only for the scopes that ask for it. */
  ghost predicate Orderly(c: TaskCodec, who: Bytes -> Profile, w: World, a: Step) {
    match a
    case EnqueueBody(body, _) => !IsUnique(c, body)
    case DelayBody(_, body, _, _) => !IsUnique(c, body)
    case EnqueueUniqueTask(t, _, _) => Fresh(c, who, w, t)
    case DelayUniqueTask(t, _, _, _, _) => Fresh(c, who, w, t)
    case Settle(e, _, _) => e in w.q.stream
    case ReleaseLock(e) => IsUnique(c, e.body) ==> T(c, e.body).uniqueScope != UNTIL_SUCCEEDED
    case ExpireLock(key) => !KeyInUse(c, w, key)
    case _ => true
  }

  // ---- one step ------------------------------------------------------------

  /** Removing bodies keeps everything; only locks of bodies that stay must stay. */
  lemma ShrinkKeepsLockInv(c: TaskCodec, who: Bytes -> Profile, w: World, v: World)
    requires LockInv(c, who, w)
    requires forall e :: e in v.q.stream ==> e in w.q.stream
    requires forall i :: i in v.q.delayed ==> i in w.q.delayed
    requires forall h :: h in v.held ==> h in w.held || h in w.q.stream
    requires HoldersLocked(c, v)
    ensures LockInv(c, who, v)
  {
  }

  lemma AppendKeepsLockInv(c: TaskCodec, who: Bytes -> Profile, w: World, body: Bytes, locks: map<Bytes, Lock>)
    requires LockInv(c, who, w) && HoldersLocked(c, w.(q := w.q.(locks := locks)))
    requires Fitting(c, who, body) && Locked(c, locks, body)
    requires IsUnique(c, body) ==> NotLive(c, w, T(c, body).id)
    ensures LockInv(c, who, w.(q := Append(w.q.(locks := locks), body)))
  {
  }

  lemma DelayKeepsLockInv(c: TaskCodec, who: Bytes -> Profile, w: World, score: int, body: Bytes, room: ZSet,
      locks: map<Bytes, Lock>)
    requires LockInv(c, who, w) && HoldersLocked(c, w.(q := w.q.(locks := locks)))
    requires forall i :: i in room ==> i in w.q.delayed
    requires Fitting(c, who, body) && Locked(c, locks, body)
    requires IsUnique(c, body) ==> NotLive(c, w, T(c, body).id)
    ensures LockInv(c, who, w.(q := w.q.(locks := locks, delayed := Add(room, score, body))))
  {
  }

  /** A fresh task takes the lock only when nobody else's live task needs it. */
  lemma TakeLock(c: TaskCodec, who: Bytes -> Profile, w: World, t: Task, deadline: int)
    requires LockInv(c, who, w) && Fresh(c, who, w, t) && !HeldByOther(w.q, t.uniqueKey, t.id)
    ensures var locks := w.q.locks[t.uniqueKey := Lock(t.id, deadline)];
            HoldersLocked(c, w.(q := w.q.(locks := locks))) && Locked(c, locks, c.encode(t))
                && Fitting(c, who, c.encode(t))
  {
  }

  /** The first settlement of a message takes its copy out; after that no live body has its ID. */
  lemma SettledNotLive(c: TaskCodec, who: Bytes -> Profile, w: World, e: Entry)
    requires LockInv(c, who, w) && e in w.q.stream
    ensures var v := w.(q := Settled(w.q, e.id));
            LockInv(c, who, v) && (IsUnique(c, e.body) ==> NotLive(c, v, T(c, e.body).id))
  {
    var v := w.(q := Settled(w.q, e.id));
    ShrinkKeepsLockInv(c, who, w, v);
    if IsUnique(c, e.body) {
      forall d | d in v.q.stream && IsUnique(c, d.body) ensures T(c, d.body).id != T(c, e.body).id {
        if T(c, d.body).id == T(c, e.body).id { assert SameTask(c, d.body, e.body); }
      }
      forall i | i in v.q.delayed && IsUnique(c, i.member) ensures T(c, i.member).id != T(c, e.body).id {
        assert !SameTask(c, e.body, i.member);
      }
    }
  }

  /** Releasing the lock of an ID that is not live leaves every live holder locked. */
  lemma ReleaseDeadKeeps(c: TaskCodec, who: Bytes -> Profile, w: World, t: Task)
    requires LockInv(c, who, w) && (t.uniqueKey != [] ==> NotLive(c, w, t.id))
    ensures LockInv(c, who, w.(q := w.q.(locks := SettleLock(w.q.locks, t.uniqueKey, t.id))))
  {
    ShrinkKeepsLockInv(c, who, w, w.(q := w.q.(locks := SettleLock(w.q.locks, t.uniqueKey, t.id))));
  }

  lemma SettleKeepsLockInv(c: TaskCodec, who: Bytes -> Profile, w: World, e: Entry, st: Settlement, lim: Limits)
    requires LockInv(c, who, w) && Lawful(c) && e in w.q.stream && SettlementOf(c, e.body, st)
    ensures LockInv(c, who, SettleHeld(c, w, e, st, lim))
  {
    var v := w.(q := Settled(w.q, e.id));
    SettledNotLive(c, who, w, e);
    var body := c.encode(st.t);
    assert c.decode(body).Some? && SameIdentity(c.decode(body).value, st.t)
        && SameIdentity(c.decode(e.body).value, st.t);
    assert IsUnique(c, body) <==> IsUnique(c, e.body);
    match st
    case Completed(t) => ReleaseDeadKeeps(c, who, v, t);
    case Retried(t, runAt) =>
      DelayKeepsLockInv(c, who, v, runAt, body, MakeRoom(v.q.delayed, lim.delayedMax, true), v.q.locks);
    case Deferred(t, runAt) =>
      DelayKeepsLockInv(c, who, v, runAt, body, MakeRoom(v.q.delayed, lim.delayedMax, true), v.q.locks);
    case DeadLettered(t, now) => ReleaseDeadKeeps(c, who, v, t);
  }

  lemma PromoteKeepsLockInv(c: TaskCodec, who: Bytes -> Profile, w: World, now: int, batch: nat, hard: int)
    requires LockInv(c, who, w) && Valid(w.q.delayed)
    ensures LockInv(c, who, Next(c, w, PromoteDue(now, batch, hard)))
  {
    ByScoreValid(w.q.delayed, 0, now);
    MoveKeepsLockInv(c, who, w, Promoted(w.q, now, batch, hard));
  }

  /** A member that moves, found from the stream entry it becomes. */
  lemma Origin(moved: ZSet, last: nat, e: Entry) returns (k: nat)
    requires e in Entries(moved, last)
    ensures k < |moved| && e == Entries(moved, last)[k] && e.body == moved[k].member && moved[k] in moved
  {
    k :| 0 <= k < |moved| && Entries(moved, last)[k] == e;
  }

  /** Moving distinct waiting members of distinct tasks to the stream keeps one copy of each. */
  lemma MovedOnce(c: TaskCodec, w: World, moved: ZSet, d: Entry, e: Entry)
    requires SingleCopies(c, w) && SameTask(c, d.body, e.body)
    requires forall x :: x in moved ==> x in w.q.delayed
    requires forall i, j :: 0 <= i < j < |moved| ==> moved[i].member != moved[j].member
    requires d in Entries(moved, w.q.lastId) && (e in w.q.stream || e in Entries(moved, w.q.lastId))
    ensures d == e
  {
    var k := Origin(moved, w.q.lastId, d);
    if e in Entries(moved, w.q.lastId) {
      var l := Origin(moved, w.q.lastId, e);
      assert moved[k] == moved[l];
    } else {
      assert SameTask(c, e.body, moved[k].member);
    }
  }

  lemma MoveKeepsLockInv(c: TaskCodec, who: Bytes -> Profile, w: World, moved: ZSet)
    requires LockInv(c, who, w)
    requires forall x :: x in moved ==> x in w.q.delayed
    requires forall i, j :: 0 <= i < j < |moved| ==> moved[i].member != moved[j].member
    ensures LockInv(c, who, w.(q := Move(w.q, moved)))
  {
    var v := w.(q := Move(w.q, moved));
    var news := Entries(moved, w.q.lastId);
    assert forall e :: e in v.q.stream <==> e in w.q.stream || e in news;
    forall e | e in news ensures Fitting(c, who, e.body) && Locked(c, w.q.locks, e.body) {
      var k := Origin(moved, w.q.lastId, e);
    }
    forall d, e | d in v.q.stream && e in v.q.stream && SameTask(c, d.body, e.body) ensures d == e {
      if d in news { MovedOnce(c, w, moved, d, e); } else if e in news { MovedOnce(c, w, moved, e, d); }
    }
    forall e, i | e in v.q.stream && i in v.q.delayed ensures !SameTask(c, e.body, i.member) {
      if e in news {
        var k := Origin(moved, w.q.lastId, e);
        assert moved[k] in w.q.delayed && moved[k] != i;
      }
    }
  }

  lemma PromoteMemberKeepsLockInv(c: TaskCodec, who: Bytes -> Profile, w: World, member: Bytes, hard: int)
    requires LockInv(c, who, w) && Valid(w.q.delayed)
    ensures LockInv(c, who, Next(c, w, PromoteMember(member, hard)))
  {
    if !StreamFull(w.q, hard) && member in Members(w.q.delayed) {
      var i :| i in w.q.delayed && i.member == member;
      var v := w.(q := w.q.(delayed := Remove(w.q.delayed, member)));
      ShrinkKeepsLockInv(c, who, w, v);
      if IsUnique(c, member) {
        forall j | j in v.q.delayed && IsUnique(c, j.member) ensures T(c, j.member).id != T(c, member).id {
          assert SameTask(c, i.member, j.member) ==> i == j;
        }
        forall e | e in v.q.stream && IsUnique(c, e.body) ensures T(c, e.body).id != T(c, member).id {
          assert !SameTask(c, e.body, i.member);
        }
      }
      AppendKeepsLockInv(c, who, v, member, v.q.locks);
    }
  }

  lemma AdmissionKeepsLockInv(c: TaskCodec, who: Bytes -> Profile, w: World, a: Step)
    requires LockInv(c, who, w) && IsAdmission(a) && Orderly(c, who, w, a)
    ensures LockInv(c, who, Next(c, w, a))
  {
    match a
    case EnqueueBody(body, hard) => AppendKeepsLockInv(c, who, w, body, w.q.locks);
    case EnqueueUniqueTask(t, deadline, hard) =>
      if !HeldByOther(w.q, t.uniqueKey, t.id) {
        TakeLock(c, who, w, t, deadline);
        AppendKeepsLockInv(c, who, w, c.encode(t), w.q.locks[t.uniqueKey := Lock(t.id, deadline)]);
      }
    case DelayBody(score, body, max, drop) =>
      DelayKeepsLockInv(c, who, w, score, body, MakeRoom(w.q.delayed, max, drop), w.q.locks);
    case DelayUniqueTask(t, deadline, score, max, drop) =>
      if !HeldByOther(w.q, t.uniqueKey, t.id) {
        TakeLock(c, who, w, t, deadline);
        DelayKeepsLockInv(c, who, w, score, c.encode(t), MakeRoom(w.q.delayed, max, drop),
            w.q.locks[t.uniqueKey := Lock(t.id, deadline)]);
      }
  }

  lemma ReleaseKeepsLockInv(c: TaskCodec, who: Bytes -> Profile, w: World, e: Entry)
    requires LockInv(c, who, w) && e in w.held && IsUnique(c, e.body) && T(c, e.body).uniqueScope != UNTIL_SUCCEEDED
    ensures LockInv(c, who, w.(q := w.q.(locks := ReleaseIfOwned(w.q.locks, T(c, e.body).uniqueKey, T(c, e.body).id))))
  {
    var v := w.(q := w.q.(locks := ReleaseIfOwned(w.q.locks, T(c, e.body).uniqueKey, T(c, e.body).id)));
    assert Fitting(c, who, e.body);
    forall d | d in w.q.stream ensures Locked(c, v.q.locks, d.body) {
      assert Fitting(c, who, d.body) && Locked(c, w.q.locks, d.body);
    }
    forall i | i in w.q.delayed ensures Locked(c, v.q.locks, i.member) {
      assert Fitting(c, who, i.member) && Locked(c, w.q.locks, i.member);
    }
    ShrinkKeepsLockInv(c, who, w, v);
  }

  /** A lock that no live task needs may expire. */
  lemma ExpireKeepsLockInv(c: TaskCodec, who: Bytes -> Profile, w: World, key: Bytes)
    requires LockInv(c, who, w) && !KeyInUse(c, w, key)
    ensures LockInv(c, who, Next(c, w, ExpireLock(key)))
  {
    var v := Next(c, w, ExpireLock(key));
    forall e | e in v.q.stream ensures Locked(c, v.q.locks, e.body) { assert Live(w, e.body); }
    forall i | i in v.q.delayed ensures Locked(c, v.q.locks, i.member) { assert Live(w, i.member); }
    ShrinkKeepsLockInv(c, who, w, v);
  }

  lemma TrimKeepsLockInv(c: TaskCodec, who: Bytes -> Profile, w: World, threshold: nat, n: nat)
    requires Inv(c, w) && LockInv(c, who, w)
    ensures LockInv(c, who, Next(c, w, Trim(threshold, n)))
  {
    if n <= |w.q.stream| { AscendingSuffix(w.q.stream, n); }
    ShrinkKeepsLockInv(c, who, w, Next(c, w, Trim(threshold, n)));
  }

  lemma NextKeepsLockInv(c: TaskCodec, who: Bytes -> Profile, w: World, a: Step)
    requires Inv(c, w) && LockInv(c, who, w) && Lawful(c) && Orderly(c, who, w, a)
    ensures LockInv(c, who, Next(c, w, a))
  {
    var v := Next(c, w, a);
    if IsAdmission(a) {
      AdmissionKeepsLockInv(c, who, w, a);
    } else {
      match a
      case Settle(e, st, lim) =>
        if e in w.held && SettlementOf(c, e.body, st) { SettleKeepsLockInv(c, who, w, e, st, lim); }
      case ReleaseLock(e) =>
        if v != w { ReleaseKeepsLockInv(c, who, w, e); }
      case PromoteDue(now, batch, hard) => PromoteKeepsLockInv(c, who, w, now, batch, hard);
      case PromoteMember(member, hard) => PromoteMemberKeepsLockInv(c, who, w, member, hard);
      case ExpireLock(key) => ExpireKeepsLockInv(c, who, w, key);
      case Trim(threshold, n) => TrimKeepsLockInv(c, who, w, threshold, n);
      case _ => ShrinkKeepsLockInv(c, who, w, v);
    }
  }

  ghost predicate OrderlyRun(c: TaskCodec, who: Bytes -> Profile, w: World, steps: seq<Step>)
    decreases steps
  {
    steps == [] || (Orderly(c, who, w, steps[0]) && OrderlyRun(c, who, Next(c, w, steps[0]), steps[1..]))
  }

  lemma {:induction false} OrderlyRunKeepsLockInv(c: TaskCodec, who: Bytes -> Profile, w: World, steps: seq<Step>)
    requires Inv(c, w) && LockInv(c, who, w) && Lawful(c) && OrderlyRun(c, who, w, steps)
    ensures LockInv(c, who, Run(c, w, steps))
    decreases steps
  {
    if steps != [] {
      NextKeepsLockInv(c, who, w, steps[0]);
      NextKeepsInv(c, w, steps[0]);
      OrderlyRunKeepsLockInv(c, who, Next(c, w, steps[0]), steps[1..]);
    }
  }

  // ---- main results ---------------------------------------------------------

  /** Mutual exclusion: in every orderly run, each live until-succeeded task holds the lock of its
      key, so two live ones with the same key are the same task. */
  lemma AtMostOneLivePerKey(c: TaskCodec, who: Bytes -> Profile, w: World, steps: seq<Step>, a: Bytes, b: Bytes)
    requires Init(c, w) && LockInv(c, who, w) && Lawful(c) && OrderlyRun(c, who, w, steps)
    requires Live(Run(c, w, steps), a) && Live(Run(c, w, steps), b) && IsUnique(c, a) && IsUnique(c, b)
    requires T(c, a).uniqueScope == T(c, b).uniqueScope == UNTIL_SUCCEEDED && T(c, a).uniqueKey == T(c, b).uniqueKey
    ensures a == b && Locked(c, Run(c, w, steps).q.locks, a)
  {
    OrderlyRunKeepsLockInv(c, who, w, steps);
    var v := Run(c, w, steps);
    assert Locked(c, v.q.locks, a) && Locked(c, v.q.locks, b);
    assert SameTask(c, a, b) && SameTask(c, b, a);
  }

  /** No other copy of the message's task is queued or waiting. */
  ghost predicate OnlyCopy(c: TaskCodec, w: World, e: Entry)
    requires IsUnique(c, e.body)
  {
    && (forall d :: d in w.q.stream && SameTask(c, d.body, e.body) ==> d.id == e.id)
    && (forall i :: i in w.q.delayed ==> !SameTask(c, i.member, e.body))
  }

  /** A settlement that frees the lock keeps exclusion when no other copy is left, and breaks it when
      one is. */
  lemma FreeingSafeIff(c: TaskCodec, who: Bytes -> Profile, w: World, v: World, e: Entry)
    requires LockInv(c, who, w) && e in w.held && IsUnique(c, e.body)
    requires T(c, e.body).uniqueScope == UNTIL_SUCCEEDED && T(c, e.body).id != []
    requires v.q.stream == XDel(w.q.stream, e.id) && v.q.delayed == w.q.delayed && v.held == w.held
    requires v.q.locks == SettleLock(w.q.locks, T(c, e.body).uniqueKey, T(c, e.body).id)
    ensures LockInv(c, who, v) <==> OnlyCopy(c, w, e)
  {
    assert Fitting(c, who, e.body);
    if OnlyCopy(c, w, e) {
      assert NotLive(c, v, T(c, e.body).id);
      ShrinkKeepsLockInv(c, who, w, v);
    } else if d :| d in w.q.stream && SameTask(c, d.body, e.body) && d.id != e.id {
      assert d in v.q.stream && Fitting(c, who, d.body) && !Locked(c, v.q.locks, d.body);
    } else {
      var i :| i in w.q.delayed && SameTask(c, i.member, e.body);
      assert i in v.q.delayed && Fitting(c, who, i.member) && !Locked(c, v.q.locks, i.member);
    }
  }

  /** A completion by a worker that may no longer own the message keeps exclusion if and only if no
      other copy of its task is queued or waiting when it runs. */
  lemma StaleCompleteSafeIff(c: TaskCodec, who: Bytes -> Profile, w: World, e: Entry)
    requires LockInv(c, who, w) && e in w.held && IsUnique(c, e.body)
    requires T(c, e.body).uniqueScope == UNTIL_SUCCEEDED && T(c, e.body).id != []
    ensures LockInv(c, who, SettleHeld(c, w, e, Completed(T(c, e.body)), Limits(0, 0))) <==> OnlyCopy(c, w, e)
  {
    FreeingSafeIff(c, who, w, SettleHeld(c, w, e, Completed(T(c, e.body)), Limits(0, 0)), e);
  }

  /** The same for a late dead-letter move, with any progress on the task and any caps. */
  lemma StaleBurySafeIff(c: TaskCodec, who: Bytes -> Profile, w: World, e: Entry, t: Task, now: int, lim: Limits)
    requires LockInv(c, who, w) && e in w.held && IsUnique(c, e.body) && SettlementOf(c, e.body, DeadLettered(t, now))
    requires T(c, e.body).uniqueScope == UNTIL_SUCCEEDED && T(c, e.body).id != []
    ensures LockInv(c, who, SettleHeld(c, w, e, DeadLettered(t, now), lim)) <==> OnlyCopy(c, w, e)
  {
    FreeingSafeIff(c, who, w, SettleHeld(c, w, e, DeadLettered(t, now), lim), e);
  }

  /** No other copy of the message's task is queued, or waits other than as the member now added. */
  ghost predicate OnlyRequeued(c: TaskCodec, w: World, e: Entry, room: ZSet, body: Bytes)
    requires IsUnique(c, e.body)
  {
    && (forall d :: d in w.q.stream && SameTask(c, d.body, e.body) ==> d.id == e.id)
    && (forall i :: i in room && SameTask(c, i.member, e.body) ==> i.member == body)
  }

  /** A late retry or defer frees no lock. It keeps exclusion if and only if the copy it puts back is
      then the only one, and the task still holds the lock that copy needs. */
  lemma StaleRequeueSafeIff(c: TaskCodec, who: Bytes -> Profile, w: World, e: Entry, t: Task, runAt: int, lim: Limits)
    requires LockInv(c, who, w) && Lawful(c) && e in w.held && IsUnique(c, e.body)
        && SettlementOf(c, e.body, Retried(t, runAt))
    ensures LockInv(c, who, SettleHeld(c, w, e, Retried(t, runAt), lim))
       <==> (OnlyRequeued(c, w, e, MakeRoom(w.q.delayed, lim.delayedMax, true), c.encode(t))
             && Locked(c, w.q.locks, e.body))
    ensures SettleHeld(c, w, e, Deferred(t, runAt), lim) == SettleHeld(c, w, e, Retried(t, runAt), lim)
  {
    var body, room := c.encode(t), MakeRoom(w.q.delayed, lim.delayedMax, true);
    var v := SettleHeld(c, w, e, Retried(t, runAt), lim);
    var back := Item(runAt, body);
    assert c.decode(body).Some? && SameIdentity(c.decode(body).value, t) && SameIdentity(c.decode(e.body).value, t);
    assert Fitting(c, who, e.body) && SameTask(c, body, e.body) && back in v.q.delayed;
    if OnlyRequeued(c, w, e, room, body) && Locked(c, w.q.locks, e.body) {
      RequeueKeepsSingle(c, who, w, v, e, back, room);
    } else if !Locked(c, w.q.locks, e.body) {
      assert !Locked(c, v.q.locks, back.member);
    } else if d :| d in w.q.stream && SameTask(c, d.body, e.body) && d.id != e.id {
      assert d in v.q.stream && SameTask(c, d.body, back.member);
    } else {
      var i :| i in room && SameTask(c, i.member, e.body) && i.member != body;
      assert i in v.q.delayed && SameTask(c, i.member, back.member);
    }
  }

  lemma RequeueKeepsSingle(c: TaskCodec, who: Bytes -> Profile, w: World, v: World, e: Entry, back: Item, room: ZSet)
    requires LockInv(c, who, w) && e in w.held && IsUnique(c, e.body) && SameTask(c, back.member, e.body)
    requires Fitting(c, who, back.member) && Locked(c, w.q.locks, back.member)
    requires OnlyRequeued(c, w, e, room, back.member) && forall i :: i in room ==> i in w.q.delayed
    requires v.q.stream == XDel(w.q.stream, e.id) && v.q.delayed == Add(room, back.score, back.member)
    requires v.q.locks == w.q.locks && v.held == w.held
    ensures LockInv(c, who, v)
  {
    forall i | i in v.q.delayed && SameTask(c, i.member, back.member) ensures i == back {
      if i != back { assert i in room && SameTask(c, i.member, e.body); }
    }
    forall d | d in v.q.stream ensures !SameTask(c, d.body, back.member) {
      assert d in w.q.stream && d.id != e.id;
    }
  }

  /** The run that breaks exclusion: a message is delivered and reclaimed, the second worker
      schedules a retry, then the first one completes it. The lock goes although the retry is
      waiting, and a second task with the same key is admitted. */
  function StaleRun(c: TaskCodec, x: Task, y: Task): seq<Step> { TwoWorkers(c, x) + StaleEnd(c, x, y) }

  function TwoWorkers(c: TaskCodec, x: Task): seq<Step> { [EnqueueUniqueTask(x, 9, 0), Deliver, Reclaim(1)] }

  function StaleEnd(c: TaskCodec, x: Task, y: Task): seq<Step> {
    var e := Entry(1, c.encode(x));
    [Settle(e, Retried(x.(retry := 1), 5), Limits(0, 0)), Settle(e, Completed(x), Limits(0, 0)),
        EnqueueUniqueTask(y, 9, 0)]
  }

  const EMPTY_WORLD := World(State([], 0, 0, map[], [], [], map[], map[]), 0, {}, {}, {}, {}, {})

  lemma {:induction false} RunConcat(c: TaskCodec, w: World, a: seq<Step>, b: seq<Step>)
    ensures Run(c, w, a + b) == Run(c, Run(c, w, a), b)
    decreases a
  {
    if a == [] {
      assert a + b == b;
    } else {
      assert (a + b)[1..] == a[1..] + b;
      RunConcat(c, Next(c, w, a[0]), a[1..], b);
    }
  }

  lemma RunThree(c: TaskCodec, w: World, s0: Step, s1: Step, s2: Step)
    ensures Run(c, w, [s0, s1, s2]) == Next(c, Next(c, Next(c, w, s0), s1), s2)
  {
    assert [s0, s1, s2][1..] == [s1, s2] && [s1, s2][1..] == [s2] && [s2][1..] == [];
    assert Run(c, Next(c, w, s0), [s1, s2]) == Run(c, Next(c, Next(c, w, s0), s1), [s2]);
  }

  lemma TwoWorkersHold(c: TaskCodec, x: Task)
    requires x.uniqueKey != []
    ensures var v := Run(c, EMPTY_WORLD, TwoWorkers(c, x));
            var e := Entry(1, c.encode(x));
            v.held == {e} && v.q.stream == [e] && v.q.delayed == [] && v.q.locks == map[x.uniqueKey := Lock(x.id, 9)]
  {
    var e := Entry(1, c.encode(x));
    var w1 := Next(c, EMPTY_WORLD, EnqueueUniqueTask(x, 9, 0));
    assert w1.q.stream == [e];
    var w2 := Next(c, w1, Deliver);
    assert w2.held == {e} && w2.q.pel == map[1 := 1];
    RunThree(c, EMPTY_WORLD, EnqueueUniqueTask(x, 9, 0), Deliver, Reclaim(1));
  }

  /** The rightful holder's retry leaves the task waiting and its lock in place, which the stale worker's
      completion then deletes. */
  lemma StaleCompletionFrees(c: TaskCodec, w: World, x: Task)
    requires c.decode(c.encode(x)) == Some(x) && IsInt32(x.retry) && |x.lastError| < 0x1_0000_0000
    requires x.id != [] && x.uniqueKey != []
    requires w.held == {Entry(1, c.encode(x))} && w.q.delayed == [] && w.q.locks == map[x.uniqueKey := Lock(x.id, 9)]
    ensures var s := StaleEnd(c, x, x); var v := Next(c, Next(c, w, s[0]), s[1]);
            v.q.delayed == [Item(5, c.encode(x.(retry := 1)))] && v.q.locks == map[]
  {
    var e, s := Entry(1, c.encode(x)), StaleEnd(c, x, x);
    var w1 := Next(c, w, s[0]);
    assert w1.q.delayed == [Item(5, c.encode(x.(retry := 1)))];
    assert w1.held == {e} && w1.q.locks == w.q.locks;
  }

  lemma FreeKeyAdmits(c: TaskCodec, w: World, y: Task)
    requires w.q.locks == map[]
    ensures var v := Next(c, w, EnqueueUniqueTask(y, 9, 0));
            v.q.stream == w.q.stream + [Entry(w.q.lastId + 1, c.encode(y))] && v.q.delayed == w.q.delayed
  {
  }

  lemma StaleEndBreaks(c: TaskCodec, w: World, x: Task, y: Task)
    requires c.decode(c.encode(x)) == Some(x) && IsInt32(x.retry) && |x.lastError| < 0x1_0000_0000
    requires x.id != y.id && x.id != [] && x.uniqueKey == y.uniqueKey != []
    requires w.held == {Entry(1, c.encode(x))} && w.q.delayed == [] && w.q.locks == map[x.uniqueKey := Lock(x.id, 9)]
    ensures var v := Run(c, w, StaleEnd(c, x, y)); Live(v, c.encode(x.(retry := 1))) && Live(v, c.encode(y))
  {
    var s, again := StaleEnd(c, x, y), Item(5, c.encode(x.(retry := 1)));
    StaleCompletionFrees(c, w, x);
    var w2 := Next(c, Next(c, w, s[0]), s[1]);
    FreeKeyAdmits(c, w2, y);
    RunThree(c, w, s[0], s[1], s[2]);
    var v := Next(c, w2, s[2]);
    assert v.q.delayed[0] == again && v.q.stream[|v.q.stream| - 1] == Entry(w2.q.lastId + 1, c.encode(y));
  }

  lemma StaleRunBreaksExclusion(c: TaskCodec, x: Task, y: Task)
    requires c.decode(c.encode(x)) == Some(x) && IsInt32(x.retry) && |x.lastError| < 0x1_0000_0000
    requires x.id != y.id && x.id != [] && x.uniqueKey == y.uniqueKey != []
    ensures var v := Run(c, EMPTY_WORLD, StaleRun(c, x, y));
            Live(v, c.encode(x.(retry := 1))) && Live(v, c.encode(y))
  {
    TwoWorkersHold(c, x);
    RunConcat(c, EMPTY_WORLD, TwoWorkers(c, x), StaleEnd(c, x, y));
    StaleEndBreaks(c, Run(c, EMPTY_WORLD, TwoWorkers(c, x)), x, y);
  }

  /** The same with real encodings: two tasks sharing key "7" end up live together. */
  lemma StaleCompletionLetsSecondIn()
    ensures var x := EMPTY_TASK.(id := [1], uniqueKey := [7]);
            var y := EMPTY_TASK.(id := [2], uniqueKey := [7]);
            var v := Run(BINARY, EMPTY_WORLD, StaleRun(BINARY, x, y));
            Live(v, Encode(x.(retry := 1))) && Live(v, Encode(y))
  {
    var x := EMPTY_TASK.(id := [1], uniqueKey := [7]);
    RoundTrip(x, []);
    assert Encode(x) + [] == Encode(x);
    StaleRunBreaksExclusion(BINARY, x, EMPTY_TASK.(id := [2], uniqueKey := [7]));
  }
}
