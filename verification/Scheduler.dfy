/** The delayed scheduler: draining due tasks in batches, choosing how long to sleep, and deciding
    which wakeup messages to act on. */
module Scheduler {
  import opened Bytes
  import opened ZSets
  import opened Codec
  import opened Broker

  const BATCH: nat := 100
  const MAX_SLEEP := 10000
  const MIN_SLEEP := 1

  /** The members that are due, in the order they are promoted. */
  function Due(z: ZSet, now: int): ZSet { ByScore(z, 0, now) }

  // ---- batches compose ------------------------------------------------------

  lemma {:induction false} RemoveEachConcat(z: ZSet, a: ZSet, b: ZSet)
    ensures RemoveEach(z, a + b) == RemoveEach(RemoveEach(z, a), b)
    decreases a
  {
    if a == [] {
      assert a + b == b;
    } else {
      assert (a + b)[1..] == a[1..] + b;
      RemoveEachConcat(Remove(z, a[0].member), a[1..], b);
    }
  }

  lemma EntriesConcat(a: ZSet, b: ZSet, last: nat)
    ensures Entries(a + b, last) == Entries(a, last) + Entries(b, last + |a|)
  {
  }

  lemma AppendedConcat(stream: seq<Entry>, a: ZSet, b: ZSet, last: nat)
    ensures stream + Entries(a + b, last) == stream + Entries(a, last) + Entries(b, last + |a|)
  {
    EntriesConcat(a, b, last);
    ConcatAssoc(stream, Entries(a, last), Entries(b, last + |a|));
  }

  lemma MoveConcat(s: State, a: ZSet, b: ZSet)
    ensures Move(s, a + b) == Move(Move(s, a), b)
  {
    var once, twice := Move(s, a + b), Move(Move(s, a), b);
    assert once.delayed == twice.delayed by { RemoveEachConcat(s.delayed, a, b); }
    assert once.stream == twice.stream by { AppendedConcat(s.stream, a, b, s.lastId); }
  }

  /** After the first k due members left, the rest are due in the same order. */
  lemma DueAfter(z: ZSet, now: int, k: nat)
    requires Valid(z) && k <= |Due(z, now)|
    ensures Due(RemoveEach(z, Due(z, now)[..k]), now) == Due(z, now)[k..]
  {
    var due := Due(z, now);
    var rest := RemoveEach(z, due[..k]);
    ByScoreValid(z, 0, now);
    RemoveEachValid(z, due[..k]);
    ByScoreValid(rest, 0, now);
    SplitAt(due, k);
    Canonical(Due(rest, now), due[k..]);
  }

  lemma ReadyAdds(s: State, t: State, now: int, n: nat, m: nat, hard: int)
    requires Ready(s, now, n, hard) == n
    requires |Due(t.delayed, now)| == |Due(s.delayed, now)| - n && |t.stream| == |s.stream| + n
    ensures Ready(s, now, n + m, hard) == n + Ready(t, now, m, hard)
  {
  }

  lemma SliceInTwo(due: ZSet, n: nat, k: nat)
    requires n + k <= |due|
    ensures due[..n + k] == due[..n] + due[n..][..k]
  {
  }

  /** Contents of two consecutive batches, the first one full. */
  lemma BatchesAdd(s: State, now: int, n: nat, m: nat, hard: int)
    requires Valid(s.delayed) && |Promoted(s, now, n, hard)| == n
    ensures var t := Promote(s, now, n, hard);
            Promoted(s, now, n + m, hard) == Promoted(s, now, n, hard) + Promoted(t, now, m, hard)
  {
    var t := Promote(s, now, n, hard);
    DueAfter(s.delayed, now, n);
    ReadyAdds(s, t, now, n, m, hard);
    SliceInTwo(Due(s.delayed, now), n, Ready(t, now, m, hard));
  }

  /** A full batch followed by another is one batch of both sizes. */
  lemma BatchesCompose(s: State, now: int, n: nat, m: nat, hard: int)
    requires Valid(s.delayed) && |Promoted(s, now, n, hard)| == n
    ensures Promote(Promote(s, now, n, hard), now, m, hard) == Promote(s, now, n + m, hard)
  {
    BatchesAdd(s, now, n, m, hard);
    MoveConcat(s, Promoted(s, now, n, hard), Promoted(Promote(s, now, n, hard), now, m, hard));
  }

  /** Once a batch comes back short, a larger batch moves nothing more. */
  lemma ShortBatchIsAll(s: State, now: int, n: nat, hard: int)
    requires |Promoted(s, now, n, hard)| < n
    ensures Promote(s, now, n, hard) == Promote(s, now, |Due(s.delayed, now)|, hard)
  {
  }

  /** A short batch means that nothing is left to move: everything due is gone, or the stream is full. */
  lemma ShortBatchDrains(s: State, now: int, n: nat, hard: int)
    requires Valid(s.delayed) && |Promoted(s, now, n, hard)| < n
    ensures var t := Promote(s, now, n, hard); Due(t.delayed, now) == [] || StreamFull(t, hard)
  {
    var k := |Promoted(s, now, n, hard)|;
    DueAfter(s.delayed, now, k);
  }

  // ---- cron rescheduling ------------------------------------------------------

  /** Cron specs and the encoding of a job's next run. */
  datatype Cron = Cron(next: (Bytes, int) -> Option<int>, build: (Task, int) -> Bytes)

  /** The next run of a cron job lies after the present. */
  ghost predicate Later(cron: Cron, now: int) {
    forall spec: Bytes :: cron.next(spec, now).Some? ==> cron.next(spec, now).value > now
  }

  predicate IsCron(member: Bytes) { Decode(member).Some? && Decode(member).value.cronSpec != [] }

  predicate NoCron(z: ZSet) { forall x :: x in z ==> !IsCron(x.member) }

  lemma FewerItems(y: ZSet, z: ZSet)
    requires Valid(y) && Valid(z) && forall x :: x in y ==> x in z
    ensures |y| <= |z|
  {
    MembersSize(y);
    MembersSize(z);
    SubsetSize(Members(y), Members(z));
  }

  /** What rescheduling one promoted member makes of the delayed set. */
  function Rescheduled(z: ZSet, member: Bytes, now: int, delayedMax: int, cron: Cron): ZSet {
    if !IsCron(member) then z
    else
      var t := Decode(member).value;
      var next := cron.next(t.cronSpec, now);
      if next.None? then z else Add(MakeRoom(z, delayedMax, true), next.value, cron.build(t, next.value))
  }

  /** The next run lies ahead, so nothing becomes due; and without a cap nothing leaves the set. */
  lemma RescheduledAddsNothingDue(z: ZSet, member: Bytes, now: int, delayedMax: int, cron: Cron)
    requires Valid(z) && Later(cron, now)
    ensures var r := Rescheduled(z, member, now, delayedMax, cron);
            && Valid(r) && (forall x :: x in Due(r, now) ==> x in Due(z, now))
            && (delayedMax <= 0 ==> Members(z) <= Members(r))
  {
    if IsCron(member) {
      var t := Decode(member).value;
      var next := cron.next(t.cronSpec, now);
      if next.Some? {
        var room := MakeRoom(z, delayedMax, true);
        SplitAt(z, |room|);
        assert room == z[..|room|];
        AddValid(room, next.value, cron.build(t, next.value));
      }
    }
  }

  /** Reschedule: the system path, which makes room by dropping the farthest members. */
  method Reschedule(q: RedisQueue, t: Task, now: int, delayedMax: int, cron: Cron)
    modifies q`delayed
    ensures var next := cron.next(t.cronSpec, now);
            q.delayed == if t.cronSpec == [] || next.None? then old(q.delayed)
                         else Add(MakeRoom(old(q.delayed), delayedMax, true), next.value, cron.build(t, next.value))
  {
    if t.cronSpec == [] { return; }
    var next := cron.next(t.cronSpec, now);
    if next.None? { return; }
    q.DropFarthest(delayedMax, true);
    q.delayed := Add(q.delayed, next.value, cron.build(t, next.value));
  }

  /** A member waits for a run time after `now`. */
  ghost predicate Waits(z: ZSet, m: Bytes, now: int) { exists x :: x in z && x.member == m && x.score > now }

  /** Whatever waits in z still does in r. */
  ghost predicate StillWaits(z: ZSet, r: ZSet, now: int) { forall m :: Waits(z, m, now) ==> Waits(r, m, now) }

  /** Every cron job among these has its next run waiting, if its spec has one. */
  ghost predicate NextRuns(moved: ZSet, now: int, cron: Cron, z: ZSet) {
    forall x :: x in moved && IsCron(x.member) ==>
      var t := Decode(x.member).value;
      var next := cron.next(t.cronSpec, now);
      next.Some? ==> Waits(z, cron.build(t, next.value), now)
  }

  /** Without a cap rescheduling takes nothing's future run away, and gives a cron job its next. */
  lemma RescheduledWaits(z: ZSet, member: Bytes, now: int, cron: Cron, delayedMax: int)
    requires Later(cron, now)
    ensures var r := Rescheduled(z, member, now, delayedMax, cron);
            delayedMax <= 0 ==> StillWaits(z, r, now) && NextRuns([Item(now, member)], now, cron, r)
  {
    if delayedMax <= 0 && IsCron(member) {
      var t := Decode(member).value;
      var next := cron.next(t.cronSpec, now);
      if next.Some? {
        var r := Add(z, next.value, cron.build(t, next.value));
        assert Item(next.value, cron.build(t, next.value)) in r;
        forall m | Waits(z, m, now) ensures Waits(r, m, now) {
          var x :| x in z && x.member == m && x.score > now;
          assert x.member != cron.build(t, next.value) ==> x in r;
        }
      }
    }
  }

  lemma NextRunsSnoc(moved: ZSet, x: Item, now: int, cron: Cron, z: ZSet, r: ZSet)
    requires NextRuns(moved, now, cron, z) && StillWaits(z, r, now)
    requires NextRuns([Item(now, x.member)], now, cron, r)
    ensures NextRuns(moved + [x], now, cron, r)
  {
    var xs := [Item(now, x.member)];
    assert xs[0] in xs;
  }

  lemma NextRunsConcat(a: ZSet, b: ZSet, now: int, cron: Cron, z: ZSet, r: ZSet)
    requires NextRuns(a, now, cron, z) && StillWaits(z, r, now) && NextRuns(b, now, cron, r)
    ensures NextRuns(a + b, now, cron, r)
  {
  }

  method RescheduleAll(q: RedisQueue, moved: ZSet, now: int, delayedMax: int, cron: Cron)
    requires Valid(q.delayed) && Later(cron, now)
    modifies q`delayed
    ensures Valid(q.delayed)
    ensures forall x :: x in Due(q.delayed, now) ==> x in Due(old(q.delayed), now)
    ensures delayedMax <= 0 ==> Members(old(q.delayed)) <= Members(q.delayed)
    ensures NoCron(moved) ==> q.delayed == old(q.delayed)
    ensures delayedMax <= 0 ==> StillWaits(old(q.delayed), q.delayed, now) && NextRuns(moved, now, cron, q.delayed)
  {
    for i := 0 to |moved|
      invariant Valid(q.delayed)
      invariant forall x :: x in Due(q.delayed, now) ==> x in Due(old(q.delayed), now)
      invariant delayedMax <= 0 ==> Members(old(q.delayed)) <= Members(q.delayed)
      invariant NoCron(moved) ==> q.delayed == old(q.delayed)
      invariant delayedMax <= 0 ==> StillWaits(old(q.delayed), q.delayed, now)
      invariant delayedMax <= 0 ==> NextRuns(moved[..i], now, cron, q.delayed)
    {
      assert moved[..i + 1] == moved[..i] + [moved[i]];
      RescheduledAddsNothingDue(q.delayed, moved[i].member, now, delayedMax, cron);
      RescheduledWaits(q.delayed, moved[i].member, now, cron, delayedMax);
      if delayedMax <= 0 {
        NextRunsSnoc(moved[..i], moved[i], now, cron, q.delayed, Rescheduled(q.delayed, moved[i].member, now,
            delayedMax, cron));
      }
      assert moved[i] in moved;
      var t := Decode(moved[i].member);
      if t.Some? && t.value.cronSpec != [] {
        Reschedule(q, t.value, now, delayedMax, cron);
      }
    }
    assert moved[..|moved|] == moved;
  }

  // ---- draining -----------------------------------------------------------------

  /** One script call: what it moves was due, and exactly that much less is due afterwards. */
  lemma DrainStep(s: State, now: int, hard: int)
    requires Valid(s.delayed)
    ensures var t, moved := Promote(s, now, BATCH, hard), Promoted(s, now, BATCH, hard);
            && Valid(t.delayed)
            && (forall x :: x in moved || x in Due(t.delayed, now) ==> x in Due(s.delayed, now))
            && |Due(t.delayed, now)| == |Due(s.delayed, now)| - |moved|
            && (|moved| < BATCH ==> Due(t.delayed, now) == [] || StreamFull(t, hard))
  {
    var moved := Promoted(s, now, BATCH, hard);
    RemoveEachValid(s.delayed, moved);
    DueAfter(s.delayed, now, |moved|);
    if |moved| < BATCH { ShortBatchDrains(s, now, BATCH, hard); }
  }

  /** The last, short call of a run of full batches completes one promotion of everything due. */
  lemma LastBatch(s0: State, s: State, now: int, total: nat, hard: int)
    requires Valid(s0.delayed) && |Promoted(s0, now, total, hard)| == total && s == Promote(s0, now, total, hard)
    requires |Promoted(s, now, BATCH, hard)| < BATCH
    ensures Promote(s, now, BATCH, hard) == Promote(s0, now, |Due(s0.delayed, now)|, hard)
  {
    BatchesCompose(s0, now, total, BATCH, hard);
    DueAfter(s0.delayed, now, total);
    ShortBatchIsAll(s0, now, total + BATCH, hard);
  }

  lemma FullBatch(s0: State, s: State, now: int, total: nat, hard: int)
    requires Valid(s0.delayed) && |Promoted(s0, now, total, hard)| == total && s == Promote(s0, now, total, hard)
    requires |Promoted(s, now, BATCH, hard)| == BATCH
    ensures |Promoted(s0, now, total + BATCH, hard)| == total + BATCH
    ensures Promote(s, now, BATCH, hard) == Promote(s0, now, total + BATCH, hard)
  {
    BatchesCompose(s0, now, total, BATCH, hard);
    DueAfter(s0.delayed, now, total);
  }

  /** Every member that was waiting still is, or is in the stream, which only grew at its end. */
  ghost predicate Kept(s: State, t: State) {
    && s.stream <= t.stream
    && forall m :: m in Members(s.delayed) ==> m in Members(t.delayed) || exists e :: e in t.stream && e.body == m
  }

  lemma PromoteKept(s: State, now: int, batch: nat, hard: int)
    requires Valid(s.delayed)
    ensures Kept(s, Promote(s, now, batch, hard))
  {
    var t, moved := Promote(s, now, batch, hard), Promoted(s, now, batch, hard);
    PromoteMovesEarliestDue(s, now, batch, hard);
    forall m | m in Members(moved) ensures exists e :: e in t.stream && e.body == m {
      var k :| 0 <= k < |moved| && moved[k].member == m;
      assert t.stream[|s.stream| + k] in t.stream;
    }
  }

  lemma RescheduleKept(s0: State, s: State, z: ZSet)
    requires Kept(s0, s) && Members(s.delayed) <= Members(z)
    ensures Kept(s0, s.(delayed := z))
  {
  }

  lemma NothingPromoted(s: State, now: int, hard: int)
    ensures Promoted(s, now, 0, hard) == [] && Promote(s, now, 0, hard) == s
  {
    assert Entries([], s.lastId) == [] && s.stream + [] == s.stream;
  }

  lemma KeptTrans(s: State, t: State, u: State)
    requires Kept(s, t) && Kept(t, u)
    ensures Kept(s, u)
  {
    forall m | m in Members(s.delayed) ensures m in Members(u.delayed) || exists e :: e in u.stream && e.body == m {
      if e :| e in t.stream && e.body == m { assert e in u.stream; }
    }
  }

  /** From s to t these were promoted: they were due and are what the stream grew by, in order; nothing
      became due. Without a cap no member was lost, and every cron job among them has its next run waiting. */
  ghost predicate Drains(s: State, t: State, moved: ZSet, now: int, delayedMax: int, cron: Cron) {
    && Valid(t.delayed)
    && t.stream == s.stream + Entries(moved, s.lastId) && t.lastId == s.lastId + |moved|
    && (forall x :: x in moved || x in Due(t.delayed, now) ==> x in Due(s.delayed, now))
    && |moved| + |Due(t.delayed, now)| <= |Due(s.delayed, now)|
    && (delayedMax <= 0 ==>
          Kept(s, t) && StillWaits(s.delayed, t.delayed, now) && NextRuns(moved, now, cron, t.delayed))
  }

  lemma DrainsNone(s: State, now: int, delayedMax: int, cron: Cron)
    requires Valid(s.delayed)
    ensures Drains(s, s, [], now, delayedMax, cron)
  {
    assert s.stream + Entries([], s.lastId) == s.stream;
  }

  lemma DrainsOn(s: State, t: State, u: State, a: ZSet, b: ZSet, now: int, delayedMax: int, cron: Cron)
    requires Drains(s, t, a, now, delayedMax, cron) && Drains(t, u, b, now, delayedMax, cron)
    ensures Drains(s, u, a + b, now, delayedMax, cron)
  {
    AppendedConcat(s.stream, a, b, s.lastId);
    if delayedMax <= 0 {
      KeptTrans(s, t, u);
      NextRunsConcat(a, b, now, cron, t.delayed, u.delayed);
    }
  }

  /** One turn of the drain loop: a script call, then the next runs of the cron jobs it moved. */
  method DrainOnce(q: RedisQueue, now: int, hard: int, delayedMax: int, cron: Cron) returns (elements: ZSet)
    requires Valid(q.delayed) && Later(cron, now)
    modifies q
    ensures elements == Promoted(old(q.Snapshot()), now, BATCH, hard)
    ensures Drains(old(q.Snapshot()), q.Snapshot(), elements, now, delayedMax, cron)
    ensures |elements| < BATCH ==> Due(q.delayed, now) == [] || StreamFull(q.Snapshot(), hard)
    ensures NoCron(elements) ==> q.Snapshot() == Promote(old(q.Snapshot()), now, BATCH, hard)
  {
    ghost var s := q.Snapshot();
    elements := q.PromoteScript(now, BATCH, hard);
    ghost var t := q.Snapshot();
    DrainStep(s, now, hard);
    PromoteKept(s, now, BATCH, hard);
    RescheduleAll(q, elements, now, delayedMax, cron);
    ByScoreValid(q.delayed, 0, now);
    ByScoreValid(t.delayed, 0, now);
    FewerItems(Due(q.delayed, now), Due(t.delayed, now));
    if delayedMax <= 0 {
      RescheduleKept(s, t, q.delayed);
      LaterStays(s, now, hard);
    }
  }

  lemma LaterStays(s: State, now: int, hard: int)
    requires Valid(s.delayed)
    ensures StillWaits(s.delayed, Promote(s, now, BATCH, hard).delayed, now)
  {
    var moved := Promoted(s, now, BATCH, hard);
    forall x | x in s.delayed && x.score > now ensures x in RemoveEach(s.delayed, moved) {
      forall y | y in moved ensures y.member != x.member {
        assert y in Due(s.delayed, now);
        if y.member == x.member { SameMember(s.delayed, x, y); }
      }
    }
  }

  /** The drain loop at a fixed clock; `fails(i)` says whether the i-th script call errors. It ends, and
      unless a call failed it leaves nothing due or a full stream. What it moves was due and is what the
      stream grew by, in order. Without a cap no member is lost and every cron job among the moved has
      its next run waiting.
      Batching is invisible: without cron jobs among the due members the whole loop is one promotion of
      everything due. */
  method PromoteReadyTasks(q: RedisQueue, now: int, hard: int, delayedMax: int, cron: Cron, fails: nat -> bool)
    returns (ok: bool, ghost moved: ZSet)
    requires Valid(q.delayed) && Later(cron, now)
    modifies q
    ensures Drains(old(q.Snapshot()), q.Snapshot(), moved, now, delayedMax, cron)
    ensures ok ==> Due(q.delayed, now) == [] || StreamFull(q.Snapshot(), hard)
    ensures ok && NoCron(Due(old(q.delayed), now)) ==>
      q.Snapshot() == Promote(old(q.Snapshot()), now, |Due(old(q.delayed), now)|, hard)
  {
    ghost var s0 := q.Snapshot();
    ghost var plain := NoCron(Due(q.delayed, now));
    moved := [];
    NothingPromoted(s0, now, hard);
    DrainsNone(s0, now, delayedMax, cron);
    var round: nat := 0;
    while true
      invariant Drains(s0, q.Snapshot(), moved, now, delayedMax, cron)
      invariant plain ==> |Promoted(s0, now, |moved|, hard)| == |moved|
      invariant plain ==> q.Snapshot() == Promote(s0, now, |moved|, hard)
      decreases |Due(q.delayed, now)|
    {
      if fails(round) { return false, moved; }
      ghost var s, before := q.Snapshot(), moved;
      var elements := DrainOnce(q, now, hard, delayedMax, cron);
      DrainsOn(s0, s, q.Snapshot(), before, elements, now, delayedMax, cron);
      moved := before + elements;
      if plain {
        if |elements| < BATCH {
          LastBatch(s0, s, now, |before|, hard);
        } else {
          FullBatch(s0, s, now, |before|, hard);
        }
      }
      if |elements| < BATCH { return true, moved; }
      round := round + 1;
    }
  }

  // ---- how long to sleep ----------------------------------------------------------

  /** calculateSleep, from the head of the delayed set. */
  function Sleep(z: ZSet, now: int): int {
    if z == [] then MAX_SLEEP
    else if z[0].score <= now then MIN_SLEEP
    else if z[0].score - now > MAX_SLEEP then MAX_SLEEP
    else z[0].score - now
  }

  /** The sleep is between 1 ms and 10 s and never runs past the moment any member falls due; and unless
      it is the full 10 s, some member is due when it ends, in the very millisecond where it is longer
      than 1 ms. */
  lemma SleepNeverOvershoots(z: ZSet, now: int)
    requires Valid(z)
    ensures MIN_SLEEP <= Sleep(z, now) <= MAX_SLEEP
    ensures forall x :: x in z ==> now + Sleep(z, now) <= MaxInt(x.score, now + MIN_SLEEP)
    ensures Sleep(z, now) < MAX_SLEEP ==> exists x :: x in z && x.score <= now + Sleep(z, now)
    ensures MIN_SLEEP < Sleep(z, now) < MAX_SLEEP ==> exists x :: x in z && x.score == now + Sleep(z, now)
  {
    forall x | x in z ensures z[0].score <= x.score {
      var i :| 0 <= i < |z| && z[i] == x;
      assert i > 0 ==> Before(z[0], z[i]);
    }
    if z != [] { assert z[0] in z; }
  }

  function MaxInt(a: int, b: int): int { if a >= b then a else b }

  /** The head of a valid set has its lowest score. */
  lemma HeadIsEarliest(z: ZSet, x: Item)
    requires Valid(z) && x in z
    ensures z[0].score <= x.score
  {
    var i :| 0 <= i < |z| && z[i] == x;
    assert i > 0 ==> Before(z[0], z[i]);
  }

  /** Right after a drain the scheduler polls again in 1 ms exactly when some member falls due then, some
      member has a run time before the epoch, which no drain moves, or the hard limit held back part of
      what was due. */
  lemma ShortestSleepIff(s: State, now: int, hard: int)
    requires Valid(s.delayed) && now >= 0
    ensures var due := Due(s.delayed, now);
            Sleep(Promote(s, now, |due|, hard).delayed, now) == MIN_SLEEP <==>
                   || (exists x :: x in s.delayed && (x.score < 0 || x.score == now + MIN_SLEEP))
                   || (due != [] && hard > 0 && |s.stream| + |due| > hard)
  {
    var due := Due(s.delayed, now);
    var k := Ready(s, now, |due|, hard);
    var z := Promote(s, now, |due|, hard).delayed;
    RemoveEachValid(s.delayed, due[..k]);
    DueAfter(s.delayed, now, k);
    assert Due(z, now) == due[k..];
    assert k < |due| <==> due != [] && hard > 0 && |s.stream| + |due| > hard;
    forall x | x in s.delayed && !(0 <= x.score <= now) ensures x in z {
      forall y | y in due[..k] ensures y.member != x.member {
        assert y in due;
        if y.member == x.member { SameMember(s.delayed, x, y); }
      }
    }
    if k < |due| {
      assert due[k..][0] in Due(z, now);
      HeadIsEarliest(z, due[k]);
    } else {
      forall x | x in z ensures x in s.delayed && !(0 <= x.score <= now) {
        assert x !in Due(z, now);
      }
    }
    forall x | x in z ensures z[0].score <= x.score { HeadIsEarliest(z, x); }
    if z != [] { assert z[0] in z; }
  }

  function MoveRounds(s: State, nows: seq<int>, batch: nat, hard: int): State
    decreases nows
  {
    if nows == [] then s else MoveRounds(Promote(s, nows[0], batch, hard), nows[1..], batch, hard)
  }

  /** A member with a run time before the epoch keeps the scheduler polling every millisecond for
      good, whatever the clocks, batches and limits of its promote calls. */
  lemma {:induction false} NegativeHeadPollsForever(s: State, nows: seq<int>, batch: nat, hard: int, x: Item, now: int)
    requires Valid(s.delayed) && x in s.delayed && x.score < 0 <= now
    ensures var z := MoveRounds(s, nows, batch, hard).delayed; x in z && Sleep(z, now) == MIN_SLEEP
    decreases nows
  {
    if nows == [] {
      HeadIsEarliest(s.delayed, x);
    } else {
      NegativeScoreNeverPromoted(s, nows[0], batch, hard, x);
      RemoveEachValid(s.delayed, Promoted(s, nows[0], batch, hard));
      NegativeHeadPollsForever(Promote(s, nows[0], batch, hard), nows[1..], batch, hard, x, now);
    }
  }

  // ---- the wakeup rule -----------------------------------------------------------

  /** Draining: promoting, about to look at the head. Peeked: the sleep was computed from the head at
      clock `at`. Asleep: nextWakeupMs is `until`, set at clock `armed` from a look at clock `at`. */
  datatype Phase = Draining | Peeked(sleep: int, at: int) | Asleep(until: int, at: int, armed: int)

  /** The poll interval, the delayed set, the producers between their ZADD and their PUBLISH, the
      subscription's queued messages and the scheduler goroutine. */
  datatype Clockwork = Clockwork(poll: int, delayed: ZSet, publishing: multiset<int>, channel: seq<int>, phase: Phase)

  /** Peek looks at the head of the delayed set; PeekFails is the same round trip in error, after which
      the scheduler sleeps its poll interval. */
  datatype Tick =
    | Zadd(score: int, member: Bytes)
    | Publish(score: int)
    | Leave(member: Bytes)
    | Peek(now: int)
    | PeekFails(now: int)
    | Arm(now: int)
    | TimerFires
    | Receive
    | PublishFails(score: int)
    | Resubscribe

  function Turn(c: Clockwork, a: Tick): Clockwork {
    match a
    case Zadd(score, member) =>
      c.(delayed := Add(c.delayed, score, member), publishing := c.publishing + multiset{score})
    case Publish(score) =>
      if score in c.publishing then c.(publishing := c.publishing - multiset{score}, channel := c.channel + [score])
          else c
    case Leave(member) => c.(delayed := Remove(c.delayed, member))
    case Peek(now) => if c.phase.Draining? then c.(phase := Peeked(Sleep(c.delayed, now), now)) else c
    case PeekFails(now) => if c.phase.Draining? then c.(phase := Peeked(c.poll, now)) else c
    case Arm(now) =>
      if c.phase.Peeked? && c.phase.at <= now then c.(phase := Asleep(now + c.phase.sleep, c.phase.at, now)) else c
    case TimerFires => if c.phase.Asleep? then c.(phase := Draining) else c
    case Receive =>
      if c.phase.Asleep? && c.channel != [] then
        c.(channel := c.channel[1..], phase := if c.channel[0] >= c.phase.until then c.phase else Draining)
      else c
    case PublishFails(score) => c.(publishing := c.publishing - multiset{score})
    case Resubscribe => c.(channel := [])
  }

  function Turns(c: Clockwork, run: seq<Tick>): Clockwork
    decreases run
  {
    if run == [] then c else Turns(Turn(c, run[0]), run[1..])
  }

  /** Nobody is about to announce this run time, so the scheduler must already know it. */
  predicate Known(c: Clockwork, score: int) {
    match c.phase
    case Draining => true
    case Peeked(sleep, at) => at + sleep <= MaxInt(score, at + MIN_SLEEP)
    case Asleep(until, at, armed) => until <= MaxInt(score, at + MIN_SLEEP) + (armed - at)
  }

  ghost predicate Announced(c: Clockwork) {
    && Valid(c.delayed)
    && (c.phase.Asleep? ==> c.phase.at <= c.phase.armed)
    && (forall x :: x in c.delayed ==> x.score in c.publishing || x.score in c.channel || Known(c, x.score))
  }

  /** What a tick may lose. A refreshed subscription drops the queued announcements, a failed PUBLISH
      its own, and a failed peek forgets the head: each is harmless exactly when no waiting member
      depended on what is lost. */
  ghost predicate Harmless(c: Clockwork, a: Tick) {
    match a
    case Resubscribe => forall x :: x in c.delayed ==> x.score in c.publishing || Known(c, x.score)
    case PublishFails(score) =>
      (exists x :: x in c.delayed && x.score == score) ==>
        c.publishing[score] > 1 || score in c.channel || Known(c, score)
    case PeekFails(now) =>
      c.phase.Draining? ==> forall x :: x in c.delayed ==>
        x.score in c.publishing || x.score in c.channel || now + c.poll <= MaxInt(x.score, now + MIN_SLEEP)
    case _ => true
  }

  lemma LossKeepsAnnouncedIff(c: Clockwork, a: Tick)
    requires Announced(c) && (a.Resubscribe? || a.PublishFails? || a.PeekFails?)
    ensures Announced(Turn(c, a)) <==> Harmless(c, a)
  {
    if a.PublishFails? {
      forall x | x in c.delayed && x.score != a.score ensures x.score in Turn(c, a).publishing
          <==> x.score in c.publishing {}
      assert a.score in Turn(c, a).publishing <==> c.publishing[a.score] > 1;
    }
  }

  /** Every announcement is where the scheduler will find it after a tick if and only if the tick was
      harmless; all ticks that lose nothing are. */
  lemma TurnKeepsAnnouncedIff(c: Clockwork, a: Tick)
    requires Announced(c)
    ensures Announced(Turn(c, a)) <==> Harmless(c, a)
  {
    match a
    case Zadd(score, member) => AddValid(c.delayed, score, member);
    case Leave(member) => RemoveValid(c.delayed, member);
    case Peek(now) => SleepNeverOvershoots(c.delayed, now);
    case Receive => ReceiveKeepsAnnounced(c);
    case Publish(_) =>
    case Arm(_) =>
    case TimerFires =>
    case _ => LossKeepsAnnouncedIff(c, a);
  }

  /** A sleeping scheduler takes one message at a time and gets up for it exactly when it announces a run
      time before the end of the sleep; otherwise it sleeps on as before. */
  lemma WakesOnlyForEarlier(c: Clockwork)
    requires c.phase.Asleep? && c.channel != []
    ensures var d := Turn(c, Receive);
            && (d.phase.Draining? <==> c.channel[0] < c.phase.until) && (!d.phase.Draining? ==> d.phase == c.phase)
            && [c.channel[0]] + d.channel == c.channel && d.delayed == c.delayed && d.publishing == c.publishing
  {
    assert [c.channel[0]] + c.channel[1..] == c.channel;
  }

  lemma ReceiveKeepsAnnounced(c: Clockwork)
    requires Announced(c)
    ensures Announced(Turn(c, Receive))
  {
    if c.phase.Asleep? && c.channel != [] {
      assert c.channel == [c.channel[0]] + c.channel[1..];
    }
  }

  ghost predicate HarmlessRun(c: Clockwork, run: seq<Tick>)
    decreases run
  {
    run == [] || (Harmless(c, run[0]) && HarmlessRun(Turn(c, run[0]), run[1..]))
  }

  lemma {:induction false} TurnsKeepAnnounced(c: Clockwork, run: seq<Tick>)
    requires Announced(c) && HarmlessRun(c, run)
    ensures Announced(Turns(c, run))
    decreases run
  {
    if run != [] {
      TurnKeepsAnnouncedIff(c, run[0]);
      TurnsKeepAnnounced(Turn(c, run[0]), run[1..]);
    }
  }

  /** Nothing is lost in the run. */
  predicate Reliable(run: seq<Tick>) { forall a :: a in run ==> !a.PublishFails? && !a.Resubscribe? && !a.PeekFails? }

  /** Reliable runs are harmless from any start: no announcement is lost where nothing is. */
  lemma {:induction false} ReliableIsHarmless(c: Clockwork, run: seq<Tick>)
    requires Reliable(run)
    ensures HarmlessRun(c, run)
    decreases run
  {
    if run != [] { ReliableIsHarmless(Turn(c, run[0]), run[1..]); }
  }

  /** No wakeup is missed: in every run whose losses are harmless, whenever the scheduler sleeps with no
      announcement outstanding, it will wake no later than any member's run time (or 1 ms after it last
      looked), up to the time it took from looking to arming. */
  lemma NoMissedWakeup(c: Clockwork, run: seq<Tick>, x: Item)
    requires Announced(c) && HarmlessRun(c, run)
    requires var d := Turns(c, run); d.phase.Asleep? && d.publishing == multiset{} && d.channel == [] && x in d.delayed
    ensures var p := Turns(c, run).phase; p.until <= MaxInt(x.score, p.at + MIN_SLEEP) + (p.armed - p.at)
  {
    TurnsKeepAnnounced(c, run);
  }

  predicate Bounded(c: Clockwork) {
    match c.phase
    case Draining => true
    case Peeked(sleep, at) => Min(MIN_SLEEP, c.poll) <= sleep <= MaxInt(MAX_SLEEP, c.poll)
    case Asleep(until, at, armed) =>
      armed + Min(MIN_SLEEP, c.poll) <= until <= armed + MaxInt(MAX_SLEEP, c.poll)
  }

  /** In every run at all, losses included, a sleep ends within 10 s of being armed, or within the poll
      interval where that is longer. */
  lemma {:induction false} SleepIsBounded(c: Clockwork, run: seq<Tick>)
    requires Bounded(c)
    ensures Bounded(Turns(c, run))
    decreases run
  {
    if run != [] { SleepIsBounded(Turn(c, run[0]), run[1..]); }
  }

  /** Why the messages matter: the subscription is refreshed without another look at the set, so an
      announcement lost with it leaves a task due at 5 waiting until 10000. */
  lemma LostMessageOversleeps(m: Bytes, poll: int)
    ensures var c := Clockwork(poll, [], multiset{}, [], Draining);
            var run := [Peek(0), Arm(0), Zadd(5, m), Publish(5), Resubscribe];
            var d := Turns(c, run);
            Announced(c) && d == Clockwork(poll, [Item(5, m)], multiset{}, [], Asleep(10000, 0, 0))
  {
    var c := Clockwork(poll, [], multiset{}, [], Draining);
    var run := [Peek(0), Arm(0), Zadd(5, m), Publish(5), Resubscribe];
    TurnsCons(c, run[0], run[1..]);
    TurnsCons(Turn(c, run[0]), run[1], run[2..]);
    TurnsCons(Turn(Turn(c, run[0]), run[1]), run[2], run[3..]);
    var d := Turn(Turn(Turn(c, run[0]), run[1]), run[2]);
    assert d.delayed == [Item(5, m)] && d.publishing == multiset{5};
    TurnsCons(d, run[3], run[4..]);
    TurnsCons(Turn(d, run[3]), run[4], []);
  }

  lemma TurnsCons(c: Clockwork, a: Tick, rest: seq<Tick>)
    ensures Turns(c, [a] + rest) == Turns(Turn(c, a), rest)
  {
    assert ([a] + rest)[1..] == rest;
  }
}
