/** One queue's Redis keys, and the atomic Lua scripts that move tasks between them. */
module Broker {
  import opened Bytes
  import opened ZSets
  import opened Codec

  datatype Entry = Entry(id: nat, body: Bytes)
  datatype Lock = Lock(owner: Bytes, deadline: int)

  /** The keys of one queue under one consumer group. Stream IDs are abstracted to their rank in
      the order Redis generated them; `delivered` is the group's last-delivered ID, `pel` maps
      pending IDs to their delivery count, `locks` is keyed by the task's unique key. */
  datatype State = State(
    stream: seq<Entry>, lastId: nat, delivered: nat, pel: map<nat, nat>,
    delayed: ZSet, dlq: ZSet, index: map<Bytes, Bytes>, locks: map<Bytes, Lock>)

  // ---- what each script does to the keys ----------------------------------

  function XDel(stream: seq<Entry>, id: nat): (r: seq<Entry>)
    ensures forall e :: e in r <==> e in stream && e.id != id
  {
    if stream == [] then []
    else if stream[0].id == id then XDel(stream[1..], id)
    else [stream[0]] + XDel(stream[1..], id)
  }

  /** XACK then XDEL. */
  function Settled(s: State, id: nat): State {
    s.(stream := XDel(s.stream, id), pel := s.pel - {id})
  }

  /** XADD with an automatic ID and no MAXLEN. */
  function Append(s: State, body: Bytes): State {
    s.(stream := s.stream + [Entry(s.lastId + 1, body)], lastId := s.lastId + 1)
  }

  /** GET == owner, then DEL. */
  function ReleaseIfOwned(locks: map<Bytes, Lock>, key: Bytes, owner: Bytes): map<Bytes, Lock> {
    if key in locks && locks[key].owner == owner then locks - {key} else locks
  }

  /** Settlement scripts skip the lock when either the key or the expected value is empty. */
  function SettleLock(locks: map<Bytes, Lock>, key: Bytes, owner: Bytes): map<Bytes, Lock> {
    if key != [] && owner != [] then ReleaseIfOwned(locks, key, owner) else locks
  }

  /** Room for one more delayed member: with drop-farthest, the highest-ranked members go. */
  function MakeRoom(z: ZSet, max: int, dropFarthest: bool): ZSet {
    if max > 0 && |z| >= max && dropFarthest then z[..max - 1] else z
  }

  function Requeue(s: State, id: nat, score: int, body: Bytes, max: int, dropFarthest: bool): State {
    Settled(s, id).(delayed := Add(MakeRoom(s.delayed, max, dropFarthest), score, body))
  }

  /** How many of the lowest-ranked dead letters a cap of max evicts (0 = no cap). */
  function Excess(z: ZSet, max: int): nat { if max > 0 && |z| > max then |z| - max else 0 }

  function Bury(s: State, id: nat, score: int, taskId: Bytes, body: Bytes, key: Bytes, owner: Bytes, max: int): State {
    var z := Add(s.dlq, score, taskId);
    var index := if taskId != [] then s.index[taskId := body] else s.index;
    var n := Excess(z, max);
    Settled(s, id).(dlq := z[n..], index := index - Members(z[..n]), locks := SettleLock(s.locks, key, owner))
  }

  function Complete(s: State, id: nat, key: Bytes, owner: Bytes): State {
    Settled(s, id).(locks := SettleLock(s.locks, key, owner))
  }

  function Renew(s: State, key: Bytes, owner: Bytes, deadline: int): State {
    if key in s.locks && s.locks[key].owner == owner then s.(locks := s.locks[key := Lock(owner, deadline)]) else s
  }

  predicate StreamFull(s: State, hard: int) { hard > 0 && |s.stream| >= hard }

  /** Admission codes of the enqueue scripts. */
  const OK := 1
  const DUPLICATE := -1
  const QUEUE_FULL := -2
  const DELAYED_FULL := -3

  function EnqueueStream(s: State, body: Bytes, hard: int): (State, int) {
    if StreamFull(s, hard) then (s, QUEUE_FULL) else (Append(s, body), OK)
  }

  predicate HeldByOther(s: State, key: Bytes, owner: Bytes) { key in s.locks && s.locks[key].owner != owner }

  function EnqueueUnique(s: State, key: Bytes, owner: Bytes, deadline: int, body: Bytes, hard: int): (State, int) {
    if HeldByOther(s, key, owner) then (s, DUPLICATE)
    else if StreamFull(s, hard) then (s, QUEUE_FULL)
    else (Append(s.(locks := s.locks[key := Lock(owner, deadline)]), body), OK)
  }

  predicate DelayedFull(s: State, max: int, dropFarthest: bool) { max > 0 && |s.delayed| >= max && !dropFarthest }

  function EnqueueDelayed(s: State, score: int, body: Bytes, max: int, dropFarthest: bool): (State, int) {
    if DelayedFull(s, max, dropFarthest) then (s, DELAYED_FULL)
    else (s.(delayed := Add(MakeRoom(s.delayed, max, dropFarthest), score, body)), OK)
  }

  function EnqueueUniqueDelayed(s: State, key: Bytes, owner: Bytes, deadline: int, score: int, body: Bytes,
                                max: int, dropFarthest: bool): (State, int) {
    if HeldByOther(s, key, owner) then (s, DUPLICATE)
    else if DelayedFull(s, max, dropFarthest) then (s, DELAYED_FULL)
    else (EnqueueDelayed(s, score, body, max, dropFarthest).0.(locks := s.locks[key := Lock(owner, deadline)]), OK)
  }

  function ForcePromote(s: State, member: Bytes, hard: int): (State, int) {
    if StreamFull(s, hard) then (s, QUEUE_FULL)
    else if member !in Members(s.delayed) then (s, 0)
    else (Append(s.(delayed := Remove(s.delayed, member)), member), OK)
  }

  // ---- promotion ----------------------------------------------------------

  function Min(a: int, b: int): int { if a < b then a else b }

  /** The members a promote call moves: the first of the due members in (score, member) order, as
      many as the batch and the room under the hard limit allow. */
  function Ready(s: State, now: int, batch: nat, hard: int): (k: nat)
    ensures k <= batch && k <= |ByScore(s.delayed, 0, now)|
  {
    var k := Min(batch, |ByScore(s.delayed, 0, now)|);
    if hard <= 0 then k else if |s.stream| >= hard then 0 else Min(k, hard - |s.stream|)
  }

  function Promoted(s: State, now: int, batch: nat, hard: int): ZSet {
    ByScore(s.delayed, 0, now)[..Ready(s, now, batch, hard)]
  }

  function Entries(items: ZSet, last: nat): seq<Entry> {
    seq(|items|, i requires 0 <= i < |items| => Entry(last + 1 + i, items[i].member))
  }

  function AppendAll(s: State, items: ZSet): State {
    s.(stream := s.stream + Entries(items, s.lastId), lastId := s.lastId + |items|)
  }

  function Move(s: State, items: ZSet): State {
    AppendAll(s, items).(delayed := RemoveEach(s.delayed, items))
  }

  function Promote(s: State, now: int, batch: nat, hard: int): State { Move(s, Promoted(s, now, batch, hard)) }

  lemma PromoteWhenFull(s: State, now: int, batch: nat, hard: int)
    requires StreamFull(s, hard)
    ensures Promoted(s, now, batch, hard) == [] && Promote(s, now, batch, hard) == s
  {
    assert Entries([], s.lastId) == [] && s.stream + [] == s.stream;
  }

  function Fitting(elements: ZSet, hard: int, length: nat): ZSet
    requires hard > 0 ==> length < hard
  {
    if hard > 0 then elements[..Min(|elements|, hard - length)] else elements
  }

  lemma ReadySlice(s: State, now: int, batch: nat, hard: int)
    requires !StreamFull(s, hard)
    ensures var due := ByScore(s.delayed, 0, now);
            var elements := due[..Min(batch, |due|)];
            Promoted(s, now, batch, hard) == Fitting(elements, hard, |s.stream|)
  {
  }

  // ---- properties of the scripts ------------------------------------------

  /** `kept` lists in order the positions of s whose entry has another ID, and t holds just those entries. */
  ghost predicate Picks(s: seq<Entry>, t: seq<Entry>, id: nat, kept: seq<nat>) {
    && |kept| == |t| && (forall i, j :: 0 <= i < j < |kept| ==> kept[i] < kept[j])
    && (forall k :: 0 <= k < |kept| ==> kept[k] < |s| && t[k] == s[kept[k]] && t[k].id != id)
    && (forall i: nat :: i < |s| && s[i].id != id ==> i in kept)
  }

  /** From s to t message `id` was acknowledged and deleted: it is pending no more, every other pending
      message keeps its count, and the stream lost that ID and nothing else. */
  ghost predicate Acked(s: State, t: State, id: nat) {
    && id !in t.pel && (forall p :: p != id ==> (p in t.pel <==> p in s.pel))
    && (forall p :: p in t.pel ==> p in s.pel && t.pel[p] == s.pel[p])
    && (exists kept :: Picks(s.stream, t.stream, id, kept))
    && t.lastId == s.lastId && t.delivered == s.delivered
  }

  /** From s to t the lock of a key is gone if and only if it was this owner's, neither being empty. */
  ghost predicate Freed(s: State, t: State, key: Bytes, owner: Bytes) {
    && (forall k :: k in t.locks <==> k in s.locks && !(k == key != [] && s.locks[k].owner == owner != []))
    && (forall k :: k in t.locks ==> t.locks[k] == s.locks[k])
  }

  function Shifted(s: seq<nat>): (r: seq<nat>)
    ensures |r| == |s| && forall k :: 0 <= k < |s| ==> r[k] == s[k] + 1
  {
    seq(|s|, k requires 0 <= k < |s| => s[k] + 1)
  }

  lemma InShifted(s: seq<nat>, i: nat)
    requires i in s
    ensures i + 1 in Shifted(s)
  {
    var k :| 0 <= k < |s| && s[k] == i;
    assert Shifted(s)[k] == i + 1;
  }

  lemma ShiftedPoints(h: Entry, s: seq<Entry>, t: seq<Entry>, kept: seq<nat>)
    requires |kept| == |t| && forall k :: 0 <= k < |kept| ==> kept[k] < |s| && t[k] == s[kept[k]]
    ensures var u, all := [h] + s, Shifted(kept); forall k :: 0 <= k < |all| ==> all[k] < |u| && t[k] == u[all[k]]
  {
  }

  lemma PicksDrop(h: Entry, s: seq<Entry>, t: seq<Entry>, id: nat, kept: seq<nat>)
    requires Picks(s, t, id, kept) && h.id == id
    ensures Picks([h] + s, t, id, Shifted(kept))
  {
    ShiftedPoints(h, s, t, kept);
    StaysIncreasing(kept, [0]);
    var u, all := [h] + s, Shifted(kept);
    forall i: nat | i < |u| && u[i].id != id ensures i in all { InShifted(kept, i - 1); }
  }

  lemma PicksKeep(h: Entry, s: seq<Entry>, t: seq<Entry>, id: nat, kept: seq<nat>)
    requires Picks(s, t, id, kept) && h.id != id
    ensures Picks([h] + s, [h] + t, id, [0] + Shifted(kept))
  {
    var u, v, zero: seq<nat> := [h] + s, [h] + t, [0];
    var all := zero + Shifted(kept);
    ShiftedPoints(h, s, t, kept);
    forall k | 0 <= k < |all| ensures all[k] < |u| && v[k] == u[all[k]] && v[k].id != id {
      if k > 0 { assert all[k] == Shifted(kept)[k - 1] && v[k] == t[k - 1]; }
    }
    StaysIncreasing(kept, zero);
    forall i: nat | i < |u| && u[i].id != id ensures i in all {
      if i == 0 { assert all[0] == 0; } else { KeptStays(s, id, kept, i - 1, zero); }
    }
  }

  lemma StaysIncreasing(kept: seq<nat>, zero: seq<nat>)
    requires zero == [0] && forall i, j :: 0 <= i < j < |kept| ==> kept[i] < kept[j]
    ensures forall i, j :: 0 <= i < j < |kept| ==> Shifted(kept)[i] < Shifted(kept)[j]
    ensures var all := zero + Shifted(kept); forall i, j :: 0 <= i < j < |all| ==> all[i] < all[j]
  {
  }

  lemma KeptStays(s: seq<Entry>, id: nat, kept: seq<nat>, i: nat, zero: seq<nat>)
    requires i < |s| && s[i].id != id && forall k: nat :: k < |s| && s[k].id != id ==> k in kept
    ensures i + 1 in zero + Shifted(kept)
  {
    InShifted(kept, i);
  }

  lemma {:induction false} XDelPicks(stream: seq<Entry>, id: nat) returns (kept: seq<nat>)
    ensures Picks(stream, XDel(stream, id), id, kept)
  {
    kept := [];
    if stream != [] {
      var h, s := stream[0], stream[1..];
      var rest := XDelPicks(s, id);
      assert stream == [h] + s;
      if h.id == id {
        PicksDrop(h, s, XDel(s, id), id, rest);
        kept := Shifted(rest);
      } else {
        PicksKeep(h, s, XDel(s, id), id, rest);
        kept := [0] + Shifted(rest);
      }
    }
  }

  lemma SettledIsAcked(s: State, t: State, id: nat)
    requires t.stream == Settled(s, id).stream && t.pel == Settled(s, id).pel
    requires t.lastId == s.lastId && t.delivered == s.delivered
    ensures Acked(s, t, id)
  {
    var kept := XDelPicks(s.stream, id);
  }

  /** Completing acknowledges the message, frees the task's own lock, and touches no other place. */
  lemma CompleteAcks(s: State, id: nat, key: Bytes, owner: Bytes)
    ensures var t := Complete(s, id, key, owner);
            && Acked(s, t, id) && Freed(s, t, key, owner)
            && t.delayed == s.delayed && t.dlq == s.dlq && t.index == s.index
  {
    SettledIsAcked(s, Complete(s, id, key, owner), id);
  }

  /** So does a dead-letter move, which leaves the delayed set alone. */
  lemma BuryAcks(s: State, id: nat, score: int, taskId: Bytes, body: Bytes, key: Bytes, owner: Bytes, max: int)
    ensures var t := Bury(s, id, score, taskId, body, key, owner, max);
            Acked(s, t, id) && Freed(s, t, key, owner) && t.delayed == s.delayed
  {
    SettledIsAcked(s, Bury(s, id, score, taskId, body, key, owner, max), id);
  }

  /** A retry or defer acknowledges too, and leaves the locks and the dead letters alone. */
  lemma RequeueAcks(s: State, id: nat, score: int, body: Bytes, max: int, dropFarthest: bool)
    ensures var t := Requeue(s, id, score, body, max, dropFarthest);
            Acked(s, t, id) && t.locks == s.locks && t.dlq == s.dlq && t.index == s.index
  {
    SettledIsAcked(s, Requeue(s, id, score, body, max, dropFarthest), id);
  }

  ghost predicate IndexAgrees(s: State) { Members(s.dlq) - {[]} == s.index.Keys }

  /** Every dead-letter move keeps the ZSET and the payload index in step. */
  lemma BuryKeepsIndex(s: State, id: nat, score: int, taskId: Bytes, body: Bytes, key: Bytes, owner: Bytes, max: int)
    requires Valid(s.dlq) && IndexAgrees(s)
    ensures var t := Bury(s, id, score, taskId, body, key, owner, max); Valid(t.dlq) && IndexAgrees(t)
  {
    AddValid(s.dlq, score, taskId);
    CutKeepsIndex(Add(s.dlq, score, taskId), Excess(Add(s.dlq, score, taskId), max),
                  if taskId != [] then s.index[taskId := body] else s.index);
  }

  lemma CutKeepsIndex(z: ZSet, n: nat, index: map<Bytes, Bytes>)
    requires Valid(z) && n <= |z| && Members(z) - {[]} == index.Keys
    ensures Valid(z[n..]) && Members(z[n..]) - {[]} == (index - Members(z[..n])).Keys
  {
    SplitAt(z, n);
    IndexCut(Members(z), Members(z[..n]), Members(z[n..]), index);
  }

  lemma IndexCut(all: set<Bytes>, low: set<Bytes>, high: set<Bytes>, index: map<Bytes, Bytes>)
    requires all - {[]} == index.Keys && all == low + high && low !! high
    ensures high - {[]} == (index - low).Keys
  {
  }

  /** It indexes the payload it was given, unless the cap evicts that very task; of the others exactly the
      evicted lose their payload and the rest keep theirs. */
  lemma BuryIndexesPayload(s: State, id: nat, score: int, taskId: Bytes, body: Bytes, key: Bytes, owner: Bytes,
      max: int)
    requires Valid(s.dlq)
    ensures var t := Bury(s, id, score, taskId, body, key, owner, max);
            && (taskId != [] && taskId in Members(t.dlq) ==> taskId in t.index && t.index[taskId] == body)
            && (forall x :: x != taskId ==>
                  (x in t.index <==> x in s.index && (x in Members(s.dlq) ==> x in Members(t.dlq))))
            && (forall x :: x in t.index && x != taskId ==> t.index[x] == s.index[x])
  {
    var z := Add(s.dlq, score, taskId);
    AddValid(s.dlq, score, taskId);
    SplitAt(z, Excess(z, max));
  }

  /** How many dead letters a cap of max drops when this task joins them. */
  function Evicted(z: ZSet, taskId: Bytes, max: int): int {
    var n := |Members(z) + {taskId}|;
    if 0 < max < n then n - max else 0
  }

  lemma ExcessIsEvicted(z: ZSet, score: int, taskId: Bytes, max: int)
    requires Valid(z)
    ensures Excess(Add(z, score, taskId), max) == Evicted(z, taskId, max)
  {
    AddValid(z, score, taskId);
    MembersSize(Add(z, score, taskId));
  }

  /** The cap: with the buried task counted in, at most max dead letters stay and otherwise all of them,
      each under its old score but the buried one under its new; and every one that goes ranks before
      every one that stays. */
  lemma BuryKeepsCap(s: State, id: nat, score: int, taskId: Bytes, body: Bytes, key: Bytes, owner: Bytes, max: int)
    requires Valid(s.dlq)
    ensures var t := Bury(s, id, score, taskId, body, key, owner, max);
            var all := Members(s.dlq) + {taskId};
            && |t.dlq| == (if 0 < max < |all| then max else |all|)
            && (max <= 0 || |all| <= max ==> Members(t.dlq) == all && Item(score, taskId) in t.dlq)
            && (forall x :: x in t.dlq ==> x == Item(score, taskId) || (x in s.dlq && x.member != taskId))
            && (forall x, y ::
                  (x == Item(score, taskId) || (x in s.dlq && x.member != taskId)) && x !in t.dlq && y in t.dlq ==>
                    Before(x, y))
  {
    var z := Add(s.dlq, score, taskId);
    AddValid(s.dlq, score, taskId);
    MembersSize(z);
    CutLowest(z, Excess(z, max));
    assert z[0..] == z;
  }

  lemma CutLowest(z: ZSet, n: nat)
    requires Valid(z) && n <= |z|
    ensures |z[n..]| == |z| - n && forall x, y :: x in z && x !in z[n..] && y in z[n..] ==> Before(x, y)
    ensures forall x :: x in z[n..] ==> x in z
  {
    SplitAt(z, n);
  }

  /** Retry and defer under a delayed cap: the cap holds afterwards even from an over-full set, the
      requeued task is there with its new run time, and only the farthest-out members were dropped, no
      more of them than the cap asks for. */
  lemma RequeueKeepsCap(s: State, id: nat, score: int, body: Bytes, max: int)
    requires Valid(s.delayed)
    ensures var t := Requeue(s, id, score, body, max, true);
            && Valid(t.delayed)
            && (max > 0 ==> |t.delayed| <= max)
            && (0 < max <= |s.delayed| ==> max - 1 <= |t.delayed|)
            && (0 < max <= |s.delayed| && body !in Members(s.delayed) ==> |t.delayed| == max)
            && (max <= 0 || |s.delayed| < max ==> Members(t.delayed) == Members(s.delayed) + {body})
            && Item(score, body) in t.delayed
            && (forall x :: x in t.delayed && x.member != body ==> x in s.delayed)
            && (forall x, y ::
                  x in s.delayed && x !in t.delayed && x.member != body && y in t.delayed && y.member != body ==>
                    Before(y, x))
  {
    var z := MakeRoom(s.delayed, max, true);
    AddValid(z, score, body);
    SplitAt(s.delayed, |z|);
    assert z == s.delayed[..|z|];
  }

  /** Admission to the stream is all or nothing and keeps the hard limit; only the limit and a foreign lock
      reject; and an accepted task is the stream's last entry and holds its lock until the deadline. */
  lemma AdmissionKeepsLimit(s: State, key: Bytes, owner: Bytes, deadline: int, body: Bytes, hard: int)
    ensures var (t, code) := EnqueueUnique(s, key, owner, deadline, body, hard);
            var (u, plain) := EnqueueStream(s, body, hard);
            && (code != OK ==> t == s) && (plain != OK ==> u == s)
            && (hard > 0 && |s.stream| <= hard ==> |t.stream| <= hard && |u.stream| <= hard)
            && (plain == OK <==> hard <= 0 || |s.stream| < hard)
            && (code == OK <==> plain == OK && (key in s.locks ==> s.locks[key].owner == owner))
            && (plain == OK ==> u.stream == s.stream + [Entry(u.lastId, body)] && u.lastId > s.lastId)
            && (code == OK ==> t == u.(locks := t.locks) && t.locks == s.locks[key := Lock(owner, deadline)])
  {
  }

  /** Admission to the delayed set keeps its cap, from within it, and drops no member unless told to. */
  lemma DelayKeepsCap(s: State, score: int, body: Bytes, max: int, dropFarthest: bool)
    requires Valid(s.delayed)
    ensures var (t, code) := EnqueueDelayed(s, score, body, max, dropFarthest);
            && Valid(t.delayed) && (code != OK ==> t == s)
            && (max > 0 && |s.delayed| <= max ==> |t.delayed| <= max)
            && (code == OK <==> max <= 0 || |s.delayed| < max || dropFarthest)
            && (code == OK ==> Item(score, body) in t.delayed)
            && (!dropFarthest || max <= 0 || |s.delayed| < max ==> Members(s.delayed) <= Members(t.delayed))
  {
    var z := MakeRoom(s.delayed, max, dropFarthest);
    AddValid(s.delayed, score, body);
    SplitAt(s.delayed, |z|);
    assert z == s.delayed[..|z|];
    AddValid(z, score, body);
  }

  /** What a promote call leaves behind: the moved members are gone from the delayed set and
      nothing else is; no member that was due earlier stays behind one that moved; and the stream
      never grows past a hard limit it respected before. */
  lemma PromoteMovesEarliestDue(s: State, now: int, batch: nat, hard: int)
    requires Valid(s.delayed)
    ensures var t := Promote(s, now, batch, hard);
            var moved := Promoted(s, now, batch, hard);
            && Valid(t.delayed)
            && Members(s.delayed) == Members(t.delayed) + Members(moved) && Members(t.delayed) !! Members(moved)
            && |t.stream| == |s.stream| + |moved| && s.stream <= t.stream
            && (forall k :: 0 <= k < |moved| ==> t.stream[|s.stream| + k] == Entry(s.lastId + 1 + k, moved[k].member))
            && (forall x, y :: x in moved && y in t.delayed && 0 <= y.score <= now ==> Before(x, y))
            && (hard > 0 && |s.stream| <= hard ==> |t.stream| <= hard)
  {
    var due := ByScore(s.delayed, 0, now);
    var moved := Promoted(s, now, batch, hard);
    var rest := RemoveEach(s.delayed, moved);
    ByScoreValid(s.delayed, 0, now);
    RemoveEachValid(s.delayed, moved);
    SplitAt(due, |moved|);
    forall m | m in Members(s.delayed) ensures m in Members(rest) + Members(moved) {
      var x :| x in s.delayed && x.member == m;
      if x !in rest { var y :| y in moved && y.member == m; }
    }
    forall m | m in Members(moved) ensures m in Members(s.delayed) {
      var x :| x in moved && x.member == m;
      assert x in due;
    }
    forall x, y | x in moved && y in rest && 0 <= y.score <= now ensures Before(x, y) {
      assert y in due;
    }
  }

  /** A run time before the epoch is never due: no promote call, whatever its clock, batch or
      limit, moves such a member. */
  lemma NegativeScoreNeverPromoted(s: State, now: int, batch: nat, hard: int, x: Item)
    requires Valid(s.delayed) && x in s.delayed && x.score < 0
    ensures x in Promote(s, now, batch, hard).delayed
  {
    var moved := Promoted(s, now, batch, hard);
    forall y | y in moved ensures y.member != x.member {
      assert y in ByScore(s.delayed, 0, now);
      if y.member == x.member { SameMember(s.delayed, x, y); }
    }
  }

  // ---- the scripts themselves, as they run against the keys ----------------

  datatype Action = ToDLQ | ToDelayed

  class RedisQueue {
    var stream: seq<Entry>
    var lastId: nat
    var delivered: nat
    var pel: map<nat, nat>
    var delayed: ZSet
    var dlq: ZSet
    var index: map<Bytes, Bytes>
    var locks: map<Bytes, Lock>

    function Snapshot(): State
      reads this
    {
      State(stream, lastId, delivered, pel, delayed, dlq, index, locks)
    }

    method AckAndDelete(id: nat)
      modifies this
      ensures Snapshot() == Settled(old(Snapshot()), id)
    {
      pel := pel - {id};
      stream := XDel(stream, id);
    }

    method ReleaseLock(key: Bytes, expected: Bytes)
      modifies this
      ensures Snapshot() == old(Snapshot()).(locks := SettleLock(old(locks), key, expected))
    {
      if key != [] && expected != [] {
        if key in locks && locks[key].owner == expected {
          locks := locks - {key};
        }
      }
    }

    /** The eviction loop of the dead-letter branch: HDEL one by one, then ZREMRANGEBYRANK. */
    method EvictExcess(maxCount: int) returns (evicted: nat)
      requires maxCount > 0
      modifies this`dlq, this`index
      ensures evicted == Excess(old(dlq), maxCount)
      ensures dlq == old(dlq)[evicted..] && index == old(index) - Members(old(dlq)[..evicted])
    {
      evicted := 0;
      RemoveByRankIsSlice(dlq, maxCount);
      var toRemove := RangeByRank(dlq, 0, -(maxCount + 1));
      for i := 0 to |toRemove|
        invariant evicted == i
        invariant index == old(index) - Members(toRemove[..i])
        invariant dlq == old(dlq)
      {
        assert toRemove[..i + 1] == toRemove[..i] + [toRemove[i]];
        assert Members(toRemove[..i + 1]) == Members(toRemove[..i]) + {toRemove[i].member};
        index := index - {toRemove[i].member};
        evicted := evicted + 1;
      }
      dlq := RemoveRangeByRank(dlq, 0, -(maxCount + 1));
      assert toRemove[..|toRemove|] == toRemove == old(dlq)[..evicted];
    }

    method DropFarthest(delayedMax: int, dropFarthest: bool)
      modifies this`delayed
      ensures delayed == MakeRoom(old(delayed), delayedMax, dropFarthest)
    {
      if delayedMax > 0 {
        var n := |delayed|;
        if n >= delayedMax {
          if dropFarthest {
            var toDrop := n - delayedMax + 1;
            if toDrop > 0 {
              RemoveByRankIsSlice(delayed, delayedMax - 1);
              delayed := RemoveRangeByRank(delayed, -toDrop, -1);
            }
          }
        }
      }
    }

    /** luaHandleFailure. */
    method HandleFailure(action: Action, id: nat, score: int, body: Bytes, lockKey: Bytes, expected: Bytes,
                         taskId: Bytes, maxCount: int, delayedMax: int, dropFarthest: bool) returns (evicted: nat)
      modifies this
      ensures action.ToDLQ? ==>
        && Snapshot() == Bury(old(Snapshot()), id, score, taskId, body, lockKey, expected, maxCount)
        && evicted == Excess(Add(old(dlq), score, taskId), maxCount)
      ensures action.ToDelayed? ==>
        Snapshot() == Requeue(old(Snapshot()), id, score, body, delayedMax, dropFarthest) && evicted == 0
    {
      evicted := 0;
      AckAndDelete(id);
      if action.ToDLQ? {
        evicted := AddDeadLetter(score, taskId, body, maxCount);
        ReleaseLock(lockKey, expected);
      } else {
        DropFarthest(delayedMax, dropFarthest);
        delayed := Add(delayed, score, body);
      }
    }

    method AddDeadLetter(score: int, taskId: Bytes, body: Bytes, maxCount: int) returns (evicted: nat)
      modifies this`dlq, this`index
      ensures var z := Add(old(dlq), score, taskId);
              var all := if taskId != [] then old(index)[taskId := body] else old(index);
              && evicted == Excess(z, maxCount)
              && dlq == z[evicted..] && index == all - Members(z[..evicted])
    {
      evicted := 0;
      dlq := Add(dlq, score, taskId);
      if taskId != [] { index := index[taskId := body]; }
      ghost var z, all := dlq, index;
      if maxCount > 0 { evicted := EvictExcess(maxCount); }
      assert evicted == 0 ==> z[0..] == z && all - Members(z[..0]) == all;
    }

    /** luaDeferRateLimitedTask. */
    method Defer(id: nat, score: int, body: Bytes, delayedMax: int, dropFarthest: bool)
      modifies this
      ensures Snapshot() == Requeue(old(Snapshot()), id, score, body, delayedMax, dropFarthest)
      ensures Acked(old(Snapshot()), Snapshot(), id)
    {
      RequeueAcks(Snapshot(), id, score, body, delayedMax, dropFarthest);
      AckAndDelete(id);
      DropFarthest(delayedMax, dropFarthest);
      delayed := Add(delayed, score, body);
    }

    /** MoveToDLQ; `applied` is whether the script call reaches Redis. */
    method MoveToDLQ(t: Task, id: nat, nowMs: int, maxCount: int, applied: bool) returns (ok: bool, evicted: nat)
      modifies this
      ensures ok == applied
      ensures Snapshot() == if applied then Bury(old(Snapshot()), id, nowMs, t.id, Encode(t), t.uniqueKey, t.id,
          maxCount)
                            else old(Snapshot())
      ensures applied ==> Acked(old(Snapshot()), Snapshot(), id)
      ensures Valid(old(dlq)) ==> evicted == if applied then Evicted(old(dlq), t.id, maxCount) else 0
    {
      var serialized := Marshal(t);
      var lockKey, lockVal := [], [];
      if t.uniqueKey != [] { lockKey, lockVal := t.uniqueKey, t.id; }
      ok, evicted := applied, 0;
      if applied {
        if Valid(dlq) { ExcessIsEvicted(dlq, nowMs, t.id, maxCount); }
        BuryAcks(Snapshot(), id, nowMs, t.id, serialized, t.uniqueKey, t.id, maxCount);
        evicted := HandleFailure(ToDLQ, id, nowMs, serialized, lockKey, lockVal, t.id, maxCount, 0, false);
      }
    }

    /** ScheduleRetry: always drop-farthest, so a full delayed set never loses the retried task. */
    method ScheduleRetry(t: Task, id: nat, runAt: int, delayedMax: int, applied: bool) returns (ok: bool)
      modifies this
      ensures ok == applied
      ensures Snapshot() == if applied then Requeue(old(Snapshot()), id, runAt, Encode(t), delayedMax, true)
          else old(Snapshot())
      ensures applied ==> Acked(old(Snapshot()), Snapshot(), id)
    {
      var serialized := Marshal(t);
      ok := applied;
      if applied {
        RequeueAcks(Snapshot(), id, runAt, serialized, delayedMax, true);
        var _ := HandleFailure(ToDelayed, id, runAt, serialized, [], [], [], 0, delayedMax, true);
      }
    }

    method DeferRateLimitedTask(t: Task, id: nat, runAt: int, delayedMax: int, applied: bool) returns (ok: bool)
      modifies this
      ensures ok == applied
      ensures Snapshot() == if applied then Requeue(old(Snapshot()), id, runAt, Encode(t), delayedMax, true)
          else old(Snapshot())
      ensures applied ==> Acked(old(Snapshot()), Snapshot(), id)
    {
      var serialized := Marshal(t);
      ok := applied;
      if applied { Defer(id, runAt, serialized, delayedMax, true); }
    }

    /** CompleteTask through luaCompleteTask. */
    method CompleteTask(t: Task, id: nat, applied: bool) returns (ok: bool)
      modifies this
      ensures ok == applied
      ensures Snapshot() == if applied then Complete(old(Snapshot()), id, t.uniqueKey, t.id) else old(Snapshot())
      ensures applied ==>
        Acked(old(Snapshot()), Snapshot(), id) && Freed(old(Snapshot()), Snapshot(), t.uniqueKey, t.id)
    {
      var lockKey, lockVal := [], [];
      if t.uniqueKey != [] { lockKey, lockVal := t.uniqueKey, t.id; }
      ok := applied;
      if applied {
        CompleteAcks(Snapshot(), id, t.uniqueKey, t.id);
        AckAndDelete(id);
        ReleaseLock(lockKey, lockVal);
      }
    }

    /** luaUnlock. */
    method ReleaseUniqueLock(t: Task, applied: bool) returns (ok: bool)
      modifies this
      ensures ok <==> applied || t.uniqueKey == []
      ensures applied ==> forall k :: k in locks <==>
        k in old(locks) && !(k == t.uniqueKey != [] && old(locks)[k].owner == t.id)
      ensures Snapshot() == if applied && t.uniqueKey != []
                            then old(Snapshot()).(locks := ReleaseIfOwned(old(locks), t.uniqueKey, t.id))
                                else old(Snapshot())
    {
      if t.uniqueKey == [] { return true; }
      ok := applied;
      if applied && t.uniqueKey in locks && locks[t.uniqueKey].owner == t.id {
        locks := locks - {t.uniqueKey};
      }
    }

    /** luaRenewUniqueLock. */
    method RenewUniqueLock(t: Task, now: int, ttl: int) returns (renewed: bool)
      modifies this
      ensures t.uniqueKey != [] ==> Snapshot() == Renew(old(Snapshot()), t.uniqueKey, t.id, now + ttl)
      ensures t.uniqueKey == [] ==> Snapshot() == old(Snapshot())
      ensures renewed <==> t.uniqueKey != [] && t.uniqueKey in old(locks) && old(locks)[t.uniqueKey].owner == t.id
      ensures locks == if renewed then old(locks)[t.uniqueKey := Lock(t.id, now + ttl)] else old(locks)
    {
      renewed := false;
      if t.uniqueKey == [] { return; }
      if t.uniqueKey in locks && locks[t.uniqueKey].owner == t.id {
        locks := locks[t.uniqueKey := Lock(t.id, now + ttl)];
        renewed := true;
      }
    }

    /** The scheduler's promote script: appends one by one, then removes one by one, stopping early
        when the stream reaches its hard limit. */
    method PromoteScript(now: int, batch: nat, hard: int) returns (moved: ZSet)
      modifies this
      ensures Snapshot() == Promote(old(Snapshot()), now, batch, hard)
      ensures moved == Promoted(old(Snapshot()), now, batch, hard)
    {
      if hard > 0 && |stream| >= hard {
        PromoteWhenFull(Snapshot(), now, batch, hard);
        return [];
      }
      ReadySlice(Snapshot(), now, batch, hard);
      var due := ByScore(delayed, 0, now);
      moved := MoveEach(due[..Min(batch, |due|)], hard);
    }

    method MoveEach(elements: ZSet, hard: int) returns (moved: ZSet)
      requires hard > 0 ==> |stream| < hard
      modifies this
      ensures moved == Fitting(elements, hard, |old(stream)|)
      ensures Snapshot() == Move(old(Snapshot()), moved)
    {
      moved := AppendEach(elements, hard);
      RemoveMoved(moved);
    }

    /** First pass: XADD each element until the stream is at its hard limit. */
    method AppendEach(elements: ZSet, hard: int) returns (moved: ZSet)
      requires hard > 0 ==> |stream| < hard
      modifies this`stream, this`lastId
      ensures moved == Fitting(elements, hard, |old(stream)|)
      ensures stream == old(stream) + Entries(moved, old(lastId)) && lastId == old(lastId) + |moved|
    {
      moved := elements;
      for i := 0 to |elements|
        invariant hard > 0 ==> |old(stream)| + i <= hard
        invariant stream == old(stream) + Entries(elements[..i], old(lastId)) && lastId == old(lastId) + i
        invariant moved == elements
      {
        if hard > 0 && |stream| >= hard {
          moved := elements[..i];
          return;
        }
        ghost var e := Entry(lastId + 1, elements[i].member);
        assert Entries(elements[..i + 1], old(lastId)) == Entries(elements[..i], old(lastId)) + [e];
        stream := stream + [Entry(lastId + 1, elements[i].member)];
        lastId := lastId + 1;
      }
      assert elements[..|elements|] == elements;
    }

    /** Second pass: ZREM each element that was appended. */
    method RemoveMoved(moved: ZSet)
      modifies this`delayed
      ensures delayed == RemoveEach(old(delayed), moved)
    {
      for j := 0 to |moved|
        invariant delayed == RemoveEach(old(delayed), moved[..j])
      {
        assert moved[..j + 1] == moved[..j] + [moved[j]];
        RemoveEachSnoc(old(delayed), moved[..j], moved[j]);
        delayed := Remove(delayed, moved[j].member);
      }
      assert moved[..|moved|] == moved;
    }
  }
}
