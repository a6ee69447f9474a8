/** Every interleaving of producers, workers, schedulers and janitors on one queue, each script one
    atomic step; and the at-least-once guarantee over all runs. */
module Protocol {
  import opened Bytes
  import opened ZSets
  import opened Codec
  import opened Broker

  // ---- codecs -------------------------------------------------------------

  /** The codec interface: the broker works with any implementation. */
  datatype TaskCodec = TaskCodec(encode: Task -> Bytes, decode: Bytes -> Option<Task>) {
    function Id(body: Bytes): Option<Bytes> {
      if decode(body).Some? then Some(decode(body).value.id) else None
    }
  }

  const BINARY := TaskCodec(t => Encode(t), b => Decode(b))

  /** Processing changes a task only in its retry counter, last error and result. */
  ghost predicate SameButProgress(t: Task, u: Task) {
    && u == t.(retry := u.retry, lastError := u.lastError, result := u.result)
    && IsInt32(u.retry) && |u.lastError| < 0x1_0000_0000
  }

  ghost predicate SameIdentity(t: Task, u: Task) {
    t.id == u.id && t.uniqueKey == u.uniqueKey && t.uniqueScope == u.uniqueScope
  }

  /** Re-encoding a processed task keeps who it is. */
  ghost predicate Lawful(c: TaskCodec) {
    forall body, u {:trigger c.decode(body), c.encode(u)} ::
      c.decode(body).Some? && SameButProgress(c.decode(body).value, u) ==>
        c.decode(c.encode(u)).Some? && SameIdentity(c.decode(c.encode(u)).value, u)
  }

  lemma BinaryIsLawful()
    ensures Lawful(BINARY)
  {
    forall body, u | BINARY.decode(body).Some? && SameButProgress(BINARY.decode(body).value, u)
      ensures BINARY.decode(BINARY.encode(u)).Some? && SameIdentity(BINARY.decode(BINARY.encode(u)).value, u)
    {
      DecodedFits(body, EMPTY_TASK);
      RoundTrip(u, []);
      assert Encode(u) + [] == Encode(u);
    }
  }

  // ---- settlements --------------------------------------------------------

  datatype Settlement =
    | Completed(t: Task)
    | Retried(t: Task, runAt: int)
    | Deferred(t: Task, runAt: int)
    | DeadLettered(t: Task, now: int)

  datatype Limits = Limits(dlqMax: int, delayedMax: int)

  /** What the broker call for a settlement of message `id` does to the keys. */
  function Apply(c: TaskCodec, s: State, id: nat, st: Settlement, lim: Limits): State {
    match st
    case Completed(t) => Complete(s, id, t.uniqueKey, t.id)
    case Retried(t, runAt) => Requeue(s, id, runAt, c.encode(t), lim.delayedMax, true)
    case Deferred(t, runAt) => Requeue(s, id, runAt, c.encode(t), lim.delayedMax, true)
    case DeadLettered(t, now) => Bury(s, id, now, t.id, c.encode(t), t.uniqueKey, t.id, lim.dlqMax)
  }

  /** Every settlement acknowledges its message. Completing and dead-lettering free the task's own lock and
      leave the delayed set alone; retrying and deferring put the task there under its run time and leave
      the locks and the dead letters alone; and each keeps its cap. */
  lemma SettlementAcks(c: TaskCodec, s: State, id: nat, st: Settlement, lim: Limits)
    ensures var t := Apply(c, s, id, st, lim);
            && Acked(s, t, id)
            && (if st.Completed? || st.DeadLettered? then
                  Freed(s, t, st.t.uniqueKey, st.t.id) && t.delayed == s.delayed
                else
                  t.locks == s.locks && Item(st.runAt, c.encode(st.t)) in t.delayed)
            && (!st.DeadLettered? ==> t.dlq == s.dlq && t.index == s.index)
            && ((st.Retried? || st.Deferred?) && Valid(s.delayed) && lim.delayedMax > 0 ==>
                  |t.delayed| <= lim.delayedMax)
            && (st.DeadLettered? && Valid(s.dlq) && lim.dlqMax > 0 ==> |t.dlq| <= lim.dlqMax)
  {
    match st
    case Completed(t) => CompleteAcks(s, id, t.uniqueKey, t.id);
    case Retried(t, runAt) => RequeueSettles(s, id, runAt, c.encode(t), lim.delayedMax);
    case Deferred(t, runAt) => RequeueSettles(s, id, runAt, c.encode(t), lim.delayedMax);
    case DeadLettered(t, now) =>
      BuryAcks(s, id, now, t.id, c.encode(t), t.uniqueKey, t.id, lim.dlqMax);
      if Valid(s.dlq) { BuryKeepsCap(s, id, now, t.id, c.encode(t), t.uniqueKey, t.id, lim.dlqMax); }
  }

  lemma RequeueSettles(s: State, id: nat, runAt: int, body: Bytes, max: int)
    ensures var t := Requeue(s, id, runAt, body, max, true);
            && Acked(s, t, id) && t.locks == s.locks && t.dlq == s.dlq && t.index == s.index
            && Item(runAt, body) in t.delayed
            && (Valid(s.delayed) && max > 0 ==> |t.delayed| <= max)
  {
    RequeueAcks(s, id, runAt, body, max, true);
    if Valid(s.delayed) { RequeueKeepsCap(s, id, runAt, body, max); }
  }

  /** A settlement a worker holding `body` can produce. */
  ghost predicate SettlementOf(c: TaskCodec, body: Bytes, st: Settlement) {
    c.decode(body).Some? && SameButProgress(c.decode(body).value, st.t)
  }

  // ---- runs ---------------------------------------------------------------

  /** The queue plus history: where the consumer group started, which IDs were admitted, completed
      or dropped by a cap or an age limit, every delivery ever made (a worker may act on one at any
      later time, any number of times), and every trim threshold ever computed. */
  datatype World = World(
    q: State, start: nat,
    admitted: set<Bytes>, completed: set<Bytes>, dropped: set<Bytes>,
    held: set<Entry>, marks: set<nat>)

  datatype Step =
    | EnqueueBody(body: Bytes, hard: int)
    | EnqueueUniqueTask(t: Task, deadline: int, hard: int)
    | DelayBody(score: int, body: Bytes, max: int, dropFarthest: bool)
    | DelayUniqueTask(t: Task, deadline: int, score: int, max: int, dropFarthest: bool)
    | Deliver
    | Reclaim(id: nat)
    | Settle(e: Entry, st: Settlement, lim: Limits)
    | AckCorrupt(e: Entry)
    | DeleteCorrupt(e: Entry)
    | ReleaseLock(e: Entry)
    | RenewLock(e: Entry, deadline: int)
    | ExpireLock(key: Bytes)
    | PromoteDue(now: int, batch: nat, hard: int)
    | PromoteMember(member: Bytes, hard: int)
    | PurgeZrem(x: Bytes)
    | PurgeHdel(x: Bytes)
    | DelConsumer(ids: set<nat>)
    | MarkTrim(threshold: nat)
    | Trim(threshold: nat, n: nat)

  function IdSet(c: TaskCodec, body: Bytes): set<Bytes> {
    if c.Id(body).Some? then {c.Id(body).value} else {}
  }

  function Ids(c: TaskCodec, z: ZSet): set<Bytes> {
    set x | x in z && c.Id(x.member).Some? :: c.Id(x.member).value
  }

  /** The members MakeRoom drops. */
  function Overflow(z: ZSet, max: int, dropFarthest: bool): ZSet { z[|MakeRoom(z, max, dropFarthest)|..] }

  function FirstUndelivered(stream: seq<Entry>, delivered: nat): (r: Option<Entry>)
    ensures r.Some? ==> r.value in stream && r.value.id > delivered
    ensures r.None? ==> forall e :: e in stream ==> e.id <= delivered
  {
    if stream == [] then None
    else if stream[0].id > delivered then Some(stream[0])
    else FirstUndelivered(stream[1..], delivered)
  }

  function Lookup(stream: seq<Entry>, id: nat): (r: Option<Entry>)
    ensures r.Some? ==> r.value in stream && r.value.id == id
    ensures r.None? ==> forall e :: e in stream ==> e.id != id
  {
    if stream == [] then None else if stream[0].id == id then Some(stream[0]) else Lookup(stream[1..], id)
  }

  /** XPENDING's lowest pending ID or, with nothing pending, the group's last-delivered ID. */
  ghost predicate IsThreshold(s: State, threshold: nat) {
    if s.pel.Keys != {} then threshold in s.pel && forall p :: p in s.pel ==> threshold <= p
    else threshold == s.delivered && threshold > 0
  }

  /** A stream entry the group still owes a run: decodable, and appended since the group began. */
  ghost predicate Owed(c: TaskCodec, w: World, e: Entry) { e in w.q.stream && c.Id(e.body).Some? && e.id > w.start }

  /** Nothing that the group still owes a run lies below m. */
  ghost predicate NoneBelow(c: TaskCodec, w: World, m: nat) { forall e :: Owed(c, w, e) ==> e.id >= m }

  /** A pending ID whose entry the group still owes a run. */
  ghost predicate OwedAt(c: TaskCodec, w: World, p: nat) { p in w.q.pel && exists e :: Owed(c, w, e) && e.id == p }

  function Admit(c: TaskCodec, w: World, r: (State, int), body: Bytes, lost: ZSet): World {
    if r.1 == OK then w.(q := r.0, admitted := w.admitted + IdSet(c, body), dropped := w.dropped + Ids(c, lost)) else w
  }

  ghost function Next(c: TaskCodec, w: World, a: Step): World {
    match a
    case EnqueueBody(body, hard) =>
      Admit(c, w, EnqueueStream(w.q, body, hard), body, [])
    case EnqueueUniqueTask(t, deadline, hard) =>
      Admit(c, w, EnqueueUnique(w.q, t.uniqueKey, t.id, deadline, c.encode(t), hard), c.encode(t), [])
    case DelayBody(score, body, max, drop) =>
      Admit(c, w, EnqueueDelayed(w.q, score, body, max, drop), body, Overflow(w.q.delayed, max, drop))
    case DelayUniqueTask(t, deadline, score, max, drop) =>
      Admit(c, w, EnqueueUniqueDelayed(w.q, t.uniqueKey, t.id, deadline, score, c.encode(t), max, drop), c.encode(t),
            Overflow(w.q.delayed, max, drop))
    case Deliver =>
      var e := FirstUndelivered(w.q.stream, w.q.delivered);
      if e.None? then w
      else w.(q := w.q.(delivered := e.value.id, pel := w.q.pel[e.value.id := 1]), held := w.held + {e.value})
    case Reclaim(id) => if id in w.q.pel then Reclaimed(w, id) else w
    case Settle(e, st, lim) =>
      if e !in w.held || !SettlementOf(c, e.body, st) then w else SettleHeld(c, w, e, st, lim)
    case AckCorrupt(e) =>
      if e !in w.held || c.Id(e.body).Some? then w else w.(q := w.q.(pel := w.q.pel - {e.id}))
    case DeleteCorrupt(e) =>
      if e !in w.held || c.Id(e.body).Some? then w else w.(q := w.q.(stream := XDel(w.q.stream, e.id)))
    case ReleaseLock(e) =>
      if e !in w.held || c.Id(e.body).None? then w
      else
        var t := c.decode(e.body).value;
        if t.uniqueKey == [] then w else w.(q := w.q.(locks := ReleaseIfOwned(w.q.locks, t.uniqueKey, t.id)))
    case RenewLock(e, deadline) =>
      if e !in w.held || c.Id(e.body).None? then w
      else
        var t := c.decode(e.body).value;
        if t.uniqueKey == [] then w else w.(q := Renew(w.q, t.uniqueKey, t.id, deadline))
    case ExpireLock(key) => w.(q := w.q.(locks := w.q.locks - {key}))
    case PromoteDue(now, batch, hard) => w.(q := Promote(w.q, now, batch, hard))
    case PromoteMember(member, hard) => w.(q := ForcePromote(w.q, member, hard).0)
    case PurgeZrem(x) => w.(q := w.q.(dlq := Remove(w.q.dlq, x)), dropped := w.dropped + (Members(w.q.dlq) * {x}))
    case PurgeHdel(x) => w.(q := w.q.(index := w.q.index - {x}))
    case DelConsumer(ids) =>
      if forall p :: p in ids ==> !OwedAt(c, w, p) then w.(q := w.q.(pel := w.q.pel - ids)) else w
    case MarkTrim(threshold) =>
      if IsThreshold(w.q, threshold) || (threshold <= w.q.delivered && NoneBelow(c, w, threshold))
      then w.(marks := w.marks + {threshold}) else w
    case Trim(threshold, n) =>
      if threshold in w.marks && n <= |w.q.stream| && (forall e :: e in w.q.stream[..n] ==> e.id < threshold)
      then w.(q := w.q.(stream := w.q.stream[n..])) else w
  }

  /** A reclaim hands a pending message out once more, or drops it from the PEL when its entry is gone. */
  function Reclaimed(w: World, id: nat): World
    requires id in w.q.pel
  {
    var e := Lookup(w.q.stream, id);
    if e.None? then w.(q := w.q.(pel := w.q.pel - {id}))
    else w.(q := w.q.(pel := w.q.pel[id := w.q.pel[id] + 1]), held := w.held + {e.value})
  }

  function SettleHeld(c: TaskCodec, w: World, e: Entry, st: Settlement, lim: Limits): World {
    var v := w.(q := Apply(c, w.q, e.id, st, lim));
    match st
    case Completed(t) => v.(completed := v.completed + {t.id})
    case Retried(_, _) => v.(dropped := v.dropped + Ids(c, Overflow(w.q.delayed, lim.delayedMax, true)))
    case Deferred(_, _) => v.(dropped := v.dropped + Ids(c, Overflow(w.q.delayed, lim.delayedMax, true)))
    case DeadLettered(t, now) =>
      var z := Add(w.q.dlq, now, t.id);
      v.(dropped := v.dropped + Members(z[..Excess(z, lim.dlqMax)]))
  }

  ghost function Run(c: TaskCodec, w: World, steps: seq<Step>): World
    decreases steps
  {
    if steps == [] then w else Run(c, Next(c, w, steps[0]), steps[1..])
  }

  // ---- the invariant ------------------------------------------------------

  ghost predicate Ascending(stream: seq<Entry>) { forall i, j :: 0 <= i < j < |stream| ==> stream[i].id < stream[j].id }

  ghost predicate Shape(s: State) {
    && Ascending(s.stream) && (forall e :: e in s.stream ==> e.id <= s.lastId)
    && s.delivered <= s.lastId
    && Valid(s.delayed) && Valid(s.dlq)
  }

  ghost predicate PelOk(w: World) {
    w.start <= w.q.delivered && forall p :: p in w.q.pel ==> w.start < p <= w.q.delivered
  }

  /** Every decodable entry handed out since the group began is still pending, so it can be reclaimed. */
  ghost predicate Reclaimable(c: TaskCodec, w: World) {
    forall e :: e in w.q.stream && c.Id(e.body).Some? && w.start < e.id <= w.q.delivered ==> e.id in w.q.pel
  }

  ghost predicate HeldOk(w: World) {
    && (forall h :: h in w.held ==> w.start < h.id <= w.q.delivered)
    && (forall h, e :: h in w.held && e in w.q.stream && h.id == e.id ==> h == e)
  }

  ghost predicate InStream(c: TaskCodec, w: World, x: Bytes) {
    exists e :: e in w.q.stream && e.id > w.start && c.Id(e.body) == Some(x)
  }

  ghost predicate InDelayed(c: TaskCodec, w: World, x: Bytes) {
    exists i :: i in w.q.delayed && c.Id(i.member) == Some(x)
  }

  /** Nothing admitted is ever unaccounted for. */
  ghost predicate Accounted(c: TaskCodec, w: World, x: Bytes) {
    InStream(c, w, x) || InDelayed(c, w, x) || x in Members(w.q.dlq) || x in w.completed || x in w.dropped
  }

  ghost predicate Conserved(c: TaskCodec, w: World) { forall x :: x in w.admitted ==> Accounted(c, w, x) }

  ghost predicate MarksOk(c: TaskCodec, w: World) {
    forall m :: m in w.marks ==> m <= w.q.delivered && NoneBelow(c, w, m)
  }

  ghost predicate PayloadsOk(c: TaskCodec, w: World) {
    forall k :: k in w.q.index ==> c.Id(w.q.index[k]) == Some(k)
  }

  ghost predicate Inv(c: TaskCodec, w: World) {
    Shape(w.q) && PelOk(w) && Reclaimable(c, w) && HeldOk(w) && MarksOk(c, w) && PayloadsOk(c, w) && Conserved(c, w)
  }

  /** A group just created at "$": whatever the stream already held is behind it. */
  ghost predicate Init(c: TaskCodec, w: World) {
    && Shape(w.q) && w.start == w.q.delivered == w.q.lastId && w.q.pel == map[]
    && w.held == {} && w.marks == {} && PayloadsOk(c, w) && Conserved(c, w)
  }

  // ---- one step -----------------------------------------------------------

  lemma AscendingAppend(stream: seq<Entry>, e: Entry)
    requires Ascending(stream) && forall d :: d in stream ==> d.id < e.id
    ensures Ascending(stream + [e])
  {
    var r := stream + [e];
    forall i, j | 0 <= i < j < |r| ensures r[i].id < r[j].id {
      if j == |stream| { assert stream[i] in stream; }
    }
  }

  lemma AscendingCons(h: Entry, t: seq<Entry>)
    ensures Ascending([h] + t) <==> Ascending(t) && forall e :: e in t ==> h.id < e.id
  {
    var s := [h] + t;
    if Ascending(s) {
      forall e | e in t ensures h.id < e.id {
        var k :| 0 <= k < |t| && t[k] == e;
        assert s[0].id < s[k + 1].id;
      }
      forall i, j | 0 <= i < j < |t| ensures t[i].id < t[j].id { assert s[i + 1].id < s[j + 1].id; }
    }
    if Ascending(t) && forall e :: e in t ==> h.id < e.id {
      forall i, j | 0 <= i < j < |s| ensures s[i].id < s[j].id { assert s[j] == t[j - 1] && t[j - 1] in t; }
    }
  }

  lemma {:induction false} AscendingXDel(stream: seq<Entry>, id: nat)
    requires Ascending(stream)
    ensures Ascending(XDel(stream, id))
  {
    if stream != [] {
      assert stream == [stream[0]] + stream[1..];
      AscendingCons(stream[0], stream[1..]);
      AscendingXDel(stream[1..], id);
      AscendingCons(stream[0], XDel(stream[1..], id));
    }
  }

  lemma UniqueIds(stream: seq<Entry>, d: Entry, e: Entry)
    requires Ascending(stream) && d in stream && e in stream && d.id == e.id
    ensures d == e
  {
    var i :| 0 <= i < |stream| && stream[i] == d;
    var j :| 0 <= j < |stream| && stream[j] == e;
  }

  /** Accounting survives when the places only grow, up to dead letters that move to the history. */
  lemma AccountedMono(c: TaskCodec, w: World, v: World, x: Bytes)
    requires Accounted(c, w, x) && v.start == w.start
    requires forall e :: e in w.q.stream && e.id > w.start && c.Id(e.body) == Some(x) ==> e in v.q.stream
    requires forall i :: i in w.q.delayed && c.Id(i.member) == Some(x) ==> i in v.q.delayed || x in v.dropped
    requires x in Members(w.q.dlq) ==> x in Members(v.q.dlq) || x in v.dropped
    requires w.completed <= v.completed && w.dropped <= v.dropped
    ensures Accounted(c, v, x)
  {
    if InStream(c, w, x) {
      var e :| e in w.q.stream && e.id > w.start && c.Id(e.body) == Some(x);
      assert e in v.q.stream;
    } else if InDelayed(c, w, x) {
      var i :| i in w.q.delayed && c.Id(i.member) == Some(x);
      assert i in v.q.delayed || x in v.dropped;
    }
  }

  /** The same for all admitted tasks at once, when no live place loses anything. */
  lemma ConservedMono(c: TaskCodec, w: World, v: World)
    requires Conserved(c, w) && v.start == w.start && v.admitted <= w.admitted
    requires forall e :: e in w.q.stream && c.Id(e.body).Some? ==> e in v.q.stream
    requires forall i :: i in w.q.delayed ==> i in v.q.delayed
    requires Members(w.q.dlq) <= Members(v.q.dlq) + v.dropped
    requires w.completed <= v.completed && w.dropped <= v.dropped
    ensures Conserved(c, v)
  {
    forall x | x in v.admitted ensures Accounted(c, v, x) { AccountedMono(c, w, v, x); }
  }

  lemma AppendAccounts(c: TaskCodec, w: World, body: Bytes)
    requires Conserved(c, w) && w.start <= w.q.lastId
    ensures Conserved(c, w.(q := Append(w.q, body), admitted := w.admitted + IdSet(c, body)))
  {
    var v := w.(q := Append(w.q, body), admitted := w.admitted + IdSet(c, body));
    assert Entry(w.q.lastId + 1, body) in v.q.stream;
    forall x | x in v.admitted ensures Accounted(c, v, x) {
      if x in IdSet(c, body) { assert InStream(c, v, x); } else { AccountedMono(c, w, v, x); }
    }
  }

  /** XADD keeps everything and adds one undelivered entry. */
  lemma AppendKeepsInv(c: TaskCodec, w: World, body: Bytes)
    requires Inv(c, w)
    ensures var v := w.(q := Append(w.q, body), admitted := w.admitted + IdSet(c, body)); Inv(c, v)
  {
    var v := w.(q := Append(w.q, body), admitted := w.admitted + IdSet(c, body));
    var e := Entry(w.q.lastId + 1, body);
    AscendingAppend(w.q.stream, e);
    AppendAccounts(c, w, body);
    assert forall d :: d in v.q.stream <==> d in w.q.stream || d == e;
  }

  /** ZADD after making room: what is pushed out is recorded, everything else is still there. */
  lemma DelayKeepsInv(c: TaskCodec, w: World, score: int, body: Bytes, max: int, drop: bool)
    requires Inv(c, w)
    ensures Inv(c, w.(q := w.q.(delayed := Add(MakeRoom(w.q.delayed, max, drop), score, body)),
                      admitted := w.admitted + IdSet(c, body),
                      dropped := w.dropped + Ids(c, Overflow(w.q.delayed, max, drop))))
  {
    var z := MakeRoom(w.q.delayed, max, drop);
    var v := w.(q := w.q.(delayed := Add(z, score, body)), admitted := w.admitted + IdSet(c, body),
                dropped := w.dropped + Ids(c, Overflow(w.q.delayed, max, drop)));
    assert z == w.q.delayed[..|z|];
    SplitAt(w.q.delayed, |z|);
    AddValid(z, score, body);
    assert Item(score, body) in v.q.delayed;
    forall x | x in v.admitted ensures Accounted(c, v, x) {
      if x in IdSet(c, body) { assert InDelayed(c, v, x); } else { AccountedMono(c, w, v, x); }
    }
  }

  /** XACK and XDEL of a held message keep everything but the accounting of its own task. */
  lemma SettledKeepsRest(c: TaskCodec, w: World, e: Entry)
    requires Inv(c, w) && e in w.held && c.Id(e.body).Some?
    ensures Inv(c, w.(q := Settled(w.q, e.id), admitted := w.admitted - {c.Id(e.body).value}))
  {
    var v := w.(q := Settled(w.q, e.id), admitted := w.admitted - {c.Id(e.body).value});
    AscendingXDel(w.q.stream, e.id);
    forall x | x in v.admitted ensures Accounted(c, v, x) { AccountedMono(c, w, v, x); }
  }

  lemma LocksDoNotMatter(c: TaskCodec, w: World, locks: map<Bytes, Lock>)
    requires Inv(c, w)
    ensures Inv(c, w.(q := w.q.(locks := locks)))
  {
    var v := w.(q := w.q.(locks := locks));
    ConservedMono(c, w, v);
  }

  /** What a dead-letter move makes of the set, its index and the history. */
  function Buried(w: World, now: int, x: Bytes, body: Bytes, max: int): World {
    var z := Add(w.q.dlq, now, x);
    var n := Excess(z, max);
    var index := if x != [] then w.q.index[x := body] else w.q.index;
    w.(q := w.q.(dlq := z[n..], index := index - Members(z[..n])), dropped := w.dropped + Members(z[..n]))
  }

  lemma BuriedAccounts(c: TaskCodec, w: World, now: int, x: Bytes, body: Bytes, max: int)
    requires Conserved(c, w) && Valid(w.q.dlq)
    ensures var v := Buried(w, now, x, body, max); Conserved(c, v) && Accounted(c, v, x)
  {
    var z := Add(w.q.dlq, now, x);
    AddValid(w.q.dlq, now, x);
    SplitAt(z, Excess(z, max));
    ConservedMono(c, w, Buried(w, now, x, body, max));
    assert x in Members(z);
  }

  lemma BuriedShape(c: TaskCodec, w: World, now: int, x: Bytes, body: Bytes, max: int)
    requires Shape(w.q) && PayloadsOk(c, w) && c.Id(body) == Some(x)
    ensures var v := Buried(w, now, x, body, max); Shape(v.q) && PayloadsOk(c, v)
  {
    AddValid(w.q.dlq, now, x);
    SplitAt(Add(w.q.dlq, now, x), Excess(Add(w.q.dlq, now, x), max));
  }

  lemma BuryKeepsInv(c: TaskCodec, w: World, now: int, x: Bytes, body: Bytes, max: int)
    requires Inv(c, w) && c.Id(body) == Some(x)
    ensures Inv(c, Buried(w, now, x, body, max).(admitted := w.admitted + {x}))
  {
    BuriedShape(c, w, now, x, body, max);
    BuriedAccounts(c, w, now, x, body, max);
    AdmitAccounted(c, Buried(w, now, x, body, max), x);
  }

  /** A task that is accounted for may be called admitted. */
  lemma AdmitAccounted(c: TaskCodec, w: World, x: Bytes)
    requires Conserved(c, w) && Accounted(c, w, x)
    ensures Conserved(c, w.(admitted := w.admitted + {x}))
  {
    var v := w.(admitted := w.admitted + {x});
    forall y | y in v.admitted ensures Accounted(c, v, y) { assert Accounted(c, w, y); AccountedMono(c, w, v, y); }
  }

  lemma CompleteKeepsInv(c: TaskCodec, w: World, e: Entry, x: Bytes, locks: map<Bytes, Lock>)
    requires Inv(c, w) && e in w.held && c.Id(e.body) == Some(x)
    ensures Inv(c, w.(q := Settled(w.q, e.id).(locks := locks), completed := w.completed + {x}))
  {
    SettledKeepsRest(c, w, e);
    var r := w.(q := Settled(w.q, e.id), admitted := w.admitted - {x});
    var v := w.(q := Settled(w.q, e.id).(locks := locks), completed := w.completed + {x});
    forall y | y in w.admitted ensures Accounted(c, v, y) {
      if y != x { AccountedMono(c, r, v, y); }
    }
  }

  lemma RequeueKeepsInv(c: TaskCodec, w: World, e: Entry, score: int, body: Bytes, max: int)
    requires Inv(c, w) && e in w.held && c.Id(e.body).Some? && c.Id(body) == c.Id(e.body)
    ensures Inv(c, w.(q := Requeue(w.q, e.id, score, body, max, true),
        dropped := w.dropped + Ids(c, Overflow(w.q.delayed, max, true))))
  {
    var x := c.Id(body).value;
    SettledKeepsRest(c, w, e);
    DelayKeepsInv(c, w.(q := Settled(w.q, e.id), admitted := w.admitted - {x}), score, body, max, true);
    assert w.admitted - {x} + {x} >= w.admitted;
  }

  lemma DeadLetterKeepsInv(c: TaskCodec, w: World, e: Entry, now: int, t: Task, body: Bytes, max: int)
    requires Inv(c, w) && e in w.held && c.Id(e.body) == Some(t.id) == c.Id(body)
    ensures var z := Add(w.q.dlq, now, t.id);
            Inv(c, w.(q := Bury(w.q, e.id, now, t.id, body, t.uniqueKey, t.id, max),
                dropped := w.dropped + Members(z[..Excess(z, max)])))
  {
    var r := w.(q := Settled(w.q, e.id), admitted := w.admitted - {t.id});
    SettledKeepsRest(c, w, e);
    BuryKeepsInv(c, r, now, t.id, body, max);
    assert w.admitted - {t.id} + {t.id} >= w.admitted;
    LocksDoNotMatter(c, Buried(r, now, t.id, body, max).(admitted := r.admitted + {t.id}),
        SettleLock(w.q.locks, t.uniqueKey, t.id));
  }

  /** Every settlement by any worker holding the message, first or stale, keeps the invariant. */
  lemma SettleKeepsInv(c: TaskCodec, w: World, e: Entry, st: Settlement, lim: Limits)
    requires Inv(c, w) && Lawful(c) && e in w.held && SettlementOf(c, e.body, st)
    ensures Inv(c, SettleHeld(c, w, e, st, lim))
  {
    assert c.decode(c.encode(st.t)).Some? && c.Id(c.encode(st.t)) == c.Id(e.body) == Some(st.t.id);
    match st
    case Completed(t) => CompleteKeepsInv(c, w, e, t.id, SettleLock(w.q.locks, t.uniqueKey, t.id));
    case Retried(t, runAt) => RequeueKeepsInv(c, w, e, runAt, c.encode(t), lim.delayedMax);
    case Deferred(t, runAt) => RequeueKeepsInv(c, w, e, runAt, c.encode(t), lim.delayedMax);
    case DeadLettered(t, now) => DeadLetterKeepsInv(c, w, e, now, t, c.encode(t), lim.dlqMax);
  }

  lemma {:induction false} FirstIsLowest(stream: seq<Entry>, delivered: nat)
    requires Ascending(stream) && FirstUndelivered(stream, delivered).Some?
    ensures forall e :: e in stream && e.id > delivered ==> FirstUndelivered(stream, delivered).value.id <= e.id
  {
    if stream[0].id > delivered {
      forall e | e in stream ensures stream[0].id <= e.id {
        var i :| 0 <= i < |stream| && stream[i] == e;
      }
    } else {
      FirstIsLowest(stream[1..], delivered);
    }
  }

  lemma DeliveredIsLowest(w: World, e: Entry)
    requires Shape(w.q) && FirstUndelivered(w.q.stream, w.q.delivered) == Some(e)
    ensures e in w.q.stream && e.id > w.q.delivered
    ensures forall d :: d in w.q.stream ==> d == e || d.id <= w.q.delivered || d.id > e.id
  {
    FirstIsLowest(w.q.stream, w.q.delivered);
    forall d | d in w.q.stream && d.id == e.id ensures d == e { UniqueIds(w.q.stream, d, e); }
  }

  function Delivered(w: World, e: Entry): World {
    w.(q := w.q.(delivered := e.id, pel := w.q.pel[e.id := 1]), held := w.held + {e})
  }

  lemma DeliveredPending(c: TaskCodec, w: World, e: Entry)
    requires PelOk(w) && Reclaimable(c, w) && MarksOk(c, w) && e.id > w.q.delivered
    requires forall d :: d in w.q.stream ==> d == e || d.id <= w.q.delivered || d.id > e.id
    ensures var v := Delivered(w, e); PelOk(v) && Reclaimable(c, v) && MarksOk(c, v)
  {
  }

  lemma DeliveredHeld(w: World, e: Entry)
    requires HeldOk(w) && w.start <= w.q.delivered < e.id
    requires forall d :: d in w.q.stream ==> d == e || d.id <= w.q.delivered || d.id > e.id
    ensures HeldOk(Delivered(w, e))
  {
  }

  lemma DeliverKeepsInv(c: TaskCodec, w: World)
    requires Inv(c, w)
    ensures Inv(c, Next(c, w, Deliver))
  {
    var r := FirstUndelivered(w.q.stream, w.q.delivered);
    if r.Some? {
      DeliveredIsLowest(w, r.value);
      DeliveredPending(c, w, r.value);
      DeliveredHeld(w, r.value);
      ConservedMono(c, w, Delivered(w, r.value));
    }
  }

  lemma ReclaimFound(c: TaskCodec, w: World, id: nat, e: Entry)
    requires Inv(c, w) && e in w.q.stream && e.id == id && id in w.q.pel
    ensures Inv(c, w.(q := w.q.(pel := w.q.pel[id := w.q.pel[id] + 1]), held := w.held + {e}))
  {
    var v := w.(q := w.q.(pel := w.q.pel[id := w.q.pel[id] + 1]), held := w.held + {e});
    forall d | d in w.q.stream && d.id == id ensures d == e { UniqueIds(w.q.stream, d, e); }
    assert PelOk(v) && MarksOk(c, v);
    ConservedMono(c, w, v);
  }

  lemma ReclaimGone(c: TaskCodec, w: World, id: nat)
    requires Inv(c, w) && forall e :: e in w.q.stream ==> e.id != id
    ensures Inv(c, w.(q := w.q.(pel := w.q.pel - {id})))
  {
    ConservedMono(c, w, w.(q := w.q.(pel := w.q.pel - {id})));
  }

  lemma ReclaimedKeepsInv(c: TaskCodec, w: World, id: nat)
    requires Inv(c, w) && id in w.q.pel
    ensures Inv(c, Reclaimed(w, id))
  {
    var r := Lookup(w.q.stream, id);
    if r.Some? { ReclaimFound(c, w, id, r.value); } else { ReclaimGone(c, w, id); }
  }

  lemma ReclaimKeepsInv(c: TaskCodec, w: World, id: nat)
    requires Inv(c, w)
    ensures Inv(c, Next(c, w, Reclaim(id)))
  {
    if id in w.q.pel { ReclaimedKeepsInv(c, w, id); }
  }

  lemma AckCorruptKeepsInv(c: TaskCodec, w: World, e: Entry)
    requires Inv(c, w) && e in w.held && c.Id(e.body).None?
    ensures Inv(c, w.(q := w.q.(pel := w.q.pel - {e.id})))
  {
    var v := w.(q := w.q.(pel := w.q.pel - {e.id}));
    ConservedMono(c, w, v);
  }

  lemma DeleteCorruptKeepsInv(c: TaskCodec, w: World, e: Entry)
    requires Inv(c, w) && e in w.held && c.Id(e.body).None?
    ensures Inv(c, w.(q := w.q.(stream := XDel(w.q.stream, e.id))))
  {
    var v := w.(q := w.q.(stream := XDel(w.q.stream, e.id)));
    AscendingXDel(w.q.stream, e.id);
    ConservedMono(c, w, v);
  }

  lemma EntriesAscending(stream: seq<Entry>, items: ZSet, last: nat)
    requires Ascending(stream) && forall e :: e in stream ==> e.id <= last
    ensures Ascending(stream + Entries(items, last))
    ensures forall e :: e in Entries(items, last) ==> last < e.id <= last + |items|
  {
    var r := stream + Entries(items, last);
    forall i, j | 0 <= i < j < |r| ensures r[i].id < r[j].id {
      if i < |stream| { assert stream[i] in stream; }
    }
  }

  lemma PromoteKeepsInv(c: TaskCodec, w: World, now: int, batch: nat, hard: int)
    requires Inv(c, w)
    ensures Inv(c, Next(c, w, PromoteDue(now, batch, hard)))
  {
    var v := Next(c, w, PromoteDue(now, batch, hard));
    var moved := Promoted(w.q, now, batch, hard);
    var news := Entries(moved, w.q.lastId);
    EntriesAscending(w.q.stream, moved, w.q.lastId);
    RemoveEachValid(w.q.delayed, moved);
    assert forall e :: e in v.q.stream <==> e in w.q.stream || e in news;
    forall x | x in v.admitted ensures Accounted(c, v, x) {
      if InDelayed(c, w, x) {
        var i :| i in w.q.delayed && c.Id(i.member) == Some(x);
        if i in v.q.delayed {
          assert InDelayed(c, v, x);
        } else {
          var y :| y in moved && y.member == i.member;
          var k :| 0 <= k < |moved| && moved[k] == y;
          assert news[k] in v.q.stream && news[k].id > w.start;
          assert InStream(c, v, x);
        }
      } else {
        AccountedMono(c, w, v, x);
      }
    }
  }

  /** The invariant with more tasks admitted is the stronger one. */
  lemma FewerAdmitted(c: TaskCodec, w: World, some: set<Bytes>)
    requires Inv(c, w) && some <= w.admitted
    ensures Inv(c, w.(admitted := some))
  {
    ConservedMono(c, w, w.(admitted := some));
  }

  lemma PromoteMemberKeepsInv(c: TaskCodec, w: World, member: Bytes, hard: int)
    requires Inv(c, w)
    ensures Inv(c, Next(c, w, PromoteMember(member, hard)))
  {
    if !StreamFull(w.q, hard) && member in Members(w.q.delayed) {
      var r := w.(q := w.q.(delayed := Remove(w.q.delayed, member)), admitted := w.admitted - IdSet(c, member));
      RemoveMemberKeepsRest(c, w, member);
      AppendKeepsInv(c, r, member);
      FewerAdmitted(c, r.(q := Append(r.q, member), admitted := r.admitted + IdSet(c, member)), w.admitted);
    }
  }

  lemma RemoveMemberKeepsRest(c: TaskCodec, w: World, member: Bytes)
    requires Inv(c, w)
    ensures Inv(c, w.(q := w.q.(delayed := Remove(w.q.delayed, member)), admitted := w.admitted - IdSet(c, member)))
  {
    var r := w.(q := w.q.(delayed := Remove(w.q.delayed, member)), admitted := w.admitted - IdSet(c, member));
    RemoveValid(w.q.delayed, member);
    forall x | x in r.admitted ensures Accounted(c, r, x) { AccountedMono(c, w, r, x); }
  }

  lemma ZremKeepsInv(c: TaskCodec, w: World, x: Bytes)
    requires Inv(c, w)
    ensures Inv(c, Next(c, w, PurgeZrem(x)))
  {
    RemoveValid(w.q.dlq, x);
    MembersRemove(w.q.dlq, x);
    ConservedMono(c, w, Next(c, w, PurgeZrem(x)));
  }

  lemma HdelKeepsInv(c: TaskCodec, w: World, x: Bytes)
    requires Inv(c, w)
    ensures Inv(c, Next(c, w, PurgeHdel(x)))
  {
    ConservedMono(c, w, Next(c, w, PurgeHdel(x)));
  }

  /** What a consumer had pending may be forgotten when none of it is still owed a run. */
  lemma DelConsumerKeepsInv(c: TaskCodec, w: World, ids: set<nat>)
    requires Inv(c, w) && forall p :: p in ids ==> !OwedAt(c, w, p)
    ensures Inv(c, w.(q := w.q.(pel := w.q.pel - ids)))
  {
    var v := w.(q := w.q.(pel := w.q.pel - ids));
    forall e | e in v.q.stream && c.Id(e.body).Some? && v.start < e.id <= v.q.delivered ensures e.id in v.q.pel {
      assert Owed(c, w, e) && e.id in w.q.pel && OwedAt(c, w, e.id);
    }
    ConservedMono(c, w, v);
  }

  /** A threshold taken from one snapshot has nothing owed below it. */
  lemma ThresholdIsSafe(c: TaskCodec, w: World, threshold: nat)
    requires PelOk(w) && Reclaimable(c, w) && IsThreshold(w.q, threshold)
    ensures threshold <= w.q.delivered && NoneBelow(c, w, threshold)
  {
    forall e | Owed(c, w, e) ensures e.id >= threshold {
      if e.id <= w.q.delivered { assert e.id in w.q.pel.Keys; }
    }
  }

  lemma MarkKeepsInv(c: TaskCodec, w: World, threshold: nat)
    requires Inv(c, w)
    ensures Inv(c, Next(c, w, MarkTrim(threshold)))
  {
    var v := Next(c, w, MarkTrim(threshold));
    if IsThreshold(w.q, threshold) { ThresholdIsSafe(c, w, threshold); }
    forall m, e | m in v.marks && Owed(c, v, e) ensures e.id >= m { assert Owed(c, w, e); }
    ConservedMono(c, w, v);
  }

  /** Nothing below a recorded threshold is both decodable and live. */
  lemma BelowThresholdIsDead(c: TaskCodec, w: World, threshold: nat, e: Entry)
    requires MarksOk(c, w) && threshold in w.marks
    requires e in w.q.stream && e.id > w.start && e.id < threshold
    ensures c.Id(e.body).None?
  {
    assert NoneBelow(c, w, threshold);
    assert Owed(c, w, e) <==> c.Id(e.body).Some?;
  }

  lemma AscendingSuffix(stream: seq<Entry>, n: nat)
    requires Ascending(stream) && n <= |stream|
    ensures Ascending(stream[n..])
    ensures forall e :: e in stream <==> e in stream[..n] || e in stream[n..]
  {
    assert stream == stream[..n] + stream[n..];
  }

  /** No trim below a recorded threshold, however late it runs, touches a live entry. */
  lemma TrimKeepsInv(c: TaskCodec, w: World, threshold: nat, n: nat)
    requires Inv(c, w)
    ensures Inv(c, Next(c, w, Trim(threshold, n)))
  {
    if threshold in w.marks && n <= |w.q.stream| && (forall e :: e in w.q.stream[..n] ==> e.id < threshold) {
      var v := w.(q := w.q.(stream := w.q.stream[n..]));
      AscendingSuffix(w.q.stream, n);
      forall x | x in v.admitted ensures Accounted(c, v, x) {
        forall e | e in w.q.stream && e.id > w.start && c.Id(e.body) == Some(x) ensures e in v.q.stream {
          if e.id < threshold { BelowThresholdIsDead(c, w, threshold, e); }
        }
        AccountedMono(c, w, v, x);
      }
    }
  }

  lemma NothingDropped(c: TaskCodec, w: World)
    ensures w.dropped + Ids(c, []) == w.dropped
  {
  }

  lemma EnqueueKeepsInv(c: TaskCodec, w: World, body: Bytes, hard: int)
    requires Inv(c, w)
    ensures Inv(c, Next(c, w, EnqueueBody(body, hard)))
  {
    NothingDropped(c, w);
    AppendKeepsInv(c, w, body);
  }

  lemma EnqueueUniqueKeepsInv(c: TaskCodec, w: World, t: Task, deadline: int, hard: int)
    requires Inv(c, w)
    ensures Inv(c, Next(c, w, EnqueueUniqueTask(t, deadline, hard)))
  {
    var locks := w.q.locks[t.uniqueKey := Lock(t.id, deadline)];
    NothingDropped(c, w);
    if !HeldByOther(w.q, t.uniqueKey, t.id) && !StreamFull(w.q, hard) {
      LocksDoNotMatter(c, w, locks);
      AppendKeepsInv(c, w.(q := w.q.(locks := locks)), c.encode(t));
    }
  }

  lemma DelayUniqueKeepsInv(c: TaskCodec, w: World, t: Task, deadline: int, score: int, max: int, drop: bool)
    requires Inv(c, w)
    ensures Inv(c, Next(c, w, DelayUniqueTask(t, deadline, score, max, drop)))
  {
    var locks := w.q.locks[t.uniqueKey := Lock(t.id, deadline)];
    if !HeldByOther(w.q, t.uniqueKey, t.id) && !DelayedFull(w.q, max, drop) {
      LocksDoNotMatter(c, w, locks);
      DelayKeepsInv(c, w.(q := w.q.(locks := locks)), score, c.encode(t), max, drop);
    }
  }

  predicate IsHeldStep(a: Step) { a.Settle? || a.AckCorrupt? || a.DeleteCorrupt? || a.ReleaseLock? || a.RenewLock? }
  predicate IsAdmission(a: Step) { a.EnqueueBody? || a.EnqueueUniqueTask? || a.DelayBody? || a.DelayUniqueTask? }

  lemma HeldStepKeepsInv(c: TaskCodec, w: World, a: Step)
    requires Inv(c, w) && Lawful(c) && IsHeldStep(a)
    ensures Inv(c, Next(c, w, a))
  {
    match a
    case Settle(e, st, lim) =>
      if e in w.held && SettlementOf(c, e.body, st) { SettleKeepsInv(c, w, e, st, lim); }
    case AckCorrupt(e) =>
      if e in w.held && c.Id(e.body).None? { AckCorruptKeepsInv(c, w, e); }
    case DeleteCorrupt(e) =>
      if e in w.held && c.Id(e.body).None? { DeleteCorruptKeepsInv(c, w, e); }
    case ReleaseLock(e) => LockStepKeepsInv(c, w, a);
    case RenewLock(e, deadline) => LockStepKeepsInv(c, w, a);
  }

  lemma LockStepKeepsInv(c: TaskCodec, w: World, a: Step)
    requires Inv(c, w) && (a.ReleaseLock? || a.RenewLock?)
    ensures Inv(c, Next(c, w, a))
  {
    var v := Next(c, w, a);
    assert v == w.(q := w.q.(locks := v.q.locks));
    LocksDoNotMatter(c, w, v.q.locks);
  }

  lemma AdmissionKeepsInv(c: TaskCodec, w: World, a: Step)
    requires Inv(c, w) && IsAdmission(a)
    ensures Inv(c, Next(c, w, a))
  {
    match a
    case EnqueueBody(body, hard) => EnqueueKeepsInv(c, w, body, hard);
    case EnqueueUniqueTask(t, deadline, hard) => EnqueueUniqueKeepsInv(c, w, t, deadline, hard);
    case DelayBody(score, body, max, drop) => DelayKeepsInv(c, w, score, body, max, drop);
    case DelayUniqueTask(t, deadline, score, max, drop) => DelayUniqueKeepsInv(c, w, t, deadline, score, max, drop);
  }

  lemma NextKeepsInv(c: TaskCodec, w: World, a: Step)
    requires Inv(c, w) && Lawful(c)
    ensures Inv(c, Next(c, w, a))
  {
    if IsHeldStep(a) {
      HeldStepKeepsInv(c, w, a);
    } else if IsAdmission(a) {
      AdmissionKeepsInv(c, w, a);
    } else {
      match a
      case Deliver => DeliverKeepsInv(c, w);
      case Reclaim(id) => ReclaimKeepsInv(c, w, id);
      case ExpireLock(key) => LocksDoNotMatter(c, w, w.q.locks - {key});
      case PromoteDue(now, batch, hard) => PromoteKeepsInv(c, w, now, batch, hard);
      case PromoteMember(member, hard) => PromoteMemberKeepsInv(c, w, member, hard);
      case PurgeZrem(x) => ZremKeepsInv(c, w, x);
      case PurgeHdel(x) => HdelKeepsInv(c, w, x);
      case DelConsumer(ids) => if forall p :: p in ids ==> !OwedAt(c, w, p) { DelConsumerKeepsInv(c, w, ids); }
      case MarkTrim(threshold) => MarkKeepsInv(c, w, threshold);
      case Trim(threshold, n) => TrimKeepsInv(c, w, threshold, n);
    }
  }

  lemma {:induction false} RunKeepsInv(c: TaskCodec, w: World, steps: seq<Step>)
    requires Inv(c, w) && Lawful(c)
    ensures Inv(c, Run(c, w, steps))
    decreases steps
  {
    if steps != [] {
      NextKeepsInv(c, w, steps[0]);
      RunKeepsInv(c, Next(c, w, steps[0]), steps[1..]);
    }
  }

  // ---- main results -------------------------------------------------------

  /** A task can still be executed: an entry for it is undelivered, or pending and so reclaimable. */
  ghost predicate Runnable(c: TaskCodec, w: World, x: Bytes) {
    exists e :: e in w.q.stream && c.Id(e.body) == Some(x) && (e.id > w.q.delivered || e.id in w.q.pel)
  }

  /** At-least-once over whole runs: after any interleaving, every admitted task is runnable,
      waiting in the delayed set, a dead letter, completed, or dropped by a configured limit. */
  lemma AtLeastOnce(c: TaskCodec, w: World, steps: seq<Step>, x: Bytes)
    requires Init(c, w) && Lawful(c) && x in Run(c, w, steps).admitted
    ensures var v := Run(c, w, steps);
            Runnable(c, v, x) || InDelayed(c, v, x) || x in Members(v.q.dlq) || x in v.completed || x in v.dropped
  {
    RunKeepsInv(c, w, steps);
    var v := Run(c, w, steps);
    if InStream(c, v, x) {
      var e :| e in v.q.stream && e.id > v.start && c.Id(e.body) == Some(x);
      assert e.id > v.q.delivered || e.id in v.q.pel;
    }
  }

  /** Steps that no cap and no age limit can make lossy. */
  predicate Uncapped(a: Step) {
    match a
    case DelayBody(_, _, max, drop) => max <= 0 || !drop
    case DelayUniqueTask(_, _, _, max, drop) => max <= 0 || !drop
    case Settle(_, _, lim) => lim.dlqMax <= 0 && lim.delayedMax <= 0
    case PurgeZrem(_) => false
    case _ => true
  }

  lemma UncappedDropsNothing(c: TaskCodec, w: World, a: Step)
    requires Uncapped(a)
    ensures Next(c, w, a).dropped == w.dropped
  {
    assert Ids(c, []) == {} && Members([]) == {};
  }

  lemma {:induction false} UncappedRunDropsNothing(c: TaskCodec, w: World, steps: seq<Step>)
    requires forall a :: a in steps ==> Uncapped(a)
    ensures Run(c, w, steps).dropped == w.dropped
    decreases steps
  {
    if steps != [] {
      UncappedDropsNothing(c, w, steps[0]);
      UncappedRunDropsNothing(c, Next(c, w, steps[0]), steps[1..]);
    }
  }

  /** Without caps and age limits nothing is ever lost. */
  lemma NothingLostWithoutCaps(c: TaskCodec, w: World, steps: seq<Step>, x: Bytes)
    requires Init(c, w) && Lawful(c) && w.dropped == {} && (forall a :: a in steps ==> Uncapped(a))
    requires x in Run(c, w, steps).admitted
    ensures var v := Run(c, w, steps);
            Runnable(c, v, x) || InDelayed(c, v, x) || x in Members(v.q.dlq) || x in v.completed
  {
    AtLeastOnce(c, w, steps, x);
    UncappedRunDropsNothing(c, w, steps);
  }

  /** Creating the group at "$" splits the stream for good: in every reachable state, exactly the
      decodable entries appended after that moment are undelivered or reclaimable. */
  lemma RunnableExactlyAfterGroupStart(c: TaskCodec, w: World, steps: seq<Step>, e: Entry)
    requires Init(c, w) && Lawful(c)
    requires e in Run(c, w, steps).q.stream && c.Id(e.body).Some?
    ensures var v := Run(c, w, steps);
            (e.id > v.q.delivered || e.id in v.q.pel) <==> e.id > w.start
  {
    RunKeepsInv(c, w, steps);
    RunKeepsStart(c, w, steps);
  }

  lemma {:induction false} RunKeepsStart(c: TaskCodec, w: World, steps: seq<Step>)
    ensures Run(c, w, steps).start == w.start
    decreases steps
  {
    if steps != [] { RunKeepsStart(c, Next(c, w, steps[0]), steps[1..]); }
  }

  /** Whatever a queue holds when its group is created can be deleted unread: in any initial state with
      no delivery yet, a trim to the group's last-delivered ID may take every entry below it, and no
      worker ever held one. */
  lemma BacklogIsTrimmedUnread(c: TaskCodec, w: World, n: nat)
    requires Init(c, w) && w.start > 0 && n <= |w.q.stream| && forall e :: e in w.q.stream[..n] ==> e.id < w.start
    ensures var v := Run(c, w, [MarkTrim(w.start), Trim(w.start, n)]);
            v.q.stream == w.q.stream[n..] && v.held == {} && v.completed == w.completed && v.dropped == w.dropped
  {
    var w1 := Next(c, w, MarkTrim(w.start));
    assert w1 == w.(marks := {w.start});
    var w2 := Next(c, w1, Trim(w.start, n));
    var steps := [MarkTrim(w.start), Trim(w.start, n)];
    assert steps[1..] == [Trim(w.start, n)] && [Trim(w.start, n)][1..] == [];
    assert Run(c, w1, [Trim(w.start, n)]) == Run(c, w2, []) == w2;
  }
}
