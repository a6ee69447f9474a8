/** Dead-letter management: delete, retry one, retry all. */
module DeadLetters {
  import opened Bytes
  import opened ZSets
  import opened Codec
  import opened Broker
  import opened Protocol
  import opened DeadLetterIndex

  // ---- delete -------------------------------------------------------------------

  /** delete_dead_letter: ZREM and HDEL, but only for an indexed ID. */
  function Deleted(s: State, id: Bytes): State {
    if id in s.index then s.(dlq := Remove(s.dlq, id), index := s.index - {id}) else s
  }

  method DeleteDeadLetter(q: RedisQueue, id: Bytes)
    modifies q`dlq, q`index
    ensures q.Snapshot() == Deleted(old(q.Snapshot()), id)
  {
    if id in q.index {
      q.dlq := Remove(q.dlq, id);
      q.index := q.index - {id};
    }
  }

  /** Deleting keeps the set and its index in step, and takes out just the ID asked for. */
  lemma DeleteKeepsIndex(s: State, id: Bytes)
    requires Valid(s.dlq) && IndexAgrees(s)
    ensures var t := Deleted(s, id); Valid(t.dlq) && IndexAgrees(t)
    ensures Members(Deleted(s, id).dlq) == if id == [] then Members(s.dlq) else Members(s.dlq) - {id}
  {
    RemoveValid(s.dlq, id);
    MembersRemove(s.dlq, id);
    assert id in s.index.Keys <==> id in Members(s.dlq) && id != [];
  }

  function DeletedAll(s: State, ids: seq<Bytes>): State
    decreases ids
  {
    if ids == [] then s else DeletedAll(Deleted(s, ids[0]), ids[1..])
  }

  lemma {:induction false} UnindexedStays(s: State, ids: seq<Bytes>, m: Bytes)
    requires m in Members(s.dlq) && m !in s.index
    ensures m in Members(DeletedAll(s, ids).dlq)
    decreases ids
  {
    if ids != [] {
      MembersRemove(s.dlq, ids[0]);
      UnindexedStays(Deleted(s, ids[0]), ids[1..], m);
    }
  }

  lemma {:induction false} DeletingAllEmpties(s: State) returns (ids: seq<Bytes>)
    requires Valid(s.dlq) && Members(s.dlq) <= s.index.Keys
    ensures DeletedAll(s, ids).dlq == []
    decreases |s.dlq|
  {
    ids := [];
    if s.dlq != [] {
      var m := s.dlq[0].member;
      assert m in Members(s.dlq);
      RemoveValid(s.dlq, m);
      MembersRemove(s.dlq, m);
      RemoveSize(s.dlq, m);
      var rest := DeletingAllEmpties(Deleted(s, m));
      ids := [m] + rest;
      assert ids[1..] == rest;
    }
  }

  /** The delete script can empty the dead letters exactly when each has an index entry. */
  lemma CanBeEmptiedIff(s: State)
    requires Valid(s.dlq)
    ensures (exists ids :: DeletedAll(s, ids).dlq == []) <==> Members(s.dlq) <= s.index.Keys
  {
    if m :| m in Members(s.dlq) && m !in s.index {
      forall ids ensures DeletedAll(s, ids).dlq != [] {
        UnindexedStays(s, ids, m);
      }
    } else {
      var ids := DeletingAllEmpties(s);
    }
  }

  // ---- retry --------------------------------------------------------------------

  /** What a retried dead letter is enqueued as. */
  function Reset(t: Task): Task { t.(retry := 0, lastError := []) }

  /** EnqueueClient.Enqueue, as far as the queue's keys go. */
  function Admission(c: TaskCodec, s: State, t: Task, deadline: int, hard: int): (State, int) {
    if t.uniqueKey != [] then EnqueueUnique(s, t.uniqueKey, t.id, deadline, c.encode(t), hard)
    else EnqueueStream(s, c.encode(t), hard)
  }

  method Enqueue(c: TaskCodec, q: RedisQueue, t: Task, deadline: int, hard: int, reaches: bool) returns (ok: bool)
    modifies q`stream, q`lastId, q`locks
    ensures ok <==> reaches && Admission(c, old(q.Snapshot()), t, deadline, hard).1 == OK
    ensures q.Snapshot() == if ok then Admission(c, old(q.Snapshot()), t, deadline, hard).0 else old(q.Snapshot())
  {
    var serialized := c.encode(t);
    if !reaches { return false; }
    if t.uniqueKey != [] {
      if t.uniqueKey in q.locks && q.locks[t.uniqueKey].owner != t.id { return false; }
    }
    if hard > 0 && |q.stream| >= hard { return false; }
    if t.uniqueKey != [] { q.locks := q.locks[t.uniqueKey := Lock(t.id, deadline)]; }
    q.stream := q.stream + [Entry(q.lastId + 1, serialized)];
    q.lastId := q.lastId + 1;
    ok := true;
  }

  // ---- the retry-all loop, over any state ------------------------------------------------

  function Lookup1(index: map<Bytes, Bytes>, id: Bytes): Option<Bytes> {
    if id in index then Some(index[id]) else None
  }

  /** HMGET. */
  function Snapshots(z: ZSet, index: map<Bytes, Bytes>): (r: seq<Option<Bytes>>)
    ensures |r| == |z| && forall i :: 0 <= i < |r| ==> r[i] == Lookup1(index, z[i].member)
  {
    if z == [] then [] else [Lookup1(index, z[0].member)] + Snapshots(z[1..], index)
  }

  function Read(c: TaskCodec, payload: Option<Bytes>): Option<Task> {
    if payload.Some? then c.decode(payload.value) else None
  }

  /** How a retry-all stands: the queue, the count, and whether every enqueue so far was accepted. */
  datatype Tally = Tally(q: State, count: nat, accepted: bool)

  /** The enqueues of one loop: their lock deadlines and the stream's hard limit. */
  datatype Terms = Terms(deadline: Task -> int, hard: int)

  /** One item: what does not decode is deleted, the rest is enqueued and deleted under its own ID. */
  function Item1(c: TaskCodec, y: Tally, id: Bytes, payload: Option<Bytes>, terms: Terms): Tally {
    var t := Read(c, payload);
    if t.None? then y.(q := Deleted(y.q, id))
    else
      var r := Admission(c, y.q, Reset(t.value), terms.deadline(Reset(t.value)), terms.hard);
      Tally(Deleted(r.0, t.value.id), y.count + 1, y.accepted && r.1 == OK)
  }

  /** The first k items of a batch as it was read. */
  function First(c: TaskCodec, y: Tally, batch: ZSet, members: seq<Option<Bytes>>, k: nat, terms: Terms): Tally
    requires k <= |batch| == |members|
  {
    if k == 0 then y
    else Item1(c, First(c, y, batch, members, k - 1, terms), batch[k - 1].member, members[k - 1], terms)
  }

  /** The stream after a retry: after what it held before it has, for each payload that decodes and in
      their order, one more entry with that task encoded anew, without attempts and without an error and
      otherwise unchanged. `from` lists those payloads. */
  ghost predicate Revives(c: TaskCodec, payloads: seq<Option<Bytes>>, before: seq<Entry>, after: seq<Entry>,
      from: seq<nat>)
  {
    && |after| == |before| + |from| && before <= after
    && (forall i, j :: 0 <= i < j < |from| ==> from[i] < from[j])
    && (forall j :: 0 <= j < |from| ==>
          && from[j] < |payloads| && Decodes(c, payloads[from[j]])
          && after[|before| + j].body
             == c.encode(c.decode(payloads[from[j]].value).value.(retry := 0, lastError := [])))
    && (forall i: nat :: i < |payloads| && Decodes(c, payloads[i]) ==> i in from)
  }

  predicate Decodes(c: TaskCodec, payload: Option<Bytes>) { payload.Some? && c.decode(payload.value).Some? }

  /** In the binary format a revived task reads back as itself, with no attempts and no error. */
  lemma RevivedReadsBack(payloads: seq<Option<Bytes>>, before: seq<Entry>, after: seq<Entry>, from: seq<nat>, j: nat)
    requires Revives(BINARY, payloads, before, after, from) && j < |from|
    ensures var t := Decode(payloads[from[j]].value).value;
            Decode(after[|before| + j].body) == Some(t.(retry := 0, lastError := []))
  {
    var t := Decode(payloads[from[j]].value).value;
    var u := t.(retry := 0, lastError := []);
    DecodedFits(payloads[from[j]].value, EMPTY_TASK);
    RoundTrip(u, []);
    assert Encode(u) + [] == Encode(u);
  }

  lemma RevivesNone(c: TaskCodec, stream: seq<Entry>)
    ensures Revives(c, [], stream, stream, [])
  {
  }

  lemma RevivesNoMore(c: TaskCodec, payloads: seq<Option<Bytes>>, p: Option<Bytes>, before: seq<Entry>,
      after: seq<Entry>, from: seq<nat>)
    requires Revives(c, payloads, before, after, from) && !Decodes(c, p)
    ensures Revives(c, payloads + [p], before, after, from)
  {
  }

  lemma RevivesOneMore(c: TaskCodec, payloads: seq<Option<Bytes>>, p: Option<Bytes>, before: seq<Entry>,
      after: seq<Entry>, from: seq<nat>, e: Entry)
    requires Revives(c, payloads, before, after, from) && Decodes(c, p)
    requires e.body == c.encode(c.decode(p.value).value.(retry := 0, lastError := []))
    ensures Revives(c, payloads + [p], before, after + [e], from + [|payloads|])
  {
    var all := from + [|payloads|];
    forall i: nat | i < |payloads| + 1 && Decodes(c, (payloads + [p])[i]) ensures i in all {
      if i < |payloads| {
        assert i in from;
      } else {
        assert all[|from|] == i;
      }
    }
  }

  /** One accepted item: what decodes is one more entry at the end of the stream, and counted. */
  lemma ItemAppends(c: TaskCodec, y: Tally, id: Bytes, payload: Option<Bytes>, terms: Terms) returns (last: seq<Entry>)
    requires Item1(c, y, id, payload, terms).accepted
    ensures y.accepted
    ensures Item1(c, y, id, payload, terms).q.stream == y.q.stream + last
    ensures Item1(c, y, id, payload, terms).count == y.count + |last|
    ensures if Decodes(c, payload)
            then |last| == 1 && last[0].body == c.encode(c.decode(payload.value).value.(retry := 0, lastError := []))
            else last == []
  {
    last := [];
    if Decodes(c, payload) {
      last := [Entry(y.q.lastId + 1, c.encode(c.decode(payload.value).value.(retry := 0, lastError := [])))];
    }
  }

  lemma ItemRevives(c: TaskCodec, payloads: seq<Option<Bytes>>, before: seq<Entry>, y: Tally, from: seq<nat>,
      id: Bytes, payload: Option<Bytes>, terms: Terms)
    returns (more: seq<nat>)
    requires Revives(c, payloads, before, y.q.stream, from) && Item1(c, y, id, payload, terms).accepted
    ensures var v := Item1(c, y, id, payload, terms);
            Revives(c, payloads + [payload], before, v.q.stream, more) && v.count - |more| == y.count - |from|
  {
    var last := ItemAppends(c, y, id, payload, terms);
    if Decodes(c, payload) {
      RevivesOneMore(c, payloads, payload, before, y.q.stream, from, last[0]);
      assert last == [last[0]];
      more := from + [|payloads|];
    } else {
      RevivesNoMore(c, payloads, payload, before, y.q.stream, from);
      assert y.q.stream + last == y.q.stream;
      more := from;
    }
  }

  lemma {:induction false} FirstRevives(c: TaskCodec, y: Tally, batch: ZSet, members: seq<Option<Bytes>>, k: nat,
      terms: Terms)
    returns (from: seq<nat>)
    requires k <= |batch| == |members| && First(c, y, batch, members, k, terms).accepted
    ensures var v := First(c, y, batch, members, k, terms);
            Revives(c, members[..k], y.q.stream, v.q.stream, from) && v.count == y.count + |from|
  {
    from := [];
    if k == 0 {
      RevivesNone(c, y.q.stream);
      assert members[..0] == [];
    } else {
      var u, id, p := First(c, y, batch, members, k - 1, terms), batch[k - 1].member, members[k - 1];
      assert First(c, y, batch, members, k, terms) == Item1(c, u, id, p, terms);
      var less := FirstRevives(c, y, batch, members, k - 1, terms);
      from := ItemRevives(c, members[..k - 1], y.q.stream, u, less, id, p, terms);
      assert members[..k] == members[..k - 1] + [p];
    }
  }

  /** One iteration of the inner loop. */
  method RetryNext(c: TaskCodec, q: RedisQueue, id: Bytes, payload: Option<Bytes>, terms: Terms, reaches: bool,
      total: nat)
    returns (go: bool, now: nat)
    modifies q
    ensures Tally(q.Snapshot(), now, true) ==
            var y := Tally(old(q.Snapshot()), total, true); if go then Item1(c, y, id, payload, terms) else y
  {
    go, now := true, total;
    if payload.None? {
      DeleteDeadLetter(q, id);
      return;
    }
    var t := c.decode(payload.value);
    if t.None? {
      DeleteDeadLetter(q, id);
      return;
    }
    go := Enqueue(c, q, Reset(t.value), terms.deadline(Reset(t.value)), terms.hard, reaches);
    if !go { return; }
    DeleteDeadLetter(q, t.value.id);
    now := total + 1;
  }

  /** The inner loop over one batch; it stops after `k` items when an enqueue fails. */
  method RetryBatch(c: TaskCodec, q: RedisQueue, batch: ZSet, members: seq<Option<Bytes>>, terms: Terms,
                    reaches: Bytes -> bool, total: nat)
    returns (go: bool, now: nat, ghost k: nat)
    requires |batch| == |members|
    modifies q
    ensures k <= |batch| && (go ==> k == |batch|)
    ensures Tally(q.Snapshot(), now, true) == First(c, Tally(old(q.Snapshot()), total, true), batch, members, k, terms)
  {
    go, now, k := true, total, 0;
    ghost var y := Tally(q.Snapshot(), total, true);
    for i := 0 to |batch|
      invariant go && k == i && Tally(q.Snapshot(), now, true) == First(c, y, batch, members, i, terms)
    {
      var id := batch[i].member;
      go, now := RetryNext(c, q, id, members[i], terms, reaches(id), now);
      if !go { return; }
      k := k + 1;
    }
  }

  function NextBatch(s: State): ZSet { RangeByRank(s.dlq, 0, 99) }

  /** The first k items of the turn of the outer loop that starts here. */
  function Part(c: TaskCodec, y: Tally, k: nat, terms: Terms): Tally
    requires k <= |NextBatch(y.q)|
  {
    First(c, y, NextBatch(y.q), Snapshots(NextBatch(y.q), y.q.index), k, terms)
  }

  /** One turn of the outer loop that meets no error. */
  function Round(c: TaskCodec, y: Tally, terms: Terms): Tally { Part(c, y, |NextBatch(y.q)|, terms) }

  /** n turns; the loop ends without error when it finds no dead letter left. */
  function Rounds(c: TaskCodec, y: Tally, n: nat, terms: Terms): Tally
    decreases n
  {
    if n == 0 then y else Rounds(c, Round(c, y, terms), n - 1, terms)
  }

  /** While every enqueue is accepted, a turn over any state revives what decodes of the batch it read, and
      counts it. */
  lemma PartRevives(c: TaskCodec, y: Tally, k: nat, terms: Terms) returns (from: seq<nat>)
    requires k <= |NextBatch(y.q)| && Part(c, y, k, terms).accepted
    ensures var v := Part(c, y, k, terms);
            && Revives(c, Snapshots(NextBatch(y.q), y.q.index)[..k], y.q.stream, v.q.stream, from)
            && v.count == y.count + |from|
  {
    from := FirstRevives(c, y, NextBatch(y.q), Snapshots(NextBatch(y.q), y.q.index), k, terms);
  }

  /** One turn of the outer loop, as it runs over any state; it stops after `k` items when an enqueue fails. */
  method RetryRound(c: TaskCodec, q: RedisQueue, terms: Terms, reaches: Bytes -> bool, total: nat)
    returns (go: bool, empty: bool, now: nat, ghost k: nat)
    modifies q
    ensures var y := Tally(old(q.Snapshot()), total, true);
            && k <= |NextBatch(y.q)| && empty == (NextBatch(y.q) == [])
            && Tally(q.Snapshot(), now, true) == Part(c, y, k, terms)
            && (go ==> k == |NextBatch(y.q)|)
  {
    var batch := RangeByRank(q.dlq, 0, 99);
    empty := |batch| == 0;
    go, now, k := RetryBatch(c, q, batch, Snapshots(batch, q.index), terms, reaches, total);
  }

  // ---- what keeps the loop from ending ------------------------------------------------------

  predicate Stuck(s: State, m: Bytes) { m in Members(s.dlq) && m !in s.index }

  lemma StuckDelete(s: State, id: Bytes, m: Bytes)
    requires Stuck(s, m)
    ensures Stuck(Deleted(s, id), m)
  {
    MembersRemove(s.dlq, id);
  }

  lemma {:induction false} StuckBatch(c: TaskCodec, y: Tally, batch: ZSet, members: seq<Option<Bytes>>, k: nat,
      terms: Terms, m: Bytes)
    requires k <= |batch| == |members| && Stuck(y.q, m)
    ensures Stuck(First(c, y, batch, members, k, terms).q, m)
  {
    if k > 0 {
      StuckBatch(c, y, batch, members, k - 1, terms, m);
      var u, t := First(c, y, batch, members, k - 1, terms).q, Read(c, members[k - 1]);
      if t.None? {
        StuckDelete(u, batch[k - 1].member, m);
      } else {
        StuckDelete(Admission(c, u, Reset(t.value), terms.deadline(Reset(t.value)), terms.hard).0, t.value.id, m);
      }
    }
  }

  /** No turn of the loop removes a dead letter without an index entry. */
  lemma {:induction false} StuckForever(c: TaskCodec, y: Tally, n: nat, terms: Terms, m: Bytes)
    requires Stuck(y.q, m)
    ensures Stuck(Rounds(c, y, n, terms).q, m)
    decreases n
  {
    if n > 0 {
      var batch := NextBatch(y.q);
      StuckBatch(c, y, batch, Snapshots(batch, y.q.index), |batch|, terms, m);
      StuckForever(c, Round(c, y, terms), n - 1, terms, m);
    }
  }

  /** A payload that decodes carries its key as its ID. */
  ghost predicate KeyedById(c: TaskCodec, s: State) {
    forall k :: k in s.index && c.Id(s.index[k]).Some? ==> c.Id(s.index[k]) == Some(k)
  }

  /** What the retry-all loop needs to end: every dead letter has a payload, keyed by its ID. */
  ghost predicate Sound(c: TaskCodec, s: State) {
    Valid(s.dlq) && Members(s.dlq) <= s.index.Keys && KeyedById(c, s)
  }

  /** Keying matters too: a payload whose ID is not its key is enqueued again in every turn. */
  lemma {:induction false} MisfiledPayloadRepeats(c: TaskCodec, y: Tally, x: Item, t: Task, n: nat,
      deadline: Task -> int)
    requires y.q.dlq == [x] && x.member in y.q.index && c.decode(y.q.index[x.member]) == Some(t)
    requires t.id !in y.q.index && t.uniqueKey == []
    ensures var r := Rounds(c, y, n, Terms(deadline, 0));
            r.q.dlq == y.q.dlq && r.q.index == y.q.index && |r.q.stream| == |y.q.stream| + n && r.count == y.count + n
    decreases n
  {
    if n > 0 {
      var batch, members := NextBatch(y.q), Snapshots(NextBatch(y.q), y.q.index);
      assert batch == [x] && members == [Some(y.q.index[x.member])];
      assert First(c, y, batch, members, 1, Terms(deadline, 0))
          == Item1(c, y, x.member, members[0], Terms(deadline, 0));
      MisfiledPayloadRepeats(c, Round(c, y, Terms(deadline, 0)), x, t, n - 1, deadline);
    }
  }

  // ---- what the loop achieves -------------------------------------------------------------------

  function Payload(c: TaskCodec, index: map<Bytes, Bytes>, id: Bytes): Option<Task> {
    if id in index then c.decode(index[id]) else None
  }

  /** The decodable ones of the k lowest-ranked dead letters, in rank order, reset for their new run. */
  function Revived(c: TaskCodec, z: ZSet, index: map<Bytes, Bytes>, k: nat): seq<Task>
    requires k <= |z|
  {
    if k == 0 then []
    else
      var t := Payload(c, index, z[k - 1].member);
      Revived(c, z, index, k - 1) + if t.Some? then [Reset(t.value)] else []
  }

  function EntriesFor(c: TaskCodec, ts: seq<Task>, last: nat): seq<Entry> {
    seq(|ts|, i requires 0 <= i < |ts| => Entry(last + 1 + i, c.encode(ts[i])))
  }

  function Lock1(locks: map<Bytes, Lock>, t: Task, deadline: Task -> int): map<Bytes, Lock> {
    if t.uniqueKey != [] then locks[t.uniqueKey := Lock(t.id, deadline(t))] else locks
  }

  function LocksFor(locks: map<Bytes, Lock>, ts: seq<Task>, deadline: Task -> int): map<Bytes, Lock> {
    if ts == [] then locks else Lock1(LocksFor(locks, ts[..|ts| - 1], deadline), ts[|ts| - 1], deadline)
  }

  /** The index without the k lowest-ranked dead letters. */
  function IndexFrom(z: ZSet, index: map<Bytes, Bytes>, k: nat): map<Bytes, Bytes>
    requires k <= |z|
  {
    if k == 0 then index else IndexFrom(z, index, k - 1) - {z[k - 1].member}
  }

  /** The queue once the k lowest-ranked dead letters have been dealt with: each decodable one is back in
      the stream, in rank order, and they are all out of the set and its index. */
  function After(c: TaskCodec, s: State, k: nat, deadline: Task -> int): State
    requires k <= |s.dlq|
  {
    var ts := Revived(c, s.dlq, s.index, k);
    s.(stream := s.stream + EntriesFor(c, ts, s.lastId), lastId := s.lastId + |ts|,
       locks := LocksFor(s.locks, ts, deadline),
       dlq := s.dlq[k..], index := IndexFrom(s.dlq, s.index, k))
  }

  lemma AdmissionIs(c: TaskCodec, s: State, t: Task, deadline: Task -> int, hard: int)
    requires Admission(c, s, t, deadline(t), hard).1 == OK
    ensures Admission(c, s, t, deadline(t), hard).0 == Append(s.(locks := Lock1(s.locks, t, deadline)), c.encode(t))
  {
  }

  lemma RemoveNext(z: ZSet, k: nat)
    requires Valid(z) && k < |z|
    ensures Remove(z[k..], z[k].member) == z[k + 1..]
  {
    SplitAt(z, k);
    assert z[k..][0] == z[k] && z[k..][1..] == z[k + 1..];
    RemoveHead(z[k..]);
  }

  /** The dead letters from rank k on still have their index entries. */
  lemma {:induction false} StillIndexed(z: ZSet, index: map<Bytes, Bytes>, k: nat, i: nat)
    requires Valid(z) && Members(z) <= index.Keys && k <= i < |z|
    ensures z[i].member in IndexFrom(z, index, k) && IndexFrom(z, index, k)[z[i].member] == index[z[i].member]
    decreases k
  {
    if k == 0 {
      assert z[i] in z && z[i].member in Members(z);
    } else {
      StillIndexed(z, index, k - 1, i);
    }
  }

  /** Deleting the next dead letter, in whatever state the rest of the queue is. */
  lemma NextDeadLetter(s: State, u: State, k: nat)
    requires Valid(s.dlq) && Members(s.dlq) <= s.index.Keys && k < |s.dlq|
    requires u.dlq == s.dlq[k..] && u.index == IndexFrom(s.dlq, s.index, k)
    ensures Deleted(u, s.dlq[k].member) == u.(dlq := s.dlq[k + 1..], index := IndexFrom(s.dlq, s.index, k + 1))
  {
    RemoveNext(s.dlq, k);
    StillIndexed(s.dlq, s.index, k, k);
  }

  /** An undecodable dead letter is deleted and not counted. */
  lemma AfterCorrupt(c: TaskCodec, s: State, k: nat, deadline: Task -> int)
    requires Sound(c, s) && k < |s.dlq| && Payload(c, s.index, s.dlq[k].member).None?
    ensures Deleted(After(c, s, k, deadline), s.dlq[k].member) == After(c, s, k + 1, deadline)
    ensures |Revived(c, s.dlq, s.index, k + 1)| == |Revived(c, s.dlq, s.index, k)|
  {
    NextDeadLetter(s, After(c, s, k, deadline), k);
    assert Revived(c, s.dlq, s.index, k) + [] == Revived(c, s.dlq, s.index, k);
  }

  lemma EntriesForSnoc(c: TaskCodec, ts: seq<Task>, t: Task, last: nat)
    ensures EntriesFor(c, ts + [t], last) == EntriesFor(c, ts, last) + [Entry(last + |ts| + 1, c.encode(t))]
  {
  }

  lemma LocksForSnoc(locks: map<Bytes, Lock>, ts: seq<Task>, t: Task, deadline: Task -> int)
    ensures LocksFor(locks, ts + [t], deadline) == Lock1(LocksFor(locks, ts, deadline), t, deadline)
  {
    assert (ts + [t])[..|ts|] == ts;
  }

  lemma AfterSnoc(c: TaskCodec, s: State, k: nat, t: Task, deadline: Task -> int)
    requires k < |s.dlq| && Payload(c, s.index, s.dlq[k].member) == Some(t)
    ensures var u := After(c, s, k, deadline);
            After(c, s, k + 1, deadline) == Append(u.(locks := Lock1(u.locks, Reset(t), deadline)), c.encode(Reset(t)))
              .(dlq := s.dlq[k + 1..], index := IndexFrom(s.dlq, s.index, k + 1))
  {
    var ts := Revived(c, s.dlq, s.index, k);
    EntriesForSnoc(c, ts, Reset(t), s.lastId);
    LocksForSnoc(s.locks, ts, Reset(t), deadline);
    ConcatAssoc(s.stream, EntriesFor(c, ts, s.lastId), [Entry(s.lastId + |ts| + 1, c.encode(Reset(t)))]);
  }

  lemma IdIsKey(c: TaskCodec, s: State, k: nat, t: Task)
    requires Sound(c, s) && k < |s.dlq| && Payload(c, s.index, s.dlq[k].member) == Some(t)
    ensures t.id == s.dlq[k].member
  {
    assert c.Id(s.index[s.dlq[k].member]) == Some(t.id);
  }

  /** A decodable one is enqueued, then deleted, and counted. */
  lemma AfterRetried(c: TaskCodec, s: State, k: nat, t: Task, deadline: Task -> int, hard: int)
    requires Sound(c, s) && k < |s.dlq| && Payload(c, s.index, s.dlq[k].member) == Some(t)
    ensures t.id == s.dlq[k].member
    ensures var r := Admission(c, After(c, s, k, deadline), Reset(t), deadline(Reset(t)), hard);
            r.1 == OK ==> Deleted(r.0, t.id) == After(c, s, k + 1, deadline)
    ensures |Revived(c, s.dlq, s.index, k + 1)| == |Revived(c, s.dlq, s.index, k)| + 1
  {
    IdIsKey(c, s, k, t);
    var u := After(c, s, k, deadline);
    if Admission(c, u, Reset(t), deadline(Reset(t)), hard).1 == OK {
      AdmissionIs(c, u, Reset(t), deadline, hard);
      NextDeadLetter(s, Admission(c, u, Reset(t), deadline(Reset(t)), hard).0, k);
      AfterSnoc(c, s, k, t, deadline);
    }
  }

  // ---- item after item --------------------------------------------------------------------------

  /** What HMGET returns for the k-th dead letter. */
  function PayloadAt(s: State, k: nat): Option<Bytes>
    requires k < |s.dlq|
  {
    Lookup1(s.index, s.dlq[k].member)
  }

  /** The loop after the first k of the original dead letters, one item after another. */
  function Chain(c: TaskCodec, s: State, k: nat, terms: Terms): Tally
    requires k <= |s.dlq|
  {
    if k == 0 then Tally(s, 0, true)
    else Item1(c, Chain(c, s, k - 1, terms), s.dlq[k - 1].member, PayloadAt(s, k - 1), terms)
  }

  lemma {:induction false} ChainRevives(c: TaskCodec, s: State, k: nat, terms: Terms) returns (from: seq<nat>)
    requires k <= |s.dlq| && Chain(c, s, k, terms).accepted
    ensures var v := Chain(c, s, k, terms);
            Revives(c, Snapshots(s.dlq[..k], s.index), s.stream, v.q.stream, from) && v.count == |from|
  {
    from := [];
    if k == 0 {
      RevivesNone(c, s.stream);
    } else {
      var u, id, p := Chain(c, s, k - 1, terms), s.dlq[k - 1].member, PayloadAt(s, k - 1);
      assert Chain(c, s, k, terms) == Item1(c, u, id, p, terms);
      var less := ChainRevives(c, s, k - 1, terms);
      from := ItemRevives(c, Snapshots(s.dlq[..k - 1], s.index), s.stream, u, less, id, p, terms);
      SnapshotsSnoc(s, k - 1);
    }
  }

  lemma SnapshotsSnoc(s: State, k: nat)
    requires k < |s.dlq|
    ensures Snapshots(s.dlq[..k + 1], s.index) == Snapshots(s.dlq[..k], s.index) + [PayloadAt(s, k)]
  {
  }

  /** Whichever way an item goes, its dead letter and nothing else leaves the set and the index. */
  lemma ItemDeletes(c: TaskCodec, s: State, y: Tally, k: nat, terms: Terms)
    requires Sound(c, s) && k < |s.dlq| && y.q.dlq == s.dlq[k..] && y.q.index == IndexFrom(s.dlq, s.index, k)
    ensures var v := Item1(c, y, s.dlq[k].member, PayloadAt(s, k), terms).q;
            v.dlq == s.dlq[k + 1..] && v.index == IndexFrom(s.dlq, s.index, k + 1)
  {
    var t := Read(c, PayloadAt(s, k));
    if t.None? {
      NextDeadLetter(s, y.q, k);
    } else {
      IdIsKey(c, s, k, t.value);
      NextDeadLetter(s, Admission(c, y.q, Reset(t.value), terms.deadline(Reset(t.value)), terms.hard).0, k);
    }
  }

  lemma {:induction false} ChainDeletes(c: TaskCodec, s: State, k: nat, terms: Terms)
    requires Sound(c, s) && k <= |s.dlq|
    ensures var u := Chain(c, s, k, terms).q; u.dlq == s.dlq[k..] && u.index == IndexFrom(s.dlq, s.index, k)
  {
    if k == 0 {
      assert s.dlq[0..] == s.dlq;
    } else {
      ChainDeletes(c, s, k - 1, terms);
      ItemDeletes(c, s, Chain(c, s, k - 1, terms), k - 1, terms);
    }
  }

  /** One accepted item, in closed form. */
  lemma ItemCloses(c: TaskCodec, s: State, k: nat, n: nat, terms: Terms)
    requires Sound(c, s) && k < |s.dlq| && n == |Revived(c, s.dlq, s.index, k)|
    requires Item1(c, Tally(After(c, s, k, terms.deadline), n, true), s.dlq[k].member, PayloadAt(s, k), terms).accepted
    ensures Item1(c, Tally(After(c, s, k, terms.deadline), n, true), s.dlq[k].member, PayloadAt(s, k), terms)
         == Tally(After(c, s, k + 1, terms.deadline), |Revived(c, s.dlq, s.index, k + 1)|, true)
  {
    var t := Payload(c, s.index, s.dlq[k].member);
    if t.None? {
      AfterCorrupt(c, s, k, terms.deadline);
    } else {
      AfterRetried(c, s, k, t.value, terms.deadline, terms.hard);
    }
  }

  lemma {:induction false} ChainCloses(c: TaskCodec, s: State, k: nat, terms: Terms)
    requires Sound(c, s) && k <= |s.dlq| && Chain(c, s, k, terms).accepted
    ensures Chain(c, s, k, terms) == Tally(After(c, s, k, terms.deadline), |Revived(c, s.dlq, s.index, k)|, true)
  {
    if k == 0 {
      AfterNone(c, s, terms.deadline);
    } else {
      ChainCloses(c, s, k - 1, terms);
      ItemCloses(c, s, k - 1, |Revived(c, s.dlq, s.index, k - 1)|, terms);
    }
  }

  /** A batch as it was read after `base` dead letters were dealt with. */
  ghost predicate ReadAt(s: State, base: nat, batch: ZSet, members: seq<Option<Bytes>>) {
    && base + |batch| <= |s.dlq| && |members| == |batch|
    && forall i :: 0 <= i < |batch| ==> batch[i] == s.dlq[base + i] && members[i] == PayloadAt(s, base + i)
  }

  lemma BatchIsRead(s: State, u: State, base: nat)
    requires Valid(s.dlq) && Members(s.dlq) <= s.index.Keys
    requires base <= |s.dlq| && u.dlq == s.dlq[base..] && u.index == IndexFrom(s.dlq, s.index, base)
    ensures ReadAt(s, base, NextBatch(u), Snapshots(NextBatch(u), u.index))
    ensures NextBatch(u) == [] ==> base == |s.dlq|
  {
    var batch := NextBatch(u);
    forall i | 0 <= i < |batch|
      ensures batch[i] == s.dlq[base + i] && Snapshots(batch, u.index)[i] == PayloadAt(s, base + i)
    {
      StillIndexed(s.dlq, s.index, base, base + i);
      StillIndexed(s.dlq, s.index, 0, base + i);
    }
  }

  /** Batches follow the chain. */
  lemma {:induction false} BatchFollows(c: TaskCodec, s: State, base: nat, batch: ZSet, members: seq<Option<Bytes>>,
      k: nat, terms: Terms)
    requires ReadAt(s, base, batch, members) && k <= |batch|
    ensures First(c, Chain(c, s, base, terms), batch, members, k, terms) == Chain(c, s, base + k, terms)
  {
    if k > 0 {
      BatchFollows(c, s, base, batch, members, k - 1, terms);
      assert batch[k - 1] == s.dlq[base + (k - 1)] && members[k - 1] == PayloadAt(s, base + (k - 1));
    }
  }

  /** A turn takes the loop on along the chain, and an empty one finds it at its end. */
  lemma TurnFollows(c: TaskCodec, s: State, y: Tally, done: nat, k: nat, terms: Terms)
    requires Sound(c, s) && done <= |s.dlq| && y == Chain(c, s, done, terms) && k <= |NextBatch(y.q)|
    ensures done + k <= |s.dlq| && Part(c, y, k, terms) == Chain(c, s, done + k, terms)
    ensures NextBatch(y.q) == [] ==> done == |s.dlq|
  {
    ChainDeletes(c, s, done, terms);
    BatchIsRead(s, y.q, done);
    BatchFollows(c, s, done, NextBatch(y.q), Snapshots(NextBatch(y.q), y.q.index), k, terms);
  }

  // ---- when the loop ends -------------------------------------------------------------------

  /** A whole turn takes the loop from one place of the chain to a later one. */
  lemma RoundFollows(c: TaskCodec, s: State, done: nat, terms: Terms) returns (next: nat)
    requires Sound(c, s) && done <= |s.dlq|
    ensures done <= next <= |s.dlq| && (done < |s.dlq| ==> done < next)
    ensures Round(c, Chain(c, s, done, terms), terms) == Chain(c, s, next, terms)
  {
    var y := Chain(c, s, done, terms);
    TurnFollows(c, s, y, done, |NextBatch(y.q)|, terms);
    next := done + |NextBatch(y.q)|;
  }

  lemma RoundsStep(c: TaskCodec, y: Tally, z: Tally, n: nat, terms: Terms)
    requires z == Round(c, y, terms)
    ensures Rounds(c, y, n + 1, terms) == Rounds(c, z, n, terms)
  {
  }

  ghost predicate OnChain(c: TaskCodec, s: State, y: Tally, terms: Terms) {
    exists k :: 0 <= k <= |s.dlq| && y == Chain(c, s, k, terms)
  }

  lemma RoundStaysOnChain(c: TaskCodec, s: State, y: Tally, terms: Terms)
    requires Sound(c, s) && OnChain(c, s, y, terms)
    ensures OnChain(c, s, Round(c, y, terms), terms)
  {
    var done :| 0 <= done <= |s.dlq| && y == Chain(c, s, done, terms);
    var next := RoundFollows(c, s, done, terms);
  }

  lemma {:induction false} RoundsStayOnChain(c: TaskCodec, s: State, y: Tally, n: nat, terms: Terms)
    requires forall v :: OnChain(c, s, v, terms) ==> OnChain(c, s, Round(c, v, terms), terms)
    requires OnChain(c, s, y, terms)
    ensures OnChain(c, s, Rounds(c, y, n, terms), terms)
    decreases n
  {
    if n > 0 { RoundsStayOnChain(c, s, Round(c, y, terms), n - 1, terms); }
  }

  lemma {:induction false} RoundsReachEnd(c: TaskCodec, s: State, done: nat, terms: Terms) returns (n: nat)
    requires Sound(c, s) && done <= |s.dlq|
    ensures Rounds(c, Chain(c, s, done, terms), n, terms) == Chain(c, s, |s.dlq|, terms)
    decreases |s.dlq| - done
  {
    n := 0;
    if done < |s.dlq| {
      var next := RoundFollows(c, s, done, terms);
      n := RoundsReachEnd(c, s, next, terms);
      RoundsStep(c, Chain(c, s, done, terms), Chain(c, s, next, terms), n, terms);
      n := n + 1;
    }
  }

  /** The loop has ended without error after n turns: nothing is left and nothing was rejected. */
  predicate EndsAfter(c: TaskCodec, s: State, n: nat, terms: Terms) {
    var y := Rounds(c, Tally(s, 0, true), n, terms);
    y.q.dlq == [] && y.accepted
  }

  lemma SoundEndsIff(c: TaskCodec, s: State, terms: Terms)
    requires Sound(c, s)
    ensures (exists n :: EndsAfter(c, s, n, terms)) <==> Chain(c, s, |s.dlq|, terms).accepted
  {
    ChainDeletes(c, s, |s.dlq|, terms);
    assert s.dlq[|s.dlq|..] == [];
    if Chain(c, s, |s.dlq|, terms).accepted {
      var n := RoundsReachEnd(c, s, 0, terms);
      assert EndsAfter(c, s, n, terms);
    }
    if n :| EndsAfter(c, s, n, terms) {
      assert Chain(c, s, 0, terms) == Tally(s, 0, true);
      forall v | OnChain(c, s, v, terms) ensures OnChain(c, s, Round(c, v, terms), terms) {
        RoundStaysOnChain(c, s, v, terms);
      }
      RoundsStayOnChain(c, s, Tally(s, 0, true), n, terms);
      var k :| 0 <= k <= |s.dlq| && Rounds(c, Tally(s, 0, true), n, terms) == Chain(c, s, k, terms);
      ChainDeletes(c, s, k, terms);
      assert |s.dlq[k..]| == 0;
    }
  }

  /** The loop ends without error if and only if every dead letter has an index entry and every enqueue,
      one after another, is accepted; given that payloads are keyed by their IDs. */
  lemma RetryAllEndsIff(c: TaskCodec, s: State, terms: Terms)
    requires Valid(s.dlq) && KeyedById(c, s)
    ensures (exists n :: EndsAfter(c, s, n, terms))
       <==> (Members(s.dlq) <= s.index.Keys && Chain(c, s, |s.dlq|, terms).accepted)
  {
    if m :| m in Members(s.dlq) && m !in s.index {
      forall n ensures !EndsAfter(c, s, n, terms) { StuckForever(c, Tally(s, 0, true), n, terms, m); }
    } else {
      SoundEndsIff(c, s, terms);
    }
  }

  /** Without a hard limit and unique keys every enqueue is accepted. */
  lemma {:induction false} PlainIsAccepted(c: TaskCodec, s: State, k: nat, terms: Terms)
    requires k <= |s.dlq| && terms.hard <= 0
    requires forall i :: 0 <= i < |s.dlq| ==>
        var r := Read(c, PayloadAt(s, i)); r.Some? ==> r.value.uniqueKey == []
    ensures Chain(c, s, k, terms).accepted
  {
    if k > 0 { PlainIsAccepted(c, s, k - 1, terms); }
  }

  /** While the index agrees, as in every run without an age purge, that is exactly when no dead letter
      has the empty ID. */
  lemma OnlyTheEmptyIdSticks(c: TaskCodec, w: World, terms: Terms)
    requires Inv(c, w) && IndexAgrees(w.q) && Chain(c, w.q, |w.q.dlq|, terms).accepted
    ensures (exists n :: EndsAfter(c, w.q, n, terms)) <==> [] !in Members(w.q.dlq)
  {
    RetryAllEndsIff(c, w.q, terms);
    assert [] in w.q.index.Keys <==> [] in Members(w.q.dlq) - {[]};
  }

  lemma TurnEnds(c: TaskCodec, s: State, y: Tally, z: Tally, done: nat, k: nat, go: bool, empty: bool, terms: Terms)
    requires Sound(c, s) && done <= |s.dlq| && y == Chain(c, s, done, terms) && k <= |NextBatch(y.q)|
    requires z == Part(c, y, k, terms) && empty == (NextBatch(y.q) == []) && (go ==> k == |NextBatch(y.q)|)
    ensures done + k <= |s.dlq| && (empty ==> done + k == |s.dlq|) && (go && !empty ==> k > 0)
    ensures z == Chain(c, s, done + k, terms)
  {
    TurnFollows(c, s, y, done, k, terms);
  }

  /** One turn, seen from the whole loop. */
  method RetryTurn(c: TaskCodec, q: RedisQueue, terms: Terms, reaches: Bytes -> bool, total: nat, ghost s: State,
      ghost done: nat)
    returns (go: bool, empty: bool, now: nat, ghost next: nat)
    requires Sound(c, s) && done <= |s.dlq| && Tally(q.Snapshot(), total, true) == Chain(c, s, done, terms)
    modifies q
    ensures done <= next <= |s.dlq| && (empty ==> next == |s.dlq|) && (go && !empty ==> done < next)
    ensures Tally(q.Snapshot(), now, true) == Chain(c, s, next, terms)
  {
    ghost var y := Tally(q.Snapshot(), total, true);
    ghost var k;
    go, empty, now, k := RetryRound(c, q, terms, reaches, total);
    TurnEnds(c, s, y, Tally(q.Snapshot(), now, true), done, k, go, empty, terms);
    next := done + k;
  }

  /** The loop of RetryAllDeadLetters, turn after turn. */
  method RetryLoop(c: TaskCodec, q: RedisQueue, terms: Terms, fails: nat -> bool, reaches: Bytes -> bool)
    returns (total: nat, ok: bool, ghost done: nat)
    requires Sound(c, q.Snapshot())
    modifies q
    ensures done <= |old(q.dlq)| && (ok ==> done == |old(q.dlq)|)
    ensures Tally(q.Snapshot(), total, true) == Chain(c, old(q.Snapshot()), done, terms)
  {
    ghost var s := q.Snapshot();
    total, ok, done := 0, false, 0;
    var round: nat := 0;
    while true
      invariant !ok && done <= |s.dlq| && Tally(q.Snapshot(), total, true) == Chain(c, s, done, terms)
      decreases |s.dlq| - done
    {
      if fails(round) { return; }
      var go, empty;
      go, empty, total, done := RetryTurn(c, q, terms, reaches, total, s, done);
      if empty { ok := true; }
      if empty || !go { return; }
      round := round + 1;
    }
  }

  lemma AllDone(c: TaskCodec, s: State, deadline: Task -> int)
    ensures var t := After(c, s, |s.dlq|, deadline);
            t.dlq == [] && (Members(s.dlq) == s.index.Keys ==> t.index == map[])
  {
    IndexFromKeys(s.dlq, s.index, |s.dlq|);
    assert s.dlq[..|s.dlq|] == s.dlq;
    assert Members(s.dlq) == s.index.Keys ==> IndexFrom(s.dlq, s.index, |s.dlq|).Keys == {};
  }

  /** RetryAllDeadLetters; `fails(i)` says whether the i-th read errors, `reaches(id)` whether the enqueue
      of that task gets through. It ends. On success the dead letters are empty (and so is their index,
      if it held nothing else) and every decodable one was enqueued once, in rank order, with its retry
      state reset; after an error that holds for the `done` lowest-ranked and the rest are untouched.
      The count is right in both. */
  method RetryAllDeadLetters(c: TaskCodec, q: RedisQueue, terms: Terms, fails: nat -> bool, reaches: Bytes -> bool)
    returns (total: nat, ok: bool, ghost done: nat)
    requires Sound(c, q.Snapshot())
    modifies q
    ensures done <= |old(q.dlq)| && q.Snapshot() == After(c, old(q.Snapshot()), done, terms.deadline)
    ensures total == |Revived(c, old(q.dlq), old(q.index), done)|
    ensures exists from :: total == |from| &&
              Revives(c, Snapshots(old(q.dlq)[..done], old(q.index)), old(q.stream), q.stream, from)
    ensures ok ==> done == |old(q.dlq)| && q.dlq == []
    ensures ok && Members(old(q.dlq)) == old(q.index).Keys ==> q.index == map[]
  {
    ghost var s := q.Snapshot();
    total, ok, done := RetryLoop(c, q, terms, fails, reaches);
    ghost var from := ChainRevives(c, s, done, terms);
    ChainCloses(c, s, done, terms);
    AllDone(c, s, terms.deadline);
  }

  lemma AfterNone(c: TaskCodec, s: State, deadline: Task -> int)
    ensures After(c, s, 0, deadline) == s
  {
    assert s.dlq[0..] == s.dlq && s.stream + EntriesFor(c, [], s.lastId) == s.stream;
  }

  lemma {:induction false} IndexFromKeys(z: ZSet, index: map<Bytes, Bytes>, k: nat)
    requires k <= |z|
    ensures IndexFrom(z, index, k).Keys == index.Keys - Members(z[..k])
  {
    if k > 0 {
      IndexFromKeys(z, index, k - 1);
      assert z[..k] == z[..k - 1] + [z[k - 1]];
      MembersConcat(z[..k - 1], [z[k - 1]]);
      assert Members([z[k - 1]]) == {z[k - 1].member};
    }
  }

  /** RetryDeadLetter, with nothing in between its two steps: on an error the queue is untouched; otherwise
      the task is back in the stream, reset, and no longer a dead letter. */
  method RetryDeadLetter(c: TaskCodec, q: RedisQueue, id: Bytes, deadline: int, hard: int, reaches: bool)
    returns (ok: bool)
    modifies q
    ensures ok ==> Payload(c, old(q.index), id).Some? && id !in q.index && id !in Members(q.dlq)
    ensures ok ==> Revives(c, [Some(old(q.index)[id])], old(q.stream), q.stream, [0])
    ensures q.Snapshot() ==
      if ok then
        Deleted(Admission(c, old(q.Snapshot()), Reset(Payload(c, old(q.index), id).value), deadline, hard).0, id)
      else old(q.Snapshot())
  {
    if id !in q.index { return false; }
    var t := c.decode(q.index[id]);
    if t.None? { return false; }
    ok := Enqueue(c, q, Reset(t.value), deadline, hard, reaches);
    if !ok { return; }
    MembersRemove(q.dlq, id);
    DeleteDeadLetter(q, id);
  }

  // ---- retrying one dead letter while the queue runs -----------------------------------

  /** The enqueue half of a retry is an ordinary admission step. */
  function AdmissionStep(c: TaskCodec, t: Task, deadline: int, hard: int): Step {
    if t.uniqueKey != [] then EnqueueUniqueTask(t, deadline, hard) else EnqueueBody(c.encode(t), hard)
  }

  lemma AdmissionIsStep(c: TaskCodec, w: World, t: Task, deadline: int, hard: int)
    ensures var r, v := Admission(c, w.q, t, deadline, hard), Next(c, w, AdmissionStep(c, t, deadline, hard));
            v.q == r.0 && (r.1 == OK && c.Id(c.encode(t)).Some? ==> c.Id(c.encode(t)).value in v.admitted)
  {
  }

  function Forget(w: World, x: Bytes): World { w.(q := Deleted(w.q, x)) }

  /** Accounted for in some place other than the dead letters. */
  ghost predicate Elsewhere(c: TaskCodec, w: World, x: Bytes) {
    InStream(c, w, x) || InDelayed(c, w, x) || x in w.completed || x in w.dropped
  }

  /** The same world with no dead letters, watching one task. */
  function Apart(w: World, x: Bytes): World { w.(q := w.q.(dlq := [], index := map[]), admitted := {x}) }

  lemma ApartKeepsInv(c: TaskCodec, w: World, x: Bytes)
    requires Inv(c, w) && Elsewhere(c, w, x)
    ensures Inv(c, Apart(w, x))
  {
    var u := Apart(w, x);
    assert Members([]) == {};
    assert Accounted(c, u, x) by {
      assert InStream(c, w, x) ==> InStream(c, u, x);
      assert InDelayed(c, w, x) ==> InDelayed(c, u, x);
    }
  }

  /** The other places look the same in both worlds, and the watched task is not a dead letter in the second. */
  ghost predicate SamePlaces(v: World, u: World, x: Bytes) {
    && u.q.stream == v.q.stream && u.q.delayed == v.q.delayed && u.start == v.start && u.completed == v.completed
    && x in u.admitted && x !in Members(u.q.dlq) && (x in u.dropped ==> x in v.dropped)
  }

  /** Dead letters have no influence on the other places. */
  lemma StepApart(c: TaskCodec, w: World, a: Step, x: Bytes)
    requires !Buries(a, x)
    ensures SamePlaces(Next(c, w, a), Next(c, Apart(w, x), a), x)
  {
    if IsAdmission(a) {
      AdmissionApart(c, w, a, x);
    } else {
      match a
      case Settle(e, st, lim) => SettleApart(c, w, e, st, lim, x);
      case Deliver => QueueStepApart(c, w, a, x);
      case Reclaim(_) => QueueStepApart(c, w, a, x);
      case PromoteDue(_, _, _) => QueueStepApart(c, w, a, x);
      case PromoteMember(_, _) => QueueStepApart(c, w, a, x);
      case AckCorrupt(_) => PendingStepApart(c, w, a, x);
      case DeleteCorrupt(_) => PendingStepApart(c, w, a, x);
      case DelConsumer(ids) => DelConsumerApart(c, w, ids, x);
      case MarkTrim(threshold) => MarkTrimApart(c, w, threshold, x);
      case Trim(_, _) => PendingStepApart(c, w, a, x);
      case _ => KeyStepApart(c, w, a, x);
    }
  }

  lemma QueueStepApart(c: TaskCodec, w: World, a: Step, x: Bytes)
    requires a.Deliver? || a.Reclaim? || a.PromoteDue? || a.PromoteMember?
    ensures SamePlaces(Next(c, w, a), Next(c, Apart(w, x), a), x)
  {
    assert Members([]) == {};
  }

  lemma PendingStepApart(c: TaskCodec, w: World, a: Step, x: Bytes)
    requires a.AckCorrupt? || a.DeleteCorrupt? || a.Trim?
    ensures SamePlaces(Next(c, w, a), Next(c, Apart(w, x), a), x)
  {
    assert Members([]) == {};
  }

  lemma DelConsumerApart(c: TaskCodec, w: World, ids: set<nat>, x: Bytes)
    ensures SamePlaces(Next(c, w, DelConsumer(ids)), Next(c, Apart(w, x), DelConsumer(ids)), x)
  {
    assert Members([]) == {};
  }

  lemma MarkTrimApart(c: TaskCodec, w: World, threshold: nat, x: Bytes)
    ensures SamePlaces(Next(c, w, MarkTrim(threshold)), Next(c, Apart(w, x), MarkTrim(threshold)), x)
  {
    assert Members([]) == {};
  }

  lemma KeyStepApart(c: TaskCodec, w: World, a: Step, x: Bytes)
    requires a.ReleaseLock? || a.RenewLock? || a.ExpireLock? || a.PurgeZrem? || a.PurgeHdel?
    ensures SamePlaces(Next(c, w, a), Next(c, Apart(w, x), a), x)
  {
    assert Members([]) == {};
  }

  lemma AdmissionApart(c: TaskCodec, w: World, a: Step, x: Bytes)
    requires IsAdmission(a)
    ensures SamePlaces(Next(c, w, a), Next(c, Apart(w, x), a), x)
  {
    assert Members([]) == {};
  }

  lemma SettleApart(c: TaskCodec, w: World, e: Entry, st: Settlement, lim: Limits, x: Bytes)
    requires !(st.DeadLettered? && st.t.id == x)
    ensures SamePlaces(SettleHeld(c, w, e, st, lim), SettleHeld(c, Apart(w, x), e, st, lim), x)
  {
    assert Members([]) == {};
    if st.DeadLettered? {
      var z := Add([], st.now, st.t.id);
      assert z == [Item(st.now, st.t.id)] && Excess(z, lim.dlqMax) == 0 && z[..0] == [] && z[0..] == z;
    }
  }

  lemma StepKeepsElsewhere(c: TaskCodec, w: World, a: Step, x: Bytes)
    requires Inv(c, w) && Lawful(c) && Elsewhere(c, w, x) && !Buries(a, x)
    ensures Elsewhere(c, Next(c, w, a), x)
  {
    ApartKeepsInv(c, w, x);
    NextKeepsInv(c, Apart(w, x), a);
    StepApart(c, w, a, x);
    var v, u := Next(c, w, a), Next(c, Apart(w, x), a);
    assert Accounted(c, u, x);
    assert InStream(c, u, x) ==> InStream(c, v, x);
    assert InDelayed(c, u, x) ==> InDelayed(c, v, x);
  }

  lemma {:induction false} RunKeepsElsewhere(c: TaskCodec, w: World, steps: seq<Step>, x: Bytes)
    requires Inv(c, w) && Lawful(c) && Elsewhere(c, w, x) && forall a :: a in steps ==> !Buries(a, x)
    ensures Elsewhere(c, Run(c, w, steps), x) && Inv(c, Run(c, w, steps))
    decreases steps
  {
    if steps != [] {
      StepKeepsElsewhere(c, w, steps[0], x);
      NextKeepsInv(c, w, steps[0]);
      RunKeepsElsewhere(c, Next(c, w, steps[0]), steps[1..], x);
    }
  }

  lemma ForgetKeeps(c: TaskCodec, w: World, x: Bytes, y: Bytes)
    requires Accounted(c, w, y) && (y != x || x !in w.q.index || Elsewhere(c, w, x))
    ensures Accounted(c, Forget(w, x), y)
  {
    var f := Forget(w, x);
    MembersRemove(w.q.dlq, x);
    assert InStream(c, w, y) ==> InStream(c, f, y);
    assert InDelayed(c, w, y) ==> InDelayed(c, f, y);
  }

  /** The delete half of a retry keeps every task accounted for if and only if it deletes nothing, or
      the retried task is somewhere else: queued, waiting, completed or dropped by a limit. */
  lemma ForgetIsSafeIff(c: TaskCodec, w: World, x: Bytes)
    requires Inv(c, w) && x in w.admitted
    ensures Conserved(c, Forget(w, x)) <==> x !in w.q.index || Elsewhere(c, w, x)
  {
    var f := Forget(w, x);
    if x !in w.q.index || Elsewhere(c, w, x) {
      forall y | y in f.admitted ensures Accounted(c, f, y) { ForgetKeeps(c, w, x, y); }
    } else {
      MembersRemove(w.q.dlq, x);
      assert InStream(c, f, x) ==> InStream(c, w, x);
      assert InDelayed(c, f, x) ==> InDelayed(c, w, x);
      assert !Accounted(c, f, x);
    }
  }

  /** After its enqueue half, the retried task is in the stream and the queue is as sound as before. */
  lemma EnqueuedElsewhere(c: TaskCodec, w: World, t: Task, deadline: int, hard: int)
    requires Inv(c, w) && Lawful(c) && Admission(c, w.q, t, deadline, hard).1 == OK && c.Id(c.encode(t)) == Some(t.id)
    ensures var v := Next(c, w, AdmissionStep(c, t, deadline, hard));
            Inv(c, v) && t.id in v.admitted && Elsewhere(c, v, t.id)
  {
    var v := Next(c, w, AdmissionStep(c, t, deadline, hard));
    AdmissionIsStep(c, w, t, deadline, hard);
    NextKeepsInv(c, w, AdmissionStep(c, t, deadline, hard));
    var e := Entry(w.q.lastId + 1, c.encode(t));
    assert e in v.q.stream && e.id > v.start;
  }

  lemma {:induction false} RunKeepsAdmitted(c: TaskCodec, w: World, steps: seq<Step>)
    ensures w.admitted <= Run(c, w, steps).admitted
    decreases steps
  {
    if steps != [] { RunKeepsAdmitted(c, Next(c, w, steps[0]), steps[1..]); }
  }

  /** Retrying one dead letter, with any steps between its enqueue and its delete: no task is lost if and
      only if, when the delete runs, it finds nothing to delete or the task is somewhere else. */
  lemma RetryIsSafeIff(c: TaskCodec, w: World, t: Task, deadline: int, hard: int, between: seq<Step>)
    requires Inv(c, w) && Lawful(c) && Admission(c, w.q, t, deadline, hard).1 == OK && c.Id(c.encode(t)) == Some(t.id)
    ensures var v := Run(c, Next(c, w, AdmissionStep(c, t, deadline, hard)), between);
            Conserved(c, Forget(v, t.id)) <==> t.id !in v.q.index || Elsewhere(c, v, t.id)
  {
    EnqueuedElsewhere(c, w, t, deadline, hard);
    var u := Next(c, w, AdmissionStep(c, t, deadline, hard));
    RunKeepsInv(c, u, between);
    RunKeepsAdmitted(c, u, between);
    ForgetIsSafeIff(c, Run(c, u, between), t.id);
  }

  /** In particular it is safe whenever the task was not dead-lettered again in between. */
  lemma RetryIsSafeUnlessBuriedAgain(c: TaskCodec, w: World, t: Task, deadline: int, hard: int, between: seq<Step>)
    requires Inv(c, w) && Lawful(c) && Admission(c, w.q, t, deadline, hard).1 == OK && c.Id(c.encode(t)) == Some(t.id)
    requires forall a :: a in between ==> !Buries(a, t.id)
    ensures Conserved(c, Forget(Run(c, Next(c, w, AdmissionStep(c, t, deadline, hard)), between), t.id))
  {
    EnqueuedElsewhere(c, w, t, deadline, hard);
    RunKeepsElsewhere(c, Next(c, w, AdmissionStep(c, t, deadline, hard)), between, t.id);
    RetryIsSafeIff(c, w, t, deadline, hard, between);
  }

  /** The queue right after the enqueue half: one entry, and the dead letter still there. */
  function Retrying(c: TaskCodec, t: Task): World {
    World(State([Entry(1, c.encode(t))], 1, 0, map[], [], [Item(1, t.id)], map[t.id := c.encode(t)], map[]),
          0, {t.id}, {}, {}, {}, {})
  }

  lemma RetryingIsSound(c: TaskCodec, t: Task)
    requires t.id != [] && c.Id(c.encode(t)) == Some(t.id)
    ensures Inv(c, Retrying(c, t))
  {
    var w := Retrying(c, t);
    assert w.q.stream[0] in w.q.stream && Members(w.q.dlq) == {t.id};
    assert InStream(c, w, t.id);
  }

  lemma BuriedAgain(c: TaskCodec, w: World, t: Task, u: Task)
    requires w == Retrying(c, t) && t.id != [] && u.id == t.id && SettlementOf(c, c.encode(t), DeadLettered(u, 2))
    ensures var e := Entry(1, c.encode(t));
            var v := Next(c, Next(c, w, Deliver), Settle(e, DeadLettered(u, 2), Limits(0, 0)));
            && v.q.stream == [] && v.q.delayed == [] && v.q.dlq == [Item(2, t.id)] && t.id in v.q.index
            && v.admitted == {t.id} && v.completed == v.dropped == {}
  {
    var e := Entry(1, c.encode(t));
    var w1 := Next(c, w, Deliver);
    assert w1.q.stream == [e] && w1.held == {e};
    assert Add(w1.q.dlq, 2, t.id) == [Item(2, t.id)];
    assert [e][1..] == [] && XDel([e], 1) == [];
  }

  /** The same with the dead letter's ZREM already done. */
  function HalfPurged(c: TaskCodec, t: Task): World {
    Retrying(c, t).(q := Retrying(c, t).q.(dlq := []), dropped := {t.id})
  }

  lemma ZremHalfPurges(c: TaskCodec, t: Task)
    ensures Next(c, Retrying(c, t), PurgeZrem(t.id)) == HalfPurged(c, t)
  {
    var w := Retrying(c, t);
    assert w.q.dlq[0] in w.q.dlq && [Item(1, t.id)][1..] == [];
    assert Remove(w.q.dlq, t.id) == [];
  }

  lemma BuriedWhilePurged(c: TaskCodec, t: Task, u: Task)
    requires u.id == t.id && SettlementOf(c, c.encode(t), DeadLettered(u, 2))
    ensures var buried := Settle(Entry(1, c.encode(t)), DeadLettered(u, 2), Limits(0, 0));
            var v := Next(c, Next(c, HalfPurged(c, t), Deliver), buried);
            v.q.dlq == [Item(2, t.id)]
  {
    var e := Entry(1, c.encode(t));
    var w1 := Next(c, HalfPurged(c, t), Deliver);
    assert w1.q.dlq == [] && w1.held == {e};
    assert Add([], 2, t.id) == [Item(2, t.id)];
  }

  /** An age purge that meets a burial between its ZREM and its HDEL leaves a dead letter that nothing
      the retry-all loop does removes: here of a task just retried, delivered and buried again. */
  lemma PurgeRaceSticks(c: TaskCodec, t: Task, u: Task)
    requires t.id != [] && u.id == t.id && c.Id(c.encode(t)) == Some(t.id)
    requires SettlementOf(c, c.encode(t), DeadLettered(u, 2))
    ensures var w := Retrying(c, t);
            var w1 := Next(c, Next(c, w, PurgeZrem(t.id)), Deliver);
            var v := Next(c, w1, Settle(Entry(1, c.encode(t)), DeadLettered(u, 2), Limits(0, 0)));
            IndexAgrees(w.q) && Stuck(Next(c, v, PurgeHdel(t.id)).q, t.id)
  {
    var buried := Settle(Entry(1, c.encode(t)), DeadLettered(u, 2), Limits(0, 0));
    RetryingAgrees(c, t);
    ZremHalfPurges(c, t);
    BuriedWhilePurged(c, t, u);
    StuckAfterHdel(c, Next(c, Next(c, HalfPurged(c, t), Deliver), buried), t.id);
  }

  lemma RetryingAgrees(c: TaskCodec, t: Task)
    requires t.id != []
    ensures IndexAgrees(Retrying(c, t).q)
  {
    var w := Retrying(c, t);
    assert Members(w.q.dlq) - {[]} == {t.id} == w.q.index.Keys;
  }

  lemma StuckAfterHdel(c: TaskCodec, v: World, x: Bytes)
    requires v.q.dlq == [Item(2, x)]
    ensures Stuck(Next(c, v, PurgeHdel(x)).q, x)
  {
    assert v.q.dlq[0] in v.q.dlq;
  }

  /** The race: the retried task is delivered and dead-lettered again before the delete, which then
      removes the new dead letter, and the task is nowhere. */
  lemma RetryRaceLosesTask(c: TaskCodec, t: Task, u: Task)
    requires t.id != [] && u.id == t.id && c.Id(c.encode(t)) == Some(t.id)
        && SettlementOf(c, c.encode(t), DeadLettered(u, 2))
    ensures var w := Retrying(c, t);
            var v := Next(c, Next(c, w, Deliver), Settle(Entry(1, c.encode(t)), DeadLettered(u, 2), Limits(0, 0)));
            Inv(c, w) && t.id in Members(v.q.dlq) && t.id in Forget(v, t.id).admitted
                && !Accounted(c, Forget(v, t.id), t.id)
  {
    var w := Retrying(c, t);
    RetryingIsSound(c, t);
    BuriedAgain(c, w, t, u);
    var v := Next(c, Next(c, w, Deliver), Settle(Entry(1, c.encode(t)), DeadLettered(u, 2), Limits(0, 0)));
    assert v.q.dlq[0] in v.q.dlq;
    MembersRemove(v.q.dlq, t.id);
  }

  /** The same with real encodings. */
  lemma BinaryRetryRace()
    ensures var t := EMPTY_TASK.(id := [1], maxRetry := 1);
            var u := t.(retry := 1);
            var w := Retrying(BINARY, t);
            var v := Next(BINARY, Next(BINARY, w, Deliver),
                Settle(Entry(1, Encode(t)), DeadLettered(u, 2), Limits(0, 0)));
            Inv(BINARY, w) && !Accounted(BINARY, Forget(v, [1]), [1])
  {
    var t := EMPTY_TASK.(id := [1], maxRetry := 1);
    RoundTrip(t, []);
    assert Encode(t) + [] == Encode(t);
    RetryRaceLosesTask(BINARY, t, t.(retry := 1));
  }
}
