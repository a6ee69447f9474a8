/** EnqueueBulk: many tasks at once, grouped by queue and pipelined in chunks. */
module BulkEnqueue {
  import opened Bytes
  import opened Codec

  const MAX_BULK_CHUNK_SIZE: nat := 1000
  const NIL_TASK := -1

  /** The outside world, position by position: the ID generator, the payload check and marshalling
      before sending, and the reply to the command that was sent. */
  datatype Server = Server(freshId: nat -> Bytes, prepare: nat -> Option<int>, reply: nat -> Option<int>)

  /** The error a position ends with, if it is dealt with at all. */
  function Outcome(tasks: seq<Option<Task>>, server: Server, i: nat): Option<int>
    requires i < |tasks|
  {
    if tasks[i].None? then Some(NIL_TASK)
    else if server.prepare(i).Some? then server.prepare(i)
    else server.reply(i)
  }

  function IdAt(tasks: seq<Option<Task>>, server: Server, i: nat): Bytes
    requires i < |tasks|
  {
    if tasks[i].None? then [] else if tasks[i].value.id == [] then server.freshId(i) else tasks[i].value.id
  }

  /** The positions below n whose task goes to this queue, in order. */
  function Positions(tasks: seq<Option<Task>>, queue: Bytes, n: nat): (r: seq<nat>)
    requires n <= |tasks|
    ensures forall i: nat :: i in r <==> i < n && tasks[i].Some? && tasks[i].value.queue == queue
  {
    if n == 0 then []
    else if tasks[n - 1].Some? && tasks[n - 1].value.queue == queue then Positions(tasks, queue, n - 1) + [n - 1]
    else Positions(tasks, queue, n - 1)
  }

  lemma {:induction false} PositionsDistinct(tasks: seq<Option<Task>>, queue: Bytes, n: nat)
    requires n <= |tasks|
    ensures Distinct(Positions(tasks, queue, n))
  {
    if n > 0 { PositionsDistinct(tasks, queue, n - 1); }
  }

  predicate Distinct(s: seq<nat>) { forall i, j :: 0 <= i < j < |s| ==> s[i] != s[j] }

  function ToSet(s: seq<nat>): set<nat> { set i | i in s }

  function Upto(n: nat): (r: set<nat>)
    ensures |r| == n && forall i: nat :: i in r <==> i < n
  {
    if n == 0 then {} else Upto(n - 1) + {n - 1}
  }

  /** The two lists together hold each position of the set once. */
  predicate Split(done: set<nat>, won: seq<nat>, failed: seq<nat>) {
    multiset(won) + multiset(failed) == multiset(done)
  }

  /** The error that stops a fail-fast call is that of the first position that failed in it, which is the
      one listed after the `from` earlier ones. */
  predicate Stops(tasks: seq<Option<Task>>, server: Server, failed: seq<nat>, from: nat, err: Option<int>) {
    err.Some? ==> from < |failed| && failed[from] < |tasks| && Outcome(tasks, server, failed[from]) == err
  }

  class BulkResult {
    var succeeded: seq<Bytes>
    var errors: seq<Option<int>>
    var failedIndexes: seq<nat>
    /** The positions whose IDs `succeeded` lists, in the same order. */
    ghost var won: seq<nat>

    constructor (n: nat)
      ensures succeeded == [] && failedIndexes == [] && won == [] && errors == seq(n, _ => None)
    {
      succeeded, failedIndexes, won, errors := [], [], [], seq(n, _ => None);
    }

    /** The result accounts for exactly the positions in `done`: each is listed once, either among the
        failures with its error or among the successes with its ID. */
    ghost predicate Accounts(tasks: seq<Option<Task>>, server: Server, done: set<nat>)
      reads this
    {
      && |errors| == |tasks| && (forall i :: i in done ==> i < |tasks|)
      && Split(done, won, failedIndexes)
      && (forall i :: 0 <= i < |tasks| ==> errors[i] == if i in done then Outcome(tasks, server, i) else None)
      && (forall i :: i in won ==> i < |tasks| && Outcome(tasks, server, i).None?)
      && (forall i :: i in failedIndexes ==> i < |tasks| && Outcome(tasks, server, i).Some?)
      && |succeeded| == |won|
      && (forall k :: 0 <= k < |won| ==> won[k] < |tasks| && succeeded[k] == IdAt(tasks, server, won[k]))
    }

    method Fail(i: nat, err: int, tasks: seq<Option<Task>>, server: Server, ghost done: set<nat>)
      requires Accounts(tasks, server, done) && i < |tasks| && i !in done && Outcome(tasks, server, i) == Some(err)
      modifies this
      ensures Accounts(tasks, server, done + {i}) && failedIndexes == old(failedIndexes) + [i]
    {
      errors := errors[i := Some(err)];
      failedIndexes := failedIndexes + [i];
      AddOne(done, i);
      assert multiset(failedIndexes) == multiset(old(failedIndexes)) + multiset{i};
    }

    method Succeed(i: nat, id: Bytes, tasks: seq<Option<Task>>, server: Server, ghost done: set<nat>)
      requires Accounts(tasks, server, done) && i < |tasks| && i !in done
      requires Outcome(tasks, server, i).None? && id == IdAt(tasks, server, i)
      modifies this
      ensures Accounts(tasks, server, done + {i}) && failedIndexes == old(failedIndexes)
    {
      succeeded := succeeded + [id];
      won := won + [i];
      AddOne(done, i);
      assert multiset(won) == multiset(old(won)) + multiset{i};
    }
  }

  lemma AddOne(done: set<nat>, i: nat)
    requires i !in done
    ensures multiset(done + {i}) == multiset(done) + multiset{i}
  {
  }

  /** What accounting for all of 0..n-1 means: nothing is listed twice, nothing is missing. */
  lemma EachExactlyOnce(done: set<nat>, won: seq<nat>, failed: seq<nat>, n: nat)
    requires Split(done, won, failed) && done == Upto(n)
    ensures Distinct(won) && Distinct(failed) && |won| + |failed| == n
    ensures forall i :: 0 <= i < n ==> (i in won <==> i !in failed)
  {
    assert |multiset(done)| == |done| && |multiset(won) + multiset(failed)| == |won| + |failed|;
    forall i: nat ensures multiset(won)[i] + multiset(failed)[i] == if i < n then 1 else 0 {
      assert i < n <==> i in done;
      assert (multiset(won) + multiset(failed))[i] == multiset(done)[i];
    }
    OnceEach(won);
    OnceEach(failed);
    forall i | 0 <= i < n ensures i in won <==> i !in failed {
      assert i in won <==> multiset(won)[i] > 0;
      assert i in failed <==> multiset(failed)[i] > 0;
    }
  }

  lemma Listed(done: set<nat>, won: seq<nat>, failed: seq<nat>)
    requires Split(done, won, failed)
    ensures forall i: nat :: i in done <==> i in won || i in failed
    ensures |won| + |failed| == |done|
  {
    forall i: nat ensures i in done <==> i in won || i in failed {
      assert i in done <==> i in multiset(won) + multiset(failed);
    }
    assert |multiset(done)| == |done| && |multiset(won) + multiset(failed)| == |won| + |failed|;
  }

  lemma OnceEach(s: seq<nat>)
    requires forall i: nat :: multiset(s)[i] <= 1
    ensures Distinct(s)
  {
    forall i, j | 0 <= i < j < |s| ensures s[i] != s[j] {
      assert s == s[..j] + [s[j]] + s[j + 1..];
      assert multiset(s)[s[j]] == multiset(s[..j])[s[j]] + 1 + multiset(s[j + 1..])[s[j]];
      assert s[..j][i] in multiset(s[..j]);
    }
  }

  // ---- one queue ------------------------------------------------------------------

  lemma TakeOne(s: seq<nat>, k: nat)
    requires Distinct(s) && k < |s|
    ensures ToSet(s[..k + 1]) == ToSet(s[..k]) + {s[k]} && s[k] !in ToSet(s[..k])
  {
    assert s[..k + 1] == s[..k] + [s[k]];
  }

  /** The first loop of pipelineImmediate: positions whose payload check or encoding fails are recorded,
      the others are kept for sending. */
  method Prepare(tasks: seq<Option<Task>>, server: Server, items: seq<nat>, out: BulkResult, failFast: bool,
      ghost done: set<nat>)
    returns (prep: seq<nat>, err: Option<int>, ghost now: set<nat>)
    requires Distinct(items) && (forall i :: i in items ==> i < |tasks| && tasks[i].Some? && i !in done)
    requires out.Accounts(tasks, server, done)
    modifies out
    ensures out.Accounts(tasks, server, now) && done <= now <= done + ToSet(items)
    ensures |out.failedIndexes| >= |old(out.failedIndexes)|
    ensures err.Some? ==> failFast
    ensures Stops(tasks, server, out.failedIndexes, |old(out.failedIndexes)|, err)
    ensures failFast && err.None? ==> out.failedIndexes == old(out.failedIndexes)
    ensures err.None? ==> Distinct(prep) && now + ToSet(prep) == done + ToSet(items)
    ensures forall i :: i in prep ==> i in items && i !in now && server.prepare(i).None?
  {
    prep, err, now := [], None, done;
    for k := 0 to |items|
      invariant out.Accounts(tasks, server, now) && done <= now <= done + ToSet(items[..k])
      invariant |out.failedIndexes| >= |old(out.failedIndexes)|
      invariant failFast ==> out.failedIndexes == old(out.failedIndexes)
      invariant err.None? && Distinct(prep) && now + ToSet(prep) == done + ToSet(items[..k])
      invariant forall i :: i in prep ==> i in items[..k] && i !in now && server.prepare(i).None?
    {
      var i := items[k];
      TakeOne(items, k);
      assert i in items;
      var bad := server.prepare(i);
      if bad.Some? {
        assert i !in now;
        out.Fail(i, bad.value, tasks, server, now);
        now := now + {i};
        if failFast {
          err := bad;
          prep := [];
          PrefixSet(items, k + 1);
          return;
        }
      } else {
        prep := prep + [i];
      }
    }
    assert items[..|items|] == items;
  }

  lemma PrefixSet(s: seq<nat>, k: nat)
    requires k <= |s|
    ensures ToSet(s[..k]) <= ToSet(s)
  {
  }

  method RecordReply(tasks: seq<Option<Task>>, server: Server, i: nat, out: BulkResult, ghost done: set<nat>)
    returns (err: Option<int>)
    requires i < |tasks| && tasks[i].Some? && i !in done && server.prepare(i).None?
    requires out.Accounts(tasks, server, done)
    modifies out
    ensures err == server.reply(i) == Outcome(tasks, server, i) && out.Accounts(tasks, server, done + {i})
    ensures out.failedIndexes == old(out.failedIndexes) + if err.Some? then [i] else []
  {
    err := server.reply(i);
    if err.Some? {
      out.Fail(i, err.value, tasks, server, done);
    } else {
      var id := if tasks[i].value.id == [] then server.freshId(i) else tasks[i].value.id;
      out.Succeed(i, id, tasks, server, done);
    }
  }

  /** One pipelined chunk: every reply is recorded, even under fail-fast. */
  method SendChunk(tasks: seq<Option<Task>>, server: Server, chunk: seq<nat>, out: BulkResult, failFast: bool,
      ghost done: set<nat>)
    returns (firstErr: Option<int>)
    requires Distinct(chunk)
    requires forall i :: i in chunk ==> i < |tasks| && tasks[i].Some? && i !in done && server.prepare(i).None?
    requires out.Accounts(tasks, server, done)
    modifies out
    ensures out.Accounts(tasks, server, done + ToSet(chunk))
    ensures |out.failedIndexes| >= |old(out.failedIndexes)|
    ensures firstErr.Some? ==> failFast
    ensures Stops(tasks, server, out.failedIndexes, |old(out.failedIndexes)|, firstErr)
    ensures forall i :: i in chunk ==> out.errors[i] == server.reply(i)
    ensures forall i :: i in chunk ==> (i in out.failedIndexes <==> server.reply(i).Some?)
    ensures failFast && firstErr.None? ==> out.failedIndexes == old(out.failedIndexes)
  {
    firstErr := None;
    assert done + ToSet(chunk[..0]) == done;
    for k := 0 to |chunk|
      invariant out.Accounts(tasks, server, done + ToSet(chunk[..k]))
      invariant |out.failedIndexes| >= |old(out.failedIndexes)|
      invariant firstErr.Some? ==> failFast
      invariant Stops(tasks, server, out.failedIndexes, |old(out.failedIndexes)|, firstErr)
      invariant failFast && firstErr.None? ==> out.failedIndexes == old(out.failedIndexes)
    {
      var i := chunk[k];
      TakeOne(chunk, k);
      assert i in chunk;
      assert done + ToSet(chunk[..k]) + {i} == done + ToSet(chunk[..k + 1]);
      var err := RecordReply(tasks, server, i, out, done + ToSet(chunk[..k]));
      if err.Some? && failFast && firstErr.None? { firstErr := err; }
    }
    assert chunk[..|chunk|] == chunk;
    Listed(done + ToSet(chunk), out.won, out.failedIndexes);
  }

  method SendAll(tasks: seq<Option<Task>>, server: Server, prep: seq<nat>, out: BulkResult, failFast: bool,
      ghost done: set<nat>)
    returns (err: Option<int>, ghost now: set<nat>)
    requires Distinct(prep)
    requires forall i :: i in prep ==> i < |tasks| && tasks[i].Some? && i !in done && server.prepare(i).None?
    requires out.Accounts(tasks, server, done)
    modifies out
    ensures out.Accounts(tasks, server, now) && done <= now <= done + ToSet(prep)
    ensures err.None? ==> now == done + ToSet(prep)
    ensures |out.failedIndexes| >= |old(out.failedIndexes)|
    ensures err.Some? ==> failFast
    ensures Stops(tasks, server, out.failedIndexes, |old(out.failedIndexes)|, err)
    ensures failFast && err.None? ==> out.failedIndexes == old(out.failedIndexes)
  {
    err, now := None, done;
    var start: nat := 0;
    while start < |prep|
      invariant start <= |prep| && now == done + ToSet(prep[..start]) && err.None?
      invariant out.Accounts(tasks, server, now)
      invariant |out.failedIndexes| >= |old(out.failedIndexes)|
      invariant failFast ==> out.failedIndexes == old(out.failedIndexes)
    {
      var end := if start + MAX_BULK_CHUNK_SIZE > |prep| then |prep| else start + MAX_BULK_CHUNK_SIZE;
      SliceIsNew(prep, start, end);
      err := SendChunk(tasks, server, prep[start..end], out, failFast, now);
      now := now + ToSet(prep[start..end]);
      PrefixSet(prep, end);
      if err.Some? && failFast { return; }
      start := end;
    }
    assert prep[..|prep|] == prep;
  }

  lemma SliceIsNew(s: seq<nat>, lo: nat, hi: nat)
    requires Distinct(s) && lo <= hi <= |s|
    ensures Distinct(s[lo..hi]) && ToSet(s[..hi]) == ToSet(s[..lo]) + ToSet(s[lo..hi])
        && ToSet(s[..lo]) !! ToSet(s[lo..hi])
    ensures forall i :: i in s[lo..hi] ==> i in s
  {
    assert s[..hi] == s[..lo] + s[lo..hi];
    forall i, j | 0 <= i < j < hi - lo ensures s[lo..hi][i] != s[lo..hi][j] {
      assert s[lo + i] != s[lo + j];
    }
    forall i | i in s[lo..hi] ensures i in s && i !in s[..lo] {
      var k :| 0 <= k < hi - lo && s[lo..hi][k] == i;
      assert s[lo + k] == i;
    }
  }

  /** pipelineImmediate: without fail-fast every position of the queue is accounted for. */
  method PipelineImmediate(tasks: seq<Option<Task>>, server: Server, items: seq<nat>, out: BulkResult, failFast: bool,
      ghost done: set<nat>)
    returns (err: Option<int>, ghost now: set<nat>)
    requires Distinct(items) && (forall i :: i in items ==> i < |tasks| && tasks[i].Some? && i !in done)
    requires out.Accounts(tasks, server, done)
    modifies out
    ensures out.Accounts(tasks, server, now) && done <= now <= done + ToSet(items)
    ensures err.None? ==> now == done + ToSet(items)
    ensures |out.failedIndexes| >= |old(out.failedIndexes)|
    ensures err.Some? ==> failFast
    ensures Stops(tasks, server, out.failedIndexes, |old(out.failedIndexes)|, err)
    ensures failFast && err.None? ==> out.failedIndexes == old(out.failedIndexes)
  {
    if |items| == 0 { return None, done; }
    var prep;
    prep, err, now := Prepare(tasks, server, items, out, failFast, done);
    if err.Some? || |prep| == 0 { return; }
    err, now := SendAll(tasks, server, prep, out, failFast, now);
  }

  // ---- all queues -------------------------------------------------------------------

  function NilPositions(tasks: seq<Option<Task>>, n: nat): set<nat>
    requires n <= |tasks|
  {
    set i | 0 <= i < n && tasks[i].None?
  }

  ghost predicate Grouped(tasks: seq<Option<Task>>, byQueue: map<Bytes, seq<nat>>, n: nat)
    requires n <= |tasks|
  {
    && (forall q :: q in byQueue ==> byQueue[q] == Positions(tasks, q, n))
    && (forall i :: 0 <= i < n && tasks[i].Some? ==> tasks[i].value.queue in byQueue)
  }

  /** The grouping loop: nil tasks fail at once, the others are filed under their queue in order. */
  method Group(tasks: seq<Option<Task>>, server: Server, out: BulkResult, failFast: bool)
    returns (byQueue: map<Bytes, seq<nat>>, err: Option<int>, ghost now: set<nat>)
    requires out.Accounts(tasks, server, {}) && out.failedIndexes == []
    modifies out
    ensures out.Accounts(tasks, server, now)
    ensures err.None? ==> now == NilPositions(tasks, |tasks|) && Grouped(tasks, byQueue, |tasks|)
    ensures err.Some? ==> failFast
    ensures Stops(tasks, server, out.failedIndexes, |old(out.failedIndexes)|, err)
    ensures failFast && err.None? ==> out.failedIndexes == []
  {
    byQueue, err, now := map[], None, {};
    for i := 0 to |tasks|
      invariant now == NilPositions(tasks, i) && Grouped(tasks, byQueue, i) && err.None?
      invariant out.Accounts(tasks, server, now) && (failFast ==> out.failedIndexes == [])
    {
      assert NilPositions(tasks, i + 1) == if tasks[i].None? then NilPositions(tasks, i) + {i}
          else NilPositions(tasks, i);
      if tasks[i].None? {
        out.Fail(i, NIL_TASK, tasks, server, now);
        now := now + {i};
        if failFast { err := Some(NIL_TASK); return; }
      } else {
        var queue := tasks[i].value.queue;
        var known := if queue in byQueue then byQueue[queue] else [];
        NoneFiled(tasks, byQueue, queue, i);
        byQueue := byQueue[queue := known + [i]];
      }
    }
  }

  lemma NoneFiled(tasks: seq<Option<Task>>, byQueue: map<Bytes, seq<nat>>, queue: Bytes, n: nat)
    requires n <= |tasks| && Grouped(tasks, byQueue, n)
    ensures Positions(tasks, queue, n) != [] ==> queue in byQueue
  {
    var r := Positions(tasks, queue, n);
    if r != [] { assert r[0] in r; }
  }

  /** The positions dealt with once the nil tasks and these queues are. */
  function DoneBy(tasks: seq<Option<Task>>, left: set<Bytes>): set<nat> {
    set i | 0 <= i < |tasks| && (tasks[i].None? || tasks[i].value.queue !in left)
  }

  lemma QueueDone(tasks: seq<Option<Task>>, left: set<Bytes>, q: Bytes)
    requires q in left
    ensures DoneBy(tasks, left - {q}) == DoneBy(tasks, left) + ToSet(Positions(tasks, q, |tasks|))
    ensures DoneBy(tasks, left) !! ToSet(Positions(tasks, q, |tasks|))
  {
  }

  /** EnqueueBulk, visiting the queues in any order. Whatever the replies, positions are never listed
      twice and carry their own error or ID; the error returned is nil exactly when nothing failed; and
      unless fail-fast stopped it, every input position is accounted for. */
  method EnqueueBulk(tasks: seq<Option<Task>>, server: Server, failFast: bool)
    returns (out: BulkResult, err: Option<int>, ghost now: set<nat>)
    ensures fresh(out) && out.Accounts(tasks, server, now)
    ensures err.None? <==> out.failedIndexes == []
    ensures !failFast || err.None? ==> now == Upto(|tasks|)
    ensures failFast && err.Some? ==> out.failedIndexes[0] < |tasks| && err == out.errors[out.failedIndexes[0]]
    ensures |out.errors| == |tasks| && |out.succeeded| + |out.failedIndexes| == |now|
    ensures forall i :: 0 <= i < |tasks| && i !in now ==> out.errors[i].None?
    ensures forall i :: i in now ==>
      && i < |tasks|
      && (tasks[i].None? ==> out.errors[i] == Some(NIL_TASK))
      && (tasks[i].Some? && server.prepare(i).Some? ==> out.errors[i] == server.prepare(i))
      && (tasks[i].Some? && server.prepare(i).None? ==> out.errors[i] == server.reply(i))
    ensures forall i :: i in now ==> (i in out.failedIndexes <==> out.errors[i].Some?)
    ensures forall i :: i in now && out.errors[i].None? ==>
      && tasks[i].Some?
      && var id := if tasks[i].value.id == [] then server.freshId(i) else tasks[i].value.id;
         exists k :: 0 <= k < |out.succeeded| && out.won[k] == i && out.succeeded[k] == id
  {
    out, err, now := BulkLoop(tasks, server, failFast);
    Listed(now, out.won, out.failedIndexes);
    if failFast && err.Some? { assert out.failedIndexes[0] in out.failedIndexes; }
  }

  method BulkLoop(tasks: seq<Option<Task>>, server: Server, failFast: bool)
    returns (out: BulkResult, err: Option<int>, ghost now: set<nat>)
    ensures fresh(out) && out.Accounts(tasks, server, now)
    ensures err.None? <==> out.failedIndexes == []
    ensures !failFast || err.None? ==> now == Upto(|tasks|)
    ensures failFast ==> Stops(tasks, server, out.failedIndexes, 0, err)
  {
    out := new BulkResult(|tasks|);
    err, now := None, {};
    if |tasks| == 0 { return; }
    var byQueue;
    byQueue, err, now := Group(tasks, server, out, failFast);
    if err.Some? { return; }
    var left := byQueue.Keys;
    assert now == DoneBy(tasks, left);
    while left != {}
      invariant left <= byQueue.Keys && now == DoneBy(tasks, left)
      invariant out.Accounts(tasks, server, now) && err.None? && (failFast ==> out.failedIndexes == [])
      decreases |left|
    {
      var queue :| queue in left;
      QueueDone(tasks, left, queue);
      PositionsDistinct(tasks, queue, |tasks|);
      var failed;
      failed, now := PipelineImmediate(tasks, server, byQueue[queue], out, failFast, now);
      if failed.Some? && failFast { err := failed; return; }
      left := left - {queue};
    }
    assert DoneBy(tasks, {}) == Upto(|tasks|);
    if |out.failedIndexes| > 0 { err := Some(|out.failedIndexes|); }
  }
}
