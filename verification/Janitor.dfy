/** The two janitors: reclaiming stalled messages with their delivery counts, and retention (safe trim
    of the stream, age purge of the dead letters). */
module Janitor {
  import opened Bytes
  import opened ZSets
  import opened Codec
  import opened Broker
  import opened Protocol

  // ---- XAUTOCLAIM ---------------------------------------------------------------

  /** One pending message: who has it, how often it was delivered, how long it has been idle. */
  datatype Pending = Pending(id: nat, consumer: Bytes, count: nat, idle: int)
  type Pel = seq<Pending>

  predicate InOrder(pel: Pel) { forall i, j :: 0 <= i < j < |pel| ==> pel[i].id < pel[j].id }

  /** What XAUTOCLAIM returns: the claimed IDs and the cursor for the next call (0 = start over). */
  datatype Claim = Claim(ids: seq<nat>, next: nat)

  /** XAUTOCLAIM from `start`: claims messages idle for minIdle, at most `count`, looking at no more
      than `attempts`. */
  function AutoClaim(pel: Pel, start: nat, minIdle: int, count: nat, attempts: nat): Claim {
    if pel == [] then Claim([], 0)
    else if pel[0].id < start then AutoClaim(pel[1..], start, minIdle, count, attempts)
    else if count == 0 || attempts == 0 then Claim([], pel[0].id)
    else if pel[0].idle >= minIdle then
      var rest := AutoClaim(pel[1..], start, minIdle, count - 1, attempts - 1);
      Claim([pel[0].id] + rest.ids, rest.next)
    else AutoClaim(pel[1..], start, minIdle, count, attempts - 1)
  }

  predicate Scanned(c: Claim, start: nat, id: nat) { start <= id && (c.next == 0 || id < c.next) }

  lemma TailInOrder(pel: Pel)
    requires InOrder(pel) && pel != []
    ensures InOrder(pel[1..]) && forall p :: p in pel[1..] ==> pel[0].id < p.id
    ensures forall p :: p in pel <==> p == pel[0] || p in pel[1..]
  {
    forall p | p in pel[1..] ensures pel[0].id < p.id {
      var k :| 0 <= k < |pel| - 1 && pel[1..][k] == p;
      assert pel[k + 1] == p;
    }
    assert pel == [pel[0]] + pel[1..];
  }

  predicate Numbered(pel: Pel) { forall p :: p in pel ==> p.id > 0 }

  ghost predicate PendingAt(pel: Pel, id: nat) { exists p :: p in pel && p.id == id }

  ghost predicate IdleAt(pel: Pel, minIdle: int, id: nat) { exists p :: p in pel && p.id == id && p.idle >= minIdle }

  lemma IdleCons(pel: Pel, minIdle: int, id: nat)
    requires pel != []
    ensures IdleAt(pel, minIdle, id) <==> (pel[0].id == id && pel[0].idle >= minIdle) || IdleAt(pel[1..], minIdle, id)
    ensures PendingAt(pel, id) <==> pel[0].id == id || PendingAt(pel[1..], id)
  {
    assert pel == [pel[0]] + pel[1..];
  }

  lemma {:induction false} CursorIsPending(pel: Pel, start: nat, minIdle: int, count: nat, attempts: nat)
    requires Numbered(pel)
    ensures var c := AutoClaim(pel, start, minIdle, count, attempts);
            c.next > 0 ==> c.next >= start && PendingAt(pel, c.next)
    decreases pel
  {
    if pel != [] {
      var next := AutoClaim(pel, start, minIdle, count, attempts).next;
      IdleCons(pel, minIdle, next);
      if pel[0].id < start {
        CursorIsPending(pel[1..], start, minIdle, count, attempts);
      } else if count == 0 || attempts == 0 {
      } else if pel[0].idle >= minIdle {
        CursorIsPending(pel[1..], start, minIdle, count - 1, attempts - 1);
      } else {
        CursorIsPending(pel[1..], start, minIdle, count, attempts - 1);
      }
    }
  }

  /** Exactly the idle messages of the scanned stretch are claimed. */
  lemma {:induction false} ClaimsTheIdle(pel: Pel, start: nat, minIdle: int, count: nat, attempts: nat, id: nat)
    requires InOrder(pel) && Numbered(pel)
    ensures var c := AutoClaim(pel, start, minIdle, count, attempts);
            id in c.ids <==> Scanned(c, start, id) && IdleAt(pel, minIdle, id)
    decreases pel
  {
    if pel != [] {
      TailInOrder(pel);
      IdleCons(pel, minIdle, id);
      if pel[0].id < start {
        ClaimsTheIdle(pel[1..], start, minIdle, count, attempts, id);
      } else if count == 0 || attempts == 0 {
      } else if pel[0].idle >= minIdle {
        var rest := AutoClaim(pel[1..], start, minIdle, count - 1, attempts - 1);
        CursorIsPending(pel[1..], start, minIdle, count - 1, attempts - 1);
        assert rest.next > 0 ==> rest.next > pel[0].id;
        ClaimsTheIdle(pel[1..], start, minIdle, count - 1, attempts - 1, id);
      } else {
        ClaimsTheIdle(pel[1..], start, minIdle, count, attempts - 1, id);
      }
    }
  }

  lemma {:induction false} ClaimsInOrder(pel: Pel, start: nat, minIdle: int, count: nat, attempts: nat)
    requires InOrder(pel) && Numbered(pel)
    ensures var ids := AutoClaim(pel, start, minIdle, count, attempts).ids;
            |ids| <= count && forall i, j :: 0 <= i < j < |ids| ==> ids[i] < ids[j]
    decreases pel
  {
    if pel != [] {
      TailInOrder(pel);
      if pel[0].id < start {
        ClaimsInOrder(pel[1..], start, minIdle, count, attempts);
      } else if count == 0 || attempts == 0 {
      } else if pel[0].idle >= minIdle {
        var rest := AutoClaim(pel[1..], start, minIdle, count - 1, attempts - 1).ids;
        ClaimsInOrder(pel[1..], start, minIdle, count - 1, attempts - 1);
        forall j | 0 <= j < |rest| ensures pel[0].id < rest[j] {
          ClaimsTheIdle(pel[1..], start, minIdle, count - 1, attempts - 1, rest[j]);
        }
      } else {
        ClaimsInOrder(pel[1..], start, minIdle, count, attempts - 1);
      }
    }
  }

  // ---- a lap of the cursor ----------------------------------------------------------

  /** The cursor after the first n calls of a sequence of ticks, each against its own PEL. */
  function CursorAt(pels: seq<Pel>, minIdle: int, count: nat, attempts: nat, n: nat): nat
    requires n <= |pels|
  {
    if n == 0 then 0
    else
      AutoClaim(pels[n - 1], CursorAt(pels, minIdle, count, attempts, n - 1), minIdle, count, attempts).next
  }

  /** Every stalled message is reclaimed within one lap: if the cursor starts over after n calls, a
      message pending and idle throughout was claimed by one of them, whatever happened to others. */
  lemma {:induction false} LapReclaimsStalled(pels: seq<Pel>, minIdle: int, count: nat, attempts: nat, n: nat, id: nat)
    requires forall pel :: pel in pels ==> InOrder(pel) && Numbered(pel) && IdleAt(pel, minIdle, id)
    requires 0 < n <= |pels|
    requires CursorAt(pels, minIdle, count, attempts, n) == 0 || id < CursorAt(pels, minIdle, count, attempts, n)
    ensures exists i :: 0 <= i < n &&
              id in AutoClaim(pels[i], CursorAt(pels, minIdle, count, attempts, i), minIdle, count, attempts).ids
    decreases n
  {
    var from := CursorAt(pels, minIdle, count, attempts, n - 1);
    ClaimsTheIdle(pels[n - 1], from, minIdle, count, attempts, id);
    if id < from {
      LapReclaimsStalled(pels, minIdle, count, attempts, n - 1, id);
    }
  }

  /** With at least one message per call the cursor moves on or starts over. */
  lemma {:induction false} CursorMovesOn(pel: Pel, start: nat, minIdle: int, count: nat, attempts: nat)
    requires InOrder(pel) && Numbered(pel) && count >= 1 && attempts >= 1
    ensures var next := AutoClaim(pel, start, minIdle, count, attempts).next; next == 0 || next > start
    decreases pel
  {
    if pel != [] {
      TailInOrder(pel);
      if pel[0].id < start {
        CursorMovesOn(pel[1..], start, minIdle, count, attempts);
      } else {
        var left := if pel[0].idle >= minIdle then count - 1 else count;
        CursorIsPending(pel[1..], start, minIdle, left, attempts - 1);
        var next := AutoClaim(pel[1..], start, minIdle, left, attempts - 1).next;
        if next > 0 { var p :| p in pel[1..] && p.id == next; }
      }
    }
  }

  /** Within n calls the cursor has started over or reached n. */
  lemma {:induction false} LapEnds(pels: seq<Pel>, minIdle: int, count: nat, attempts: nat, n: nat) returns (k: nat)
    requires forall pel :: pel in pels ==> InOrder(pel) && Numbered(pel)
    requires count >= 1 && attempts >= 1 && 0 < n <= |pels|
    ensures 0 < k <= n
    ensures var c := CursorAt(pels, minIdle, count, attempts, k); c == 0 || (k == n && c >= n)
  {
    CursorMovesOn(pels[n - 1], CursorAt(pels, minIdle, count, attempts, n - 1), minIdle, count, attempts);
    k := n;
    if n > 1 {
      var m := LapEnds(pels, minIdle, count, attempts, n - 1);
      if CursorAt(pels, minIdle, count, attempts, m) == 0 { k := m; }
    }
  }

  /** So no message stalls for ever: one that stays pending and idle through id + 1 calls is claimed in
      one of them, whatever happens to the other messages. */
  lemma StalledIsReclaimed(pels: seq<Pel>, minIdle: int, count: nat, attempts: nat, id: nat)
    requires forall pel :: pel in pels ==> InOrder(pel) && Numbered(pel) && IdleAt(pel, minIdle, id)
    requires count >= 1 && attempts >= 1 && |pels| > id
    ensures exists i :: 0 <= i <= id &&
              id in AutoClaim(pels[i], CursorAt(pels, minIdle, count, attempts, i), minIdle, count, attempts).ids
  {
    var k := LapEnds(pels, minIdle, count, attempts, id + 1);
    LapReclaimsStalled(pels, minIdle, count, attempts, k, id);
  }

  // ---- delivery-count tags ------------------------------------------------------------

  /** The PEL after a claim: the claimed messages are mine, fresh, and delivered once more. */
  function Claimed(pel: Pel, me: Bytes, ids: seq<nat>): Pel {
    if pel == [] then []
    else [if pel[0].id in ids then Pending(pel[0].id, me, pel[0].count + 1, 0) else pel[0]] + Claimed(pel[1..], me, ids)
  }

  /** XPENDING first last n me. */
  function Extended(pel: Pel, first: nat, last: nat, n: nat, me: Bytes): Pel {
    if pel == [] || n == 0 then []
    else if first <= pel[0].id <= last && pel[0].consumer == me
        then [pel[0]] + Extended(pel[1..], first, last, n - 1, me)
    else Extended(pel[1..], first, last, n, me)
  }

  function CountOf(pends: Pel, id: nat): nat {
    if pends == [] then 1
    else if pends[|pends| - 1].id == id then pends[|pends| - 1].count
    else CountOf(pends[..|pends| - 1], id)
  }

  /** The counts a tick attaches: from one XPENDING over the claimed range, capped at as many entries as
      were claimed; a message missing there, or a failed query, counts as delivered once. */
  function Tags(pel: Pel, me: Bytes, ids: seq<nat>, queryFails: bool): seq<nat> {
    var pends := if queryFails || ids == [] then [] else Extended(pel, ids[0], ids[|ids| - 1], |ids|, me);
    seq(|ids|, i requires 0 <= i < |ids| => CountOf(pends, ids[i]))
  }

  /** The tagging part of a tick, against the PEL as the claim left it. */
  method TagDeliveries(pel: Pel, me: Bytes, claimed: seq<nat>, queryFails: bool) returns (tags: seq<nat>)
    ensures tags == Tags(pel, me, claimed, queryFails)
  {
    var pends: Pel := [];
    if |claimed| > 0 && !queryFails {
      if |claimed| == 1 {
        pends := Extended(pel, claimed[0], claimed[0], 1, me);
      } else {
        pends := Extended(pel, claimed[0], claimed[|claimed| - 1], |claimed|, me);
      }
    }
    var pendingMap: map<nat, nat> := map[];
    for i := 0 to |pends|
      invariant forall id :: CountOf(pends[..i], id) == if id in pendingMap then pendingMap[id] else 1
    {
      assert pends[..i + 1][..i] == pends[..i];
      pendingMap := pendingMap[pends[i].id := pends[i].count];
    }
    assert pends[..|pends|] == pends;
    tags := [];
    for i := 0 to |claimed|
      invariant tags == seq(i, k requires 0 <= k < i => CountOf(pends, claimed[k]))
    {
      var deliveryCount := if claimed[i] in pendingMap then pendingMap[claimed[i]] else 1;
      tags := tags + [deliveryCount];
    }
  }

  // ---- when the tags are true ------------------------------------------------------------

  function Mine(pel: Pel, first: nat, last: nat, me: Bytes): (r: Pel)
    ensures forall p :: p in r <==> p in pel && first <= p.id <= last && p.consumer == me
  {
    if pel == [] then []
    else if first <= pel[0].id <= last && pel[0].consumer == me then [pel[0]] + Mine(pel[1..], first, last, me)
    else Mine(pel[1..], first, last, me)
  }

  lemma {:induction false} MineInOrder(pel: Pel, first: nat, last: nat, me: Bytes)
    requires InOrder(pel)
    ensures InOrder(Mine(pel, first, last, me))
  {
    if pel != [] {
      TailInOrder(pel);
      MineInOrder(pel[1..], first, last, me);
    }
  }

  function AtMost(pel: Pel, n: nat): Pel { pel[..if n < |pel| then n else |pel|] }

  lemma AtMostCons(p: Pending, rest: Pel, n: nat)
    ensures AtMost([p] + rest, n + 1) == [p] + AtMost(rest, n)
  {
  }

  /** The capped query sees the first n of all. */
  lemma {:induction false} ExtendedIsPrefix(pel: Pel, first: nat, last: nat, n: nat, me: Bytes)
    ensures Extended(pel, first, last, n, me) == AtMost(Mine(pel, first, last, me), n)
    decreases pel
  {
    if pel != [] && n > 0 {
      if first <= pel[0].id <= last && pel[0].consumer == me {
        ExtendedIsPrefix(pel[1..], first, last, n - 1, me);
        AtMostCons(pel[0], Mine(pel[1..], first, last, me), n - 1);
      } else {
        ExtendedIsPrefix(pel[1..], first, last, n, me);
      }
    }
  }

  function Touched(p: Pending, me: Bytes, ids: seq<nat>): Pending {
    if p.id in ids then Pending(p.id, me, p.count + 1, 0) else p
  }

  lemma {:induction false} ClaimedMaps(pel: Pel, me: Bytes, ids: seq<nat>)
    ensures |Claimed(pel, me, ids)| == |pel|
    ensures forall i :: 0 <= i < |pel| ==> Claimed(pel, me, ids)[i] == Touched(pel[i], me, ids)
    decreases pel
  {
    if pel != [] { ClaimedMaps(pel[1..], me, ids); }
  }

  lemma ClaimedHas(pel: Pel, me: Bytes, ids: seq<nat>, p: Pending)
    requires p in pel
    ensures Touched(p, me, ids) in Claimed(pel, me, ids)
  {
    ClaimedMaps(pel, me, ids);
    var k :| 0 <= k < |pel| && pel[k] == p;
    assert Claimed(pel, me, ids)[k] == Touched(p, me, ids);
  }

  lemma ClaimedFrom(pel: Pel, me: Bytes, ids: seq<nat>, q: Pending) returns (p: Pending)
    requires q in Claimed(pel, me, ids)
    ensures p in pel && q == Touched(p, me, ids)
  {
    ClaimedMaps(pel, me, ids);
    var k :| 0 <= k < |Claimed(pel, me, ids)| && Claimed(pel, me, ids)[k] == q;
    p := pel[k];
  }

  function IdsOf(pel: Pel): set<nat> { set p | p in pel :: p.id }

  function Elements(s: seq<nat>): set<nat> { set x | x in s }

  lemma {:induction false} DistinctSize(s: seq<nat>)
    requires forall i, j :: 0 <= i < j < |s| ==> s[i] != s[j]
    ensures |Elements(s)| == |s|
  {
    if s != [] {
      DistinctSize(s[1..]);
      assert s == [s[0]] + s[1..];
      assert Elements(s) == Elements(s[1..]) + {s[0]};
    }
  }

  lemma {:induction false} InOrderSize(pel: Pel)
    requires InOrder(pel)
    ensures |IdsOf(pel)| == |pel|
  {
    if pel != [] {
      TailInOrder(pel);
      InOrderSize(pel[1..]);
      assert IdsOf(pel) == IdsOf(pel[1..]) + {pel[0].id};
    }
  }

  lemma {:induction false} CountOfFound(pends: Pel, p: Pending)
    requires InOrder(pends) && p in pends
    ensures CountOf(pends, p.id) == p.count
  {
    var n := |pends| - 1;
    var k :| 0 <= k < |pends| && pends[k] == p;
    if k < n {
      assert pends[..n][k] == p;
      CountOfFound(pends[..n], p);
    }
  }

  lemma {:induction false} CountOfMissing(pends: Pel, id: nat)
    requires id !in IdsOf(pends)
    ensures CountOf(pends, id) == 1
  {
    if pends != [] {
      var n := |pends| - 1;
      assert pends[n] in pends && IdsOf(pends[..n]) <= IdsOf(pends);
      CountOfMissing(pends[..n], id);
    }
  }

  /** Some message of mine in the claimed range is still being worked on. */
  ghost predicate BusyBetween(pel: Pel, me: Bytes, minIdle: int, first: nat, last: nat) {
    exists p :: p in pel && p.consumer == me && p.idle < minIdle && first < p.id < last
  }

  /** The tag of a claimed message is its delivery count. */
  ghost predicate TrueTag(pel: Pel, ids: seq<nat>, tags: seq<nat>, i: nat)
    requires i < |ids| == |tags|
  {
    exists p :: p in pel && p.id == ids[i] && tags[i] == p.count + 1
  }

  /** What the rest of a tick needs to know about a claim: a run of ascending pending IDs, which takes
      exactly the idle messages of its range. */
  ghost predicate GoodClaim(pel: Pel, minIdle: int, ids: seq<nat>) {
    && InOrder(pel) && ids != []
    && (forall i, j :: 0 <= i < j < |ids| ==> ids[i] < ids[j])
    && (forall id :: id in ids ==> PendingAt(pel, id))
    && (forall p :: p in pel && ids[0] <= p.id <= ids[|ids| - 1] ==> (p.id in ids <==> p.idle >= minIdle))
  }

  lemma SameId(pel: Pel, p: Pending, q: Pending)
    requires InOrder(pel) && p in pel && q in pel && p.id == q.id
    ensures p == q
  {
    var i :| 0 <= i < |pel| && pel[i] == p;
    var k :| 0 <= k < |pel| && pel[k] == q;
  }

  lemma AutoClaimIsGood(pel: Pel, start: nat, minIdle: int, count: nat, attempts: nat)
    requires InOrder(pel) && Numbered(pel) && AutoClaim(pel, start, minIdle, count, attempts).ids != []
    ensures GoodClaim(pel, minIdle, AutoClaim(pel, start, minIdle, count, attempts).ids)
  {
    var c := AutoClaim(pel, start, minIdle, count, attempts);
    var first, last := c.ids[0], c.ids[|c.ids| - 1];
    ClaimsInOrder(pel, start, minIdle, count, attempts);
    forall id | id in c.ids ensures PendingAt(pel, id) {
      ClaimsTheIdle(pel, start, minIdle, count, attempts, id);
      var p :| p in pel && p.id == id && p.idle >= minIdle;
    }
    ClaimsTheIdle(pel, start, minIdle, count, attempts, first);
    ClaimsTheIdle(pel, start, minIdle, count, attempts, last);
    forall p | p in pel && first <= p.id <= last ensures p.id in c.ids <==> p.idle >= minIdle {
      ClaimsTheIdle(pel, start, minIdle, count, attempts, p.id);
      if IdleAt(pel, minIdle, p.id) {
        var q :| q in pel && q.id == p.id && q.idle >= minIdle;
        SameId(pel, p, q);
      }
    }
  }

  function Seen(pel: Pel, me: Bytes, ids: seq<nat>): Pel
    requires ids != []
  {
    Mine(Claimed(pel, me, ids), ids[0], ids[|ids| - 1], me)
  }

  /** After the claim, XPENDING can see the claimed messages and those of mine I am still working on. */
  lemma SeenIs(pel: Pel, me: Bytes, minIdle: int, ids: seq<nat>, q: Pending)
    requires GoodClaim(pel, minIdle, ids) && q in pel && ids[0] <= q.id <= ids[|ids| - 1]
    ensures q.id in ids ==> Pending(q.id, me, q.count + 1, 0) in Seen(pel, me, ids)
    ensures q.id !in ids && q.consumer == me ==> q in Seen(pel, me, ids)
  {
    ClaimedHas(pel, me, ids, q);
  }

  lemma SeenOnly(pel: Pel, me: Bytes, minIdle: int, ids: seq<nat>, q: Pending)
    requires GoodClaim(pel, minIdle, ids) && q in Seen(pel, me, ids) && q.id !in ids
    ensures q in pel && q.consumer == me && q.idle < minIdle && ids[0] < q.id < ids[|ids| - 1]
  {
    var p := ClaimedFrom(pel, me, ids, q);
    assert ids[0] in ids && ids[|ids| - 1] in ids;
  }

  lemma SeenInOrder(pel: Pel, me: Bytes, ids: seq<nat>)
    requires InOrder(pel) && ids != []
    ensures InOrder(Seen(pel, me, ids))
  {
    ClaimedMaps(pel, me, ids);
    MineInOrder(Claimed(pel, me, ids), ids[0], ids[|ids| - 1], me);
  }

  lemma Within(ids: seq<nat>, id: nat)
    requires (forall i, j :: 0 <= i < j < |ids| ==> ids[i] < ids[j]) && id in ids
    ensures ids[0] <= id <= ids[|ids| - 1]
  {
  }

  lemma ClaimedAreSeen(pel: Pel, me: Bytes, minIdle: int, ids: seq<nat>, id: nat) returns (p: Pending)
    requires GoodClaim(pel, minIdle, ids) && id in ids
    ensures p in pel && p.id == id && Pending(id, me, p.count + 1, 0) in Seen(pel, me, ids)
  {
    p :| p in pel && p.id == id;
    Within(ids, id);
    SeenIs(pel, me, minIdle, ids, p);
  }

  lemma ClaimedIdsAreSeen(pel: Pel, me: Bytes, minIdle: int, ids: seq<nat>)
    requires GoodClaim(pel, minIdle, ids)
    ensures Elements(ids) <= IdsOf(Seen(pel, me, ids)) && |Elements(ids)| == |ids|
    ensures |IdsOf(Seen(pel, me, ids))| == |Seen(pel, me, ids)| >= |ids|
  {
    SeenInOrder(pel, me, ids);
    InOrderSize(Seen(pel, me, ids));
    DistinctSize(ids);
    forall id | id in Elements(ids) ensures id in IdsOf(Seen(pel, me, ids)) {
      var p := ClaimedAreSeen(pel, me, minIdle, ids, id);
    }
    SubsetSize(Elements(ids), IdsOf(Seen(pel, me, ids)));
  }

  /** XPENDING sees more than the claimed messages exactly when one of mine in the range is busy. */
  lemma SeesMoreIffBusy(pel: Pel, me: Bytes, minIdle: int, ids: seq<nat>)
    requires GoodClaim(pel, minIdle, ids)
    ensures BusyBetween(pel, me, minIdle, ids[0], ids[|ids| - 1]) <==> |Seen(pel, me, ids)| > |ids|
  {
    ClaimedIdsAreSeen(pel, me, minIdle, ids);
    var seen := IdsOf(Seen(pel, me, ids));
    if BusyBetween(pel, me, minIdle, ids[0], ids[|ids| - 1]) {
      var p :| p in pel && p.consumer == me && p.idle < minIdle && ids[0] < p.id < ids[|ids| - 1];
      SeenIs(pel, me, minIdle, ids, p);
      assert p.id !in Elements(ids);
      SubsetSize(Elements(ids) + {p.id}, seen);
    } else {
      forall q | q in Seen(pel, me, ids) ensures q.id in ids {
        if q.id !in ids { SeenOnly(pel, me, minIdle, ids, q); }
      }
      assert seen == Elements(ids);
    }
  }

  lemma LastIsCutOff(all: Pel, n: nat, last: nat)
    requires InOrder(all) && n < |all| && forall p :: p in all ==> p.id <= last
    ensures last !in IdsOf(all[..n])
  {
    forall p | p in all[..n] ensures p.id < last {
      var k :| 0 <= k < n && all[..n][k] == p;
      assert all[n] in all && all[k].id < all[n].id;
    }
  }

  lemma PrefixInOrder(all: Pel, n: nat)
    requires InOrder(all) && n <= |all|
    ensures InOrder(all[..n]) && forall p :: p in all[..n] ==> p in all
  {
  }

  /** What the query can see of mine comes from the claim: the same messages, with the same counts, but
      maybe not all of them any more. */
  ghost predicate FromSeen(pel: Pel, me: Bytes, ids: seq<nat>, pends: Pel)
    requires ids != []
  {
    forall p :: p in pends ==> exists q :: q in Seen(pel, me, ids) && q.id == p.id && q.count == p.count
  }

  /** A claimed message gets its true count exactly when the capped query reaches it. */
  lemma TagTrueIffSeen(pel: Pel, me: Bytes, minIdle: int, ids: seq<nat>, pends: Pel, i: nat)
    requires GoodClaim(pel, minIdle, ids) && i < |ids| && (forall p :: p in pel ==> p.count >= 1)
    requires InOrder(pends) && FromSeen(pel, me, ids, pends)
    ensures ids[i] in IdsOf(pends) <==> exists p :: p in pel && p.id == ids[i] && CountOf(pends, ids[i]) == p.count + 1
  {
    var p := ClaimedAreSeen(pel, me, minIdle, ids, ids[i]);
    if ids[i] in IdsOf(pends) {
      var q :| q in pends && q.id == ids[i];
      var s :| s in Seen(pel, me, ids) && s.id == q.id && s.count == q.count;
      SeenInOrder(pel, me, ids);
      SameId(Seen(pel, me, ids), s, Pending(ids[i], me, p.count + 1, 0));
    } else {
      CountOfMissing(pends, ids[i]);
    }
    forall q | q in pends && q.id == ids[i] ensures CountOf(pends, ids[i]) == q.count { CountOfFound(pends, q); }
  }

  ghost predicate AllTagsTrue(pel: Pel, ids: seq<nat>, tags: seq<nat>)
    requires |ids| == |tags|
  {
    forall i :: 0 <= i < |ids| ==> TrueTag(pel, ids, tags, i)
  }

  /** What a query at PEL `now` reaches of mine in the claimed range, and whether that is all of it. */
  lemma QueryIsPrefix(pel: Pel, me: Bytes, ids: seq<nat>, now: Pel)
    requires ids != [] && InOrder(now) && FromSeen(pel, me, ids, Mine(now, ids[0], ids[|ids| - 1], me))
    ensures var pends := Extended(now, ids[0], ids[|ids| - 1], |ids|, me);
            && pends == AtMost(Mine(now, ids[0], ids[|ids| - 1], me), |ids|)
            && InOrder(pends) && FromSeen(pel, me, ids, pends)
  {
    var all := Mine(now, ids[0], ids[|ids| - 1], me);
    ExtendedIsPrefix(now, ids[0], ids[|ids| - 1], |ids|, me);
    MineInOrder(now, ids[0], ids[|ids| - 1], me);
    PrefixInOrder(all, if |ids| < |all| then |ids| else |all|);
  }

  /** Nothing of mine beyond the claimed messages, and all of those still there. */
  ghost predicate JustTheClaimed(ids: seq<nat>, all: Pel) {
    (forall id :: id in ids ==> id in IdsOf(all)) && |all| <= |ids|
  }

  lemma ReachesAllIff(ids: seq<nat>, all: Pel)
    requires ids != [] && InOrder(all) && forall p :: p in all ==> p.id <= ids[|ids| - 1]
    ensures (forall id :: id in ids ==> id in IdsOf(AtMost(all, |ids|))) <==> JustTheClaimed(ids, all)
  {
    if |all| > |ids| {
      LastIsCutOff(all, |ids|, ids[|ids| - 1]);
      assert ids[|ids| - 1] in ids && AtMost(all, |ids|) == all[..|ids|];
    } else {
      assert AtMost(all, |ids|) == all;
    }
  }

  /** The claim and the count query are two round trips. Every reclaimed message carries its true
      delivery count if and only if the query, at whatever PEL it finds, sees all the claimed messages
      and nothing else of mine in their range: none was settled and none is busy. */
  lemma TagsTrueAtQueryIff(pel: Pel, me: Bytes, minIdle: int, ids: seq<nat>, now: Pel)
    requires GoodClaim(pel, minIdle, ids) && forall p :: p in pel ==> p.count >= 1
    requires InOrder(now) && FromSeen(pel, me, ids, Mine(now, ids[0], ids[|ids| - 1], me))
    ensures AllTagsTrue(pel, ids, Tags(now, me, ids, false))
       <==> JustTheClaimed(ids, Mine(now, ids[0], ids[|ids| - 1], me))
  {
    var pends := Extended(now, ids[0], ids[|ids| - 1], |ids|, me);
    QueryIsPrefix(pel, me, ids, now);
    MineInOrder(now, ids[0], ids[|ids| - 1], me);
    ReachesAllIff(ids, Mine(now, ids[0], ids[|ids| - 1], me));
    forall i | 0 <= i < |ids|
      ensures TrueTag(pel, ids, Tags(now, me, ids, false), i) <==> ids[i] in IdsOf(pends)
    {
      TagTrueIffSeen(pel, me, minIdle, ids, pends, i);
    }
    TagsAreReached(pel, ids, Tags(now, me, ids, false), pends);
  }

  lemma TagsAreReached(pel: Pel, ids: seq<nat>, tags: seq<nat>, pends: Pel)
    requires |ids| == |tags|
    requires forall i :: 0 <= i < |ids| ==> (TrueTag(pel, ids, tags, i) <==> ids[i] in IdsOf(pends))
    ensures AllTagsTrue(pel, ids, tags) <==> forall id :: id in ids ==> id in IdsOf(pends)
  {
    if forall id :: id in ids ==> id in IdsOf(pends) {
      forall i | 0 <= i < |ids| ensures TrueTag(pel, ids, tags, i) { assert ids[i] in ids; }
    }
  }

  /** When nothing happens between the two, that is exactly when none of my messages inside the claimed
      range is still being worked on; otherwise the last one claimed is tagged as delivered once. */
  lemma TagsTrueIff(pel: Pel, me: Bytes, minIdle: int, ids: seq<nat>)
    requires GoodClaim(pel, minIdle, ids) && forall p :: p in pel ==> p.count >= 1
    ensures AllTagsTrue(pel, ids, Tags(Claimed(pel, me, ids), me, ids, false))
       <==> !BusyBetween(pel, me, minIdle, ids[0], ids[|ids| - 1])
  {
    ClaimedInOrder(pel, me, ids);
    TagsTrueAtQueryIff(pel, me, minIdle, ids, Claimed(pel, me, ids));
    JustTheClaimedIff(pel, me, minIdle, ids);
  }

  lemma ClaimedInOrder(pel: Pel, me: Bytes, ids: seq<nat>)
    requires InOrder(pel)
    ensures InOrder(Claimed(pel, me, ids))
  {
    ClaimedMaps(pel, me, ids);
  }

  lemma JustTheClaimedIff(pel: Pel, me: Bytes, minIdle: int, ids: seq<nat>)
    requires GoodClaim(pel, minIdle, ids)
    ensures JustTheClaimed(ids, Seen(pel, me, ids)) <==> !BusyBetween(pel, me, minIdle, ids[0], ids[|ids| - 1])
  {
    SeesMoreIffBusy(pel, me, minIdle, ids);
    ClaimedIdsAreSeen(pel, me, minIdle, ids);
    forall id | id in ids ensures id in IdsOf(Seen(pel, me, ids)) { assert id in Elements(ids); }
  }

  /** The last message claimed counts as delivered once when the capped query has more to report. */
  lemma CutOffTagsOnce(now: Pel, me: Bytes, ids: seq<nat>)
    requires ids != [] && InOrder(now) && |Mine(now, ids[0], ids[|ids| - 1], me)| > |ids|
    ensures Tags(now, me, ids, false)[|ids| - 1] == 1
  {
    var all := Mine(now, ids[0], ids[|ids| - 1], me);
    MineInOrder(now, ids[0], ids[|ids| - 1], me);
    ExtendedIsPrefix(now, ids[0], ids[|ids| - 1], |ids|, me);
    LastIsCutOff(all, |ids|, ids[|ids| - 1]);
    CountOfMissing(all[..|ids|], ids[|ids| - 1]);
  }

  lemma BusyTagsLastOnce(pel: Pel, me: Bytes, minIdle: int, ids: seq<nat>)
    requires GoodClaim(pel, minIdle, ids) && BusyBetween(pel, me, minIdle, ids[0], ids[|ids| - 1])
    ensures Tags(Claimed(pel, me, ids), me, ids, false)[|ids| - 1] == 1
  {
    SeesMoreIffBusy(pel, me, minIdle, ids);
    ClaimedInOrder(pel, me, ids);
    CutOffTagsOnce(Claimed(pel, me, ids), me, ids);
  }

  // ---- inputs on which the tags are wrong -------------------------------------------------------

  lemma ExtendedTwo(p: Pending, q: Pending, me: Bytes)
    requires p.id < q.id && p.consumer == q.consumer == me
    ensures Extended([p, q], p.id, q.id, 2, me) == [p, q]
    ensures CountOf([p, q], p.id) == p.count && CountOf([p, q], q.id) == q.count
  {
    assert [p, q][1..] == [q] && [q][1..] == [];
    assert Extended([q], p.id, q.id, 1, me) == [q];
    CountOfTwo(p, q, p.id);
  }

  lemma CountOfTwo(p: Pending, q: Pending, id: nat)
    ensures CountOf([p, q], id) == if q.id == id then q.count else if p.id == id then p.count else 1
  {
    assert [p, q][..1] == [p] && [p][..0] == [];
    assert CountOf([p], id) == if p.id == id then p.count else CountOf([], id);
  }

  /** Messages 1 and 3 of another consumer are stalled, 2 is mine and busy. */
  function BusyPel(other: Bytes, me: Bytes, minIdle: int, first: nat, last: nat): Pel {
    [Pending(1, other, first, minIdle), Pending(2, me, 1, 0), Pending(3, other, last, minIdle)]
  }

  lemma BusyPelClaims(other: Bytes, me: Bytes, minIdle: int, first: nat, last: nat, count: nat, attempts: nat)
    requires minIdle > 0 && count >= 2 && attempts >= 3
    ensures var pel := BusyPel(other, me, minIdle, first, last);
            && AutoClaim(pel, 0, minIdle, count, attempts) == Claim([1, 3], 0) && GoodClaim(pel, minIdle, [1, 3])
            && BusyBetween(pel, me, minIdle, 1, 3)
            && Claimed(pel, me, [1, 3]) == [Pending(1, me, first + 1, 0), pel[1], Pending(3, me, last + 1, 0)]
  {
    var pel := BusyPel(other, me, minIdle, first, last);
    assert pel[1..] == [pel[1], pel[2]] && [pel[1], pel[2]][1..] == [pel[2]] && [pel[2]][1..] == [];
    assert AutoClaim([pel[2]], 0, minIdle, count - 1, attempts - 2) == Claim([3], 0);
    assert AutoClaim([pel[1], pel[2]], 0, minIdle, count - 1, attempts - 1) == Claim([3], 0);
    assert pel[1] in pel;
    AutoClaimIsGood(pel, 0, minIdle, count, attempts);
    assert Claimed([pel[2]], me, [1, 3]) == [Pending(3, me, last + 1, 0)];
    assert Claimed([pel[1], pel[2]], me, [1, 3]) == [pel[1], Pending(3, me, last + 1, 0)];
  }

  /** A busy neighbour: the first message is tagged truly, the last as delivered once. */
  lemma BusyNeighbourMistags(other: Bytes, me: Bytes, minIdle: int, first: nat, last: nat)
    requires minIdle > 0
    ensures Tags(Claimed(BusyPel(other, me, minIdle, first, last), me, [1, 3]), me, [1, 3], false) == [first + 1, 1]
  {
    var pel := BusyPel(other, me, minIdle, first, last);
    BusyPelClaims(other, me, minIdle, first, last, 10, 100);
    var p, q, r := Pending(1, me, first + 1, 0), Pending(2, me, 1, 0), Pending(3, me, last + 1, 0);
    var after := [p, q, r];
    assert after[1..] == [q, r] && Extended([q, r], 1, 3, 1, me) == [q];
    assert Extended(after, 1, 3, 2, me) == [p, q];
    CountOfTwo(p, q, 1);
    CountOfTwo(p, q, 3);
  }

  /** The same busy message, settled between the two round trips: all tags are true after all. */
  lemma BusySettledInTimeTagsTruly(other: Bytes, me: Bytes, minIdle: int, first: nat, last: nat)
    requires minIdle > 0
    ensures var now := [Pending(1, me, first + 1, 0), Pending(3, me, last + 1, 0)];
            && AllTagsTrue(BusyPel(other, me, minIdle, first, last), [1, 3], Tags(now, me, [1, 3], false))
            && BusyBetween(BusyPel(other, me, minIdle, first, last), me, minIdle, 1, 3)
  {
    var pel := BusyPel(other, me, minIdle, first, last);
    ExtendedTwo(Pending(1, me, first + 1, 0), Pending(3, me, last + 1, 0), me);
    assert pel[0] in pel && pel[1] in pel && pel[2] in pel;
    var tags := Tags([Pending(1, me, first + 1, 0), Pending(3, me, last + 1, 0)], me, [1, 3], false);
    assert TrueTag(pel, [1, 3], tags, 0) && TrueTag(pel, [1, 3], tags, 1);
  }

  /** Nothing busy, but the slow worker of message 1 settles it between the two round trips: the
      janitor hands it on as delivered once, whatever its count. */
  lemma SettledBetweenMistags(other: Bytes, me: Bytes, minIdle: int, first: nat, last: nat)
    requires minIdle > 0 && first >= 1
    ensures var pel := [Pending(1, other, first, minIdle), Pending(3, other, last, minIdle)];
            var now := [Pending(3, me, last + 1, 0)];
            && GoodClaim(pel, minIdle, [1, 3]) && !BusyBetween(pel, me, minIdle, 1, 3)
            && Tags(now, me, [1, 3], false) == [1, last + 1] && !TrueTag(pel, [1, 3], [1, last + 1], 0)
  {
    var pel := [Pending(1, other, first, minIdle), Pending(3, other, last, minIdle)];
    assert pel[0] in pel && pel[1] in pel;
    var now := [Pending(3, me, last + 1, 0)];
    assert now[1..] == [] && Extended(now, 1, 3, 2, me) == now && now[..0] == [];
    assert CountOf(now, 1) == CountOf([], 1) == 1 && CountOf(now, 3) == last + 1;
    assert Tags(now, me, [1, 3], false) == [1, last + 1];
    assert !TrueTag(pel, [1, 3], [1, last + 1], 0);
  }

  // ---- the reclaim loop -------------------------------------------------------------------

  /** How many messages one tick claims: the worker's concurrency, at least 10 and at most 100. */
  function ClaimCount(concurrency: int): (n: nat)
    ensures 10 <= n <= 100 && (10 <= concurrency <= 100 ==> n == concurrency)
  {
    if concurrency < 10 then 10 else if concurrency > 100 then 100 else concurrency
  }

  lemma TickTags(pel: Pel, me: Bytes, minIdle: int, start: nat, count: nat, attempts: nat, now: Pel)
    requires InOrder(pel) && Numbered(pel) && InOrder(now) && forall p :: p in pel ==> p.count >= 1
    ensures var ids := AutoClaim(pel, start, minIdle, count, attempts).ids;
            ids != [] && FromSeen(pel, me, ids, Mine(now, ids[0], ids[|ids| - 1], me)) ==>
              (AllTagsTrue(pel, ids, Tags(now, me, ids, false))
               <==> JustTheClaimed(ids, Mine(now, ids[0], ids[|ids| - 1], me)))
  {
    var ids := AutoClaim(pel, start, minIdle, count, attempts).ids;
    if ids != [] && FromSeen(pel, me, ids, Mine(now, ids[0], ids[|ids| - 1], me)) {
      AutoClaimIsGood(pel, start, minIdle, count, attempts);
      TagsTrueAtQueryIff(pel, me, minIdle, ids, now);
    }
  }

  class PelJanitor {
    const consumer: Bytes
    const concurrency: int
    const minIdle: int
    var startCursor: nat

    constructor (consumer: Bytes, concurrency: int, minIdle: int)
      ensures this.consumer == consumer && this.concurrency == concurrency && this.minIdle == minIdle
          && startCursor == 0
    {
      this.consumer, this.concurrency, this.minIdle := consumer, concurrency, minIdle;
      startCursor := 0;
    }

    /** One tick: claim from the cursor against `pel`, move the cursor on, then tag what was claimed by a
        query that finds `now`. The tags are all true exactly when the query sees the claimed messages
        and nothing else of this consumer in their range. */
    method Tick(pel: Pel, now: Pel, attempts: nat, claimFails: bool, queryFails: bool)
      returns (claimed: seq<nat>, tags: seq<nat>, after: Pel)
      requires InOrder(pel) && Numbered(pel) && InOrder(now) && forall p :: p in pel ==> p.count >= 1
      modifies this`startCursor
      ensures var claim := AutoClaim(pel, old(startCursor), minIdle, ClaimCount(concurrency), attempts);
              if claimFails then claimed == [] && after == pel && startCursor == old(startCursor)
              else claimed == claim.ids && startCursor == claim.next && after == Claimed(pel, consumer, claimed)
      ensures tags == Tags(now, consumer, claimed, queryFails)
      ensures claimed != [] && !queryFails ==>
        FromSeen(pel, consumer, claimed, Mine(now, claimed[0], claimed[|claimed| - 1], consumer)) ==>
          (AllTagsTrue(pel, claimed, tags)
           <==> JustTheClaimed(claimed, Mine(now, claimed[0], claimed[|claimed| - 1], consumer)))
    {
      claimed, after := [], pel;
      if !claimFails {
        var claimCount := concurrency;
        if claimCount < 10 { claimCount := 10; } else if claimCount > 100 { claimCount := 100; }
        var claim := AutoClaim(pel, startCursor, minIdle, claimCount, attempts);
        startCursor := claim.next;
        claimed, after := claim.ids, Claimed(pel, consumer, claim.ids);
        TickTags(pel, consumer, minIdle, old(startCursor), claimCount, attempts, now);
      }
      tags := TagDeliveries(now, consumer, claimed, queryFails);
    }
  }

  // ---- safe trim -----------------------------------------------------------------------------

  /** safeTrimThreshold: XPENDING's lowest ID or, from a second read, the group's last-delivered ID. */
  function Threshold(lower: Option<nat>, lastDelivered: nat): Option<nat> {
    if lower.Some? then lower else if lastDelivered > 0 then Some(lastDelivered) else None
  }

  /** The lowest of the pending IDs, as XPENDING reports it. */
  ghost predicate Lowest(pel: map<nat, nat>, lower: Option<nat>) {
    if lower.Some? then lower.value in pel && forall p :: p in pel ==> lower.value <= p else pel.Keys == {}
  }

  /** Both reads taken at once, the threshold is the highest ID with nothing pending below it, up to the
      last-delivered one; there is none exactly when nothing is pending and nothing was ever delivered. */
  lemma ThresholdIsHighest(w: World, lower: Option<nat>, m: nat)
    requires PelOk(w) && Lowest(w.q.pel, lower)
    ensures var r := Threshold(lower, w.q.delivered);
            && (r.None? <==> w.q.pel.Keys == {} && w.q.delivered == 0)
            && (r.Some? ==> IsThreshold(w.q, r.value))
            && (r.Some? ==> (m <= r.value <==> m <= w.q.delivered && forall p :: p in w.q.pel ==> m <= p))
  {
  }

  /** No trim up to m, however far it gets, removes an entry the group still owes a run. */
  ghost predicate TrimIsSafe(c: TaskCodec, w: World, m: nat) {
    forall n: nat, e :: n <= |w.q.stream| && e in w.q.stream[..n] && (forall d :: d in w.q.stream[..n] ==> d.id < m)
        ==> !Owed(c, w, e)
  }

  lemma TrimIsSafeIff(c: TaskCodec, w: World, m: nat)
    requires Inv(c, w)
    ensures TrimIsSafe(c, w, m) <==> NoneBelow(c, w, m)
  {
    if e :| Owed(c, w, e) && e.id < m {
      var k :| 0 <= k < |w.q.stream| && w.q.stream[k] == e;
      var cut := w.q.stream[..k + 1];
      assert cut[k] == e;
      forall d | d in cut ensures d.id < m { var i :| 0 <= i <= k && cut[i] == d; }
    }
  }

  /** Steps only ever add entries above every ID used so far. */
  lemma NextOnlyAppends(c: TaskCodec, w: World, a: Step)
    requires Shape(w.q)
    ensures var v := Next(c, w, a);
            && v.start == w.start && v.q.lastId >= w.q.lastId
            && forall e :: e in v.q.stream ==> e in w.q.stream || e.id > w.q.lastId
  {
    match a
    case Trim(threshold, n) => if n <= |w.q.stream| { AscendingSuffix(w.q.stream, n); }
    case _ =>
  }

  lemma {:induction false} RunOnlyAppends(c: TaskCodec, w: World, steps: seq<Step>)
    requires Inv(c, w) && Lawful(c)
    ensures var v := Run(c, w, steps);
            && v.start == w.start && v.q.lastId >= w.q.lastId
            && forall e :: e in v.q.stream ==> e in w.q.stream || e.id > w.q.lastId
    decreases steps
  {
    if steps != [] {
      NextOnlyAppends(c, w, steps[0]);
      NextKeepsInv(c, w, steps[0]);
      RunOnlyAppends(c, Next(c, w, steps[0]), steps[1..]);
    }
  }

  /** A threshold from the pending list alone is safe, at once and after any further steps. */
  lemma OneReadIsSafe(c: TaskCodec, w: World, lower: nat, later: seq<Step>)
    requires Inv(c, w) && Lawful(c) && lower in w.q.pel && (forall p :: p in w.q.pel ==> lower <= p)
    ensures TrimIsSafe(c, Run(c, w, later), lower)
  {
    SafetyPersists(c, w, lower, later);
  }

  lemma SafetyPersists(c: TaskCodec, w: World, m: nat, later: seq<Step>)
    requires Inv(c, w) && Lawful(c) && NoneBelow(c, w, m) && m <= w.q.lastId
    ensures TrimIsSafe(c, Run(c, w, later), m)
  {
    RunOnlyAppends(c, w, later);
    RunKeepsInv(c, w, later);
    forall e | Owed(c, Run(c, w, later), e) ensures e.id >= m {
      if e in w.q.stream { assert Owed(c, w, e); }
    }
    TrimIsSafeIff(c, Run(c, w, later), m);
  }

  lemma OwedBelowIsPending(c: TaskCodec, w: World, m: nat)
    requires Inv(c, w) && m <= w.q.delivered
    ensures NoneBelow(c, w, m) <==> forall p :: p in w.q.pel && p < m ==> !OwedAt(c, w, p)
  {
    if e :| Owed(c, w, e) && e.id < m { assert e.id in w.q.pel && OwedAt(c, w, e.id); }
    if p :| p in w.q.pel && p < m && OwedAt(c, w, p) {
      var e :| Owed(c, w, e) && e.id == p;
      assert e.id < m;
    }
  }

  /** With an empty pending list the threshold comes from a second, later read, and messages may be
      delivered in between. Trimming to it is safe if and only if the pending list, read again, holds
      nothing below it whose entry is still there to run; and only messages delivered in between can be
      such. */
  lemma TwoReadsSafeIff(c: TaskCodec, w: World, between: seq<Step>)
    requires Inv(c, w) && Lawful(c) && w.q.pel.Keys == {}
    ensures var v := Run(c, w, between);
            TrimIsSafe(c, v, v.q.delivered) <==> forall p :: p in v.q.pel && p < v.q.delivered ==> !OwedAt(c, v, p)
    ensures var v := Run(c, w, between); forall e :: Owed(c, v, e) ==> e.id > w.q.delivered
  {
    var v := Run(c, w, between);
    RunOnlyAppends(c, w, between);
    RunKeepsInv(c, w, between);
    TrimIsSafeIff(c, v, v.q.delivered);
    OwedBelowIsPending(c, v, v.q.delivered);
    forall e | Owed(c, v, e) ensures e.id > w.q.delivered { assert e.id !in w.q.pel; }
  }

  lemma TwoReadsStaySafe(c: TaskCodec, w: World, between: seq<Step>, later: seq<Step>)
    requires Inv(c, w) && Lawful(c) && TrimIsSafe(c, Run(c, w, between), Run(c, w, between).q.delivered)
    ensures TrimIsSafe(c, Run(c, Run(c, w, between), later), Run(c, w, between).q.delivered)
  {
    var v := Run(c, w, between);
    RunKeepsInv(c, w, between);
    TrimIsSafeIff(c, v, v.q.delivered);
    SafetyPersists(c, v, v.q.delivered, later);
  }

  /** n messages with these bodies, none delivered yet, each task admitted and nowhere else. */
  function Waiting(c: TaskCodec, bodies: seq<Bytes>): World {
    World(State(Numbers(bodies), |bodies|, 0, map[], [], [], map[], map[]), 0,
          set i | 0 <= i < |bodies| && c.Id(bodies[i]).Some? :: c.Id(bodies[i]).value, {}, {}, {}, {})
  }

  function Numbers(bodies: seq<Bytes>): seq<Entry> {
    seq(|bodies|, i requires 0 <= i < |bodies| => Entry(i + 1, bodies[i]))
  }

  /** The bodies are encodings of different tasks. */
  ghost predicate Different(c: TaskCodec, bodies: seq<Bytes>) {
    && (forall i :: 0 <= i < |bodies| ==> c.Id(bodies[i]).Some?)
    && (forall i, k :: 0 <= i < k < |bodies| ==> c.Id(bodies[i]) != c.Id(bodies[k]))
  }

  lemma WaitingIsSound(c: TaskCodec, bodies: seq<Bytes>)
    requires Different(c, bodies)
    ensures Inv(c, Waiting(c, bodies))
  {
    var w := Waiting(c, bodies);
    assert Members([]) == {} == w.q.index.Keys;
    forall x | x in w.admitted ensures Accounted(c, w, x) {
      var i :| 0 <= i < |bodies| && x == c.Id(bodies[i]).value;
      assert w.q.stream[i] in w.q.stream;
      assert InStream(c, w, x);
    }
  }

  lemma {:induction false} FirstOfNumbers(stream: seq<Entry>, from: nat, delivered: nat)
    requires forall i :: 0 <= i < |stream| ==> stream[i].id == from + i + 1
    requires from <= delivered < from + |stream|
    ensures FirstUndelivered(stream, delivered) == Some(stream[delivered - from])
  {
    if from < delivered { FirstOfNumbers(stream[1..], from + 1, delivered); }
  }

  /** n deliveries hand out the first n messages and leave the stream as it was. */
  lemma {:induction false} DeliverMany(c: TaskCodec, w: World, bodies: seq<Bytes>, n: nat)
    requires n <= |bodies| - w.q.delivered && w.q.stream == Numbers(bodies) && w.q.delivered <= |bodies|
    ensures var v := Run(c, w, seq(n, _ => Deliver));
            && v.q.stream == w.q.stream && v.q.delivered == w.q.delivered + n && v.start == w.start
            && v.q.delayed == w.q.delayed && v.q.dlq == w.q.dlq
            && v.admitted == w.admitted && v.completed == w.completed && v.dropped == w.dropped
    decreases n
  {
    if n > 0 {
      FirstOfNumbers(w.q.stream, 0, w.q.delivered);
      assert seq(n, _ => Deliver)[1..] == seq(n - 1, _ => Deliver);
      DeliverMany(c, Next(c, w, Deliver), bodies, n - 1);
    }
  }

  /** The race: nothing pending at the first read, all of n messages delivered before the second. Any
      trim to the second read's threshold that gets past k messages leaves those k tasks nowhere, while
      their workers run them; if one crashes, its task is lost. */
  lemma TwoReadTrimLosesTasks(c: TaskCodec, bodies: seq<Bytes>, k: nat, j: nat)
    requires Different(c, bodies) && j < k < |bodies|
    ensures var w := Waiting(c, bodies);
            var v := Run(c, w, seq(|bodies|, _ => Deliver));
            var trimmed := v.(q := v.q.(stream := Numbers(bodies)[k..]));
            && Inv(c, w) && w.q.pel == map[] && v.q.stream == Numbers(bodies)
            && Threshold(None, v.q.delivered) == Some(|bodies|)
            && (forall e :: e in Numbers(bodies)[..k] ==> e.id < |bodies|)
            && c.Id(bodies[j]).value in trimmed.admitted && !Accounted(c, trimmed, c.Id(bodies[j]).value)
  {
    var w := Waiting(c, bodies);
    WaitingIsSound(c, bodies);
    DeliverMany(c, w, bodies, |bodies|);
    var v := Run(c, w, seq(|bodies|, _ => Deliver));
    NotInSuffix(c, bodies, k, j);
  }

  lemma NotInSuffix(c: TaskCodec, bodies: seq<Bytes>, k: nat, j: nat)
    requires Different(c, bodies) && j < k <= |bodies|
    ensures forall e :: e in Numbers(bodies)[k..] ==> c.Id(e.body) != c.Id(bodies[j])
  {
    forall e | e in Numbers(bodies)[k..] ensures c.Id(e.body) != c.Id(bodies[j]) {
      var i :| 0 <= i < |bodies| - k && Numbers(bodies)[k..][i] == e;
      assert e.body == bodies[k + i];
    }
  }

  // ---- removal of idle consumers ------------------------------------------------------------

  /** XGROUP DELCONSUMER: what the consumer had pending is pending no more. */
  function Dismissed(w: World, ids: set<nat>): World { w.(q := w.q.(pel := w.q.pel - ids)) }

  /** Removing a consumer keeps every message it had pending reclaimable, and so the whole invariant, if
      and only if none of them is still owed a run. */
  lemma DelConsumerSafeIff(c: TaskCodec, w: World, ids: set<nat>)
    requires Inv(c, w)
    ensures Inv(c, Dismissed(w, ids)) <==> forall p :: p in ids ==> !OwedAt(c, w, p)
  {
    var v := Dismissed(w, ids);
    if forall p :: p in ids ==> !OwedAt(c, w, p) {
      DelConsumerKeepsInv(c, w, ids);
    } else {
      var p :| p in ids && OwedAt(c, w, p);
      var e :| Owed(c, w, e) && e.id == p;
      assert !Reclaimable(c, v);
    }
  }

  /** The janitor removes a consumer that had nothing pending when it looked. A message delivered to it
      between the look and the removal is then never run: it is neither undelivered nor pending. */
  lemma DeliveryBeforeRemovalIsLost(c: TaskCodec, w: World, e: Entry)
    requires Inv(c, w) && FirstUndelivered(w.q.stream, w.q.delivered) == Some(e) && c.Id(e.body).Some?
    requires forall d :: d in w.q.stream && c.Id(d.body) == c.Id(e.body) ==> d == e
    ensures Runnable(c, w, c.Id(e.body).value)
    ensures !Runnable(c, Dismissed(Next(c, w, Deliver), {e.id}), c.Id(e.body).value)
  {
  }

  // ---- the age purge of the dead letters -------------------------------------------------

  const PURGE_BATCH: nat := 100

  /** ZRANGEBYSCORE -inf hi. */
  function UpTo(z: ZSet, hi: int): (r: ZSet)
    ensures forall x :: x in r <==> x in z && x.score <= hi
    ensures |r| <= |z|
  {
    if z == [] then [] else if z[0].score <= hi then [z[0]] + UpTo(z[1..], hi) else UpTo(z[1..], hi)
  }

  lemma {:induction false} NothingUpTo(z: ZSet, hi: int)
    requires forall x :: x in z ==> x.score > hi
    ensures UpTo(z, hi) == []
  {
    SomeItem(UpTo(z, hi));
  }

  /** The old dead letters are a prefix. */
  lemma {:induction false} UpToIsPrefix(z: ZSet, hi: int)
    requires Valid(z)
    ensures UpTo(z, hi) == z[..|UpTo(z, hi)|]
    ensures forall x :: x in z[|UpTo(z, hi)|..] ==> x.score > hi
  {
    if z != [] {
      assert z == [z[0]] + z[1..];
      ValidCons(z[0], z[1..]);
      if z[0].score <= hi {
        UpToIsPrefix(z[1..], hi);
        var n := |UpTo(z[1..], hi)|;
        assert z[n + 1..] == z[1..][n..] && z[..n + 1] == [z[0]] + z[1..][..n];
      } else {
        NothingUpTo(z, hi);
        assert z[0..] == z;
      }
    }
  }

  /** Removing the k oldest dead letters leaves the same index as removing k and then n more. */
  lemma CutTwice(z: ZSet, k: nat, n: nat)
    requires k + n <= |z|
    ensures z[k..][n..] == z[k + n..] && Members(z[..k + n]) == Members(z[..k]) + Members(z[k..][..n])
  {
    assert z[..k + n] == z[..k] + z[k..][..n];
    MembersConcat(z[..k], z[k..][..n]);
  }

  /** The index entries left once the k oldest dead letters are gone. */
  function Left(index: map<Bytes, Bytes>, z: ZSet, k: nat): map<Bytes, Bytes>
    requires k <= |z|
  {
    index - Members(z[..k])
  }

  lemma SubtractTwice(index: map<Bytes, Bytes>, a: set<Bytes>, b: set<Bytes>)
    ensures index - a - b == index - (a + b)
  {
  }

  lemma LeftTwice(index: map<Bytes, Bytes>, z: ZSet, k: nat, n: nat)
    requires k + n <= |z|
    ensures Left(Left(index, z, k), z[k..], n) == Left(index, z, k + n)
  {
    CutTwice(z, k, n);
    SubtractTwice(index, Members(z[..k]), Members(z[k..][..n]));
  }

  lemma PurgeOneMore(z: ZSet, index: map<Bytes, Bytes>, i: nat)
    requires Valid(z) && i < |z|
    ensures Remove(z[i..], z[i].member) == z[i + 1..] && Left(index, z, i) - {z[i].member} == Left(index, z, i + 1)
  {
    SplitAt(z, i);
    RemoveHead(z[i..]);
    LeftTwice(index, z, i, 1);
    HeadMembers(z[i..], 1);
    assert z[i..][1..] == z[i + 1..] && z[i + 1..][..0] == [];
    assert Members(z[i..][..1]) == {z[i].member};
  }

  /** One pipeline: ZREM and HDEL of each of the n oldest. */
  method PurgeBatch(q: RedisQueue, ids: ZSet)
    requires Valid(q.dlq) && |ids| <= |q.dlq| && ids == q.dlq[..|ids|]
    modifies q`dlq, q`index
    ensures q.dlq == old(q.dlq)[|ids|..] && q.index == Left(old(q.index), old(q.dlq), |ids|)
  {
    ghost var z, index := q.dlq, q.index;
    assert index - Members([]) == index && z[..0] == [];
    for i := 0 to |ids|
      invariant q.dlq == z[i..] && q.index == Left(index, z, i)
    {
      PurgeOneMore(z, index, i);
      assert ids[i] == z[i];
      q.dlq := Remove(q.dlq, ids[i].member);
      q.index := q.index - {ids[i].member};
    }
  }

  lemma DropDrop(z: ZSet, k: nat)
    requires 0 < k <= |z|
    ensures z[1..][k - 1..] == z[k..]
  {
  }

  lemma {:induction false} UpToSuffix(z: ZSet, k: nat, hi: int)
    requires k <= |z| && forall i :: 0 <= i < k ==> z[i].score <= hi
    ensures |UpTo(z[k..], hi)| == |UpTo(z, hi)| - k
    decreases k
  {
    if k == 0 {
      assert z[0..] == z;
    } else {
      DropDrop(z, k);
      UpToSuffix(z[1..], k - 1, hi);
    }
  }

  lemma OldOnes(z: ZSet, hi: int)
    requires Valid(z)
    ensures forall i :: 0 <= i < |UpTo(z, hi)| ==> z[i].score <= hi
  {
    UpToIsPrefix(z, hi);
    forall i | 0 <= i < |UpTo(z, hi)| ensures z[i].score <= hi { assert UpTo(z, hi)[i] in UpTo(z, hi); }
  }

  function Batch(z: ZSet, cutoff: int): ZSet { UpTo(z, cutoff)[..Min(PURGE_BATCH, |UpTo(z, cutoff)|)] }

  lemma BatchIsPrefix(z: ZSet, cutoff: int)
    requires Valid(z)
    ensures |Batch(z, cutoff)| <= |z| && Batch(z, cutoff) == z[..|Batch(z, cutoff)|]
  {
    UpToIsPrefix(z, cutoff);
  }

  /** What one more batch does after the `total` oldest are gone. */
  lemma PurgeRound(z: ZSet, total: nat, cutoff: int)
    requires Valid(z) && total <= |UpTo(z, cutoff)|
    ensures var n := |Batch(z[total..], cutoff)|;
            && Valid(z[total..]) && total + n <= |UpTo(z, cutoff)|
            && (n < PURGE_BATCH ==> total + n == |UpTo(z, cutoff)|)
  {
    SplitAt(z, total);
    OldOnes(z, cutoff);
    UpToSuffix(z, total, cutoff);
  }

  /** One round: read a batch of old dead letters, then delete it. */
  method PurgeOnce(q: RedisQueue, cutoff: int) returns (n: nat)
    requires Valid(q.dlq)
    modifies q`dlq, q`index
    ensures n == |Batch(old(q.dlq), cutoff)| <= |old(q.dlq)|
    ensures q.dlq == old(q.dlq)[n..] && q.index == Left(old(q.index), old(q.dlq), n)
  {
    BatchIsPrefix(q.dlq, cutoff);
    var ids := Batch(q.dlq, cutoff);
    PurgeBatch(q, ids);
    n := |ids|;
  }

  /** purgeDLQByAge; `fails(i)` says whether a round trip of round i errors. On success exactly the dead
      letters no newer than the cutoff are gone, from the ZSET and from the index; after an error some
      number of the oldest are; the count returned is always the number removed. */
  method PurgeDLQByAge(q: RedisQueue, cutoff: int, fails: nat -> bool) returns (total: nat, ok: bool)
    requires Valid(q.dlq)
    modifies q`dlq, q`index
    ensures total <= |UpTo(old(q.dlq), cutoff)| && (ok ==> total == |UpTo(old(q.dlq), cutoff)|)
    ensures q.dlq == old(q.dlq)[total..] && q.index == Left(old(q.index), old(q.dlq), total)
  {
    ghost var z, index := q.dlq, q.index;
    total, ok := 0, false;
    var round: nat := 0;
    while true
      invariant total <= |UpTo(z, cutoff)|
      invariant q.dlq == z[total..] && q.index == Left(index, z, total)
      decreases |z| - total
    {
      if fails(round) { return; }
      PurgeRound(z, total, cutoff);
      var n := PurgeOnce(q, cutoff);
      LeftTwice(index, z, total, n);
      CutTwice(z, total, n);
      total := total + n;
      if n < PURGE_BATCH { ok := true; return; }
      round := round + 1;
    }
  }

  /** The commands of the pipeline, one ID after another. */
  function PurgeSteps(ids: ZSet): seq<Step> {
    if ids == [] then [] else [PurgeZrem(ids[0].member), PurgeHdel(ids[0].member)] + PurgeSteps(ids[1..])
  }

  /** The n oldest dead letters gone, and recorded as dropped. */
  function Purged(w: World, n: nat): World
    requires n <= |w.q.dlq|
  {
    w.(q := w.q.(dlq := w.q.dlq[n..], index := Left(w.q.index, w.q.dlq, n)),
       dropped := w.dropped + Members(w.q.dlq[..n]))
  }

  lemma PurgedTwice(w: World, n: nat)
    requires 0 < n <= |w.q.dlq|
    ensures Purged(Purged(w, 1), n - 1) == Purged(w, n)
  {
    var z := w.q.dlq;
    HeadMembers(z, n);
    HeadMembers(z, 1);
    assert z[1..][..0] == [] && z[1..][n - 1..] == z[n..];
    SubtractTwice(w.q.index, Members(z[..1]), Members(z[1..][..n - 1]));
    assert w.dropped + Members(z[..1]) + Members(z[1..][..n - 1]) == w.dropped + Members(z[..n]);
  }

  lemma PurgeOneUndisturbed(c: TaskCodec, w: World)
    requires Valid(w.q.dlq) && w.q.dlq != []
    ensures var x := w.q.dlq[0].member; Next(c, Next(c, w, PurgeZrem(x)), PurgeHdel(x)) == Purged(w, 1)
  {
    var z := w.q.dlq;
    RemoveHead(z);
    HeadMembers(z, 1);
    assert z[0] in z && z[1..][..0] == [];
    assert Members(z) * {z[0].member} == {z[0].member} == Members(z[..1]);
  }

  lemma RunTwo(c: TaskCodec, w: World, a: Step, b: Step, rest: seq<Step>)
    ensures Run(c, w, [a, b] + rest) == Run(c, Next(c, Next(c, w, a), b), rest)
  {
    var steps := [a, b] + rest;
    assert steps[1..] == [b] + rest && ([b] + rest)[1..] == rest;
    assert Run(c, Next(c, w, a), [b] + rest) == Run(c, Next(c, Next(c, w, a), b), rest);
  }

  lemma PurgeStepsHead(z: ZSet, n: nat)
    requires 0 < n <= |z|
    ensures PurgeSteps(z[..n]) == [PurgeZrem(z[0].member), PurgeHdel(z[0].member)] + PurgeSteps(z[1..][..n - 1])
  {
    assert z[..n][0] == z[0] && z[..n][1..] == z[1..][..n - 1];
  }

  lemma {:induction false} PurgeRunRemoves(c: TaskCodec, w: World, n: nat)
    requires Valid(w.q.dlq) && n <= |w.q.dlq|
    ensures Run(c, w, PurgeSteps(w.q.dlq[..n])) == Purged(w, n)
    decreases n
  {
    var z := w.q.dlq;
    if n == 0 {
      assert z[0..] == z && w.q.index - Members([]) == w.q.index && w.dropped + Members([]) == w.dropped;
    } else {
      PurgeOneUndisturbed(c, w);
      PurgeStepsHead(z, n);
      RunTwo(c, w, PurgeZrem(z[0].member), PurgeHdel(z[0].member), PurgeSteps(z[1..][..n - 1]));
      assert Valid(z[1..]) by { RemoveHead(z); }
      PurgeRunRemoves(c, Purged(w, 1), n - 1);
      PurgedTwice(w, n);
    }
  }

  lemma HeadMembers(z: ZSet, n: nat)
    requires 0 < n <= |z|
    ensures Members(z[..n]) == {z[0].member} + Members(z[1..][..n - 1])
  {
    assert z[..n] == [z[0]] + z[1..][..n - 1];
    MembersConcat([z[0]], z[1..][..n - 1]);
    assert Members([z[0]]) == {z[0].member};
  }

  /** Undisturbed, the purge as a whole is this run of the protocol: exactly the dead letters up to the
      cutoff leave, recorded as dropped, and the index agrees again. */
  lemma PurgeIsProtocolRun(c: TaskCodec, w: World, cutoff: int)
    requires Valid(w.q.dlq)
    ensures var n := |UpTo(w.q.dlq, cutoff)|;
            var v := Run(c, w, PurgeSteps(UpTo(w.q.dlq, cutoff)));
            && v.q == w.q.(dlq := w.q.dlq[n..], index := Left(w.q.index, w.q.dlq, n))
            && v.dropped == w.dropped + Members(w.q.dlq[..n])
            && (IndexAgrees(w.q) ==> IndexAgrees(v.q))
            && forall x :: x in v.q.dlq <==> x in w.q.dlq && x.score > cutoff
  {
    PurgeRunRemoves(c, w, |UpTo(w.q.dlq, cutoff)|);
    var n := |UpTo(w.q.dlq, cutoff)|;
    UpToIsPrefix(w.q.dlq, cutoff);
    SplitAt(w.q.dlq, n);
    if IndexAgrees(w.q) { CutKeepsIndex(w.q.dlq, n, w.q.index); }
  }
}
