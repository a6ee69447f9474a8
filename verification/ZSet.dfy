/** Redis sorted sets: items kept in (score, member) order, members unique. */
module ZSets {
  import opened Bytes

  datatype Item = Item(score: int, member: Bytes)
  type ZSet = seq<Item>

  predicate Before(x: Item, y: Item) {
    x.score < y.score || (x.score == y.score && Less(x.member, y.member))
  }

  lemma BeforeTransitive(x: Item, y: Item, z: Item)
    requires Before(x, y) && Before(y, z)
    ensures Before(x, z)
  {
    if x.score == y.score == z.score { LessTransitive(x.member, y.member, z.member); }
  }

  lemma BeforeTotal(x: Item, y: Item)
    ensures Before(x, y) || Before(y, x) || x == y
  {
    LessTotal(x.member, y.member);
  }

  lemma BeforeAsymmetric(x: Item, y: Item)
    requires Before(x, y)
    ensures !Before(y, x)
  {
    if x.score == y.score && Less(y.member, x.member) {
      LessTransitive(x.member, y.member, x.member);
      LessIrreflexive(x.member);
    }
  }

  predicate Valid(z: ZSet) {
    forall i, j :: 0 <= i < j < |z| ==> Before(z[i], z[j]) && z[i].member != z[j].member
  }

  function Members(z: ZSet): set<Bytes> { set x | x in z :: x.member }

  predicate Precedes(h: Item, t: ZSet) {
    forall y :: y in t ==> Before(h, y) && h.member != y.member
  }

  lemma ValidCons(h: Item, t: ZSet)
    ensures Valid([h] + t) <==> Precedes(h, t) && Valid(t)
  {
    var z := [h] + t;
    if Valid(z) {
      forall y | y in t ensures Before(h, y) && h.member != y.member {
        var k :| 0 <= k < |t| && t[k] == y;
        assert z[k + 1] == y && z[0] == h;
      }
      forall i, j | 0 <= i < j < |t| ensures Before(t[i], t[j]) && t[i].member != t[j].member {
        assert z[i + 1] == t[i] && z[j + 1] == t[j];
      }
    }
    if Precedes(h, t) && Valid(t) {
      forall i, j | 0 <= i < j < |z| ensures Before(z[i], z[j]) && z[i].member != z[j].member {
        assert z[j] == t[j - 1] && t[j - 1] in t;
      }
    }
  }

  // ---- ZREM and ZADD ------------------------------------------------------

  function Remove(z: ZSet, m: Bytes): (r: ZSet)
    ensures forall x :: x in r <==> x in z && x.member != m
    ensures |r| <= |z|
  {
    if z == [] then []
    else if z[0].member == m then Remove(z[1..], m)
    else [z[0]] + Remove(z[1..], m)
  }

  function Insert(z: ZSet, x: Item): (r: ZSet)
    ensures forall y :: y in r <==> y in z || y == x
    ensures |r| == |z| + 1
  {
    if z == [] then [x]
    else if Before(x, z[0]) then [x] + z
    else [z[0]] + Insert(z[1..], x)
  }

  /** ZADD: a member already present moves to its new score. */
  function Add(z: ZSet, score: int, m: Bytes): (r: ZSet)
    ensures forall x :: x in r <==> (x in z && x.member != m) || x == Item(score, m)
  {
    Insert(Remove(z, m), Item(score, m))
  }

  lemma {:induction false} RemoveValid(z: ZSet, m: Bytes)
    requires Valid(z)
    ensures Valid(Remove(z, m))
  {
    if z != [] {
      assert z == [z[0]] + z[1..];
      ValidCons(z[0], z[1..]);
      RemoveValid(z[1..], m);
      ValidCons(z[0], Remove(z[1..], m));
    }
  }

  lemma {:induction false} RemoveSize(z: ZSet, m: Bytes)
    requires Valid(z)
    ensures |Remove(z, m)| == if m in Members(z) then |z| - 1 else |z|
  {
    if z != [] {
      assert z == [z[0]] + z[1..];
      ValidCons(z[0], z[1..]);
      RemoveSize(z[1..], m);
      assert Members(z) == {z[0].member} + Members(z[1..]);
      assert z[0].member !in Members(z[1..]);
    }
  }

  lemma MembersRemove(z: ZSet, m: Bytes)
    ensures Members(Remove(z, m)) == Members(z) - {m}
  {
    forall k | k in Members(z) - {m} ensures k in Members(Remove(z, m)) {
      var x :| x in z && x.member == k;
      assert x in Remove(z, m);
    }
  }

  lemma {:induction false} InsertValid(z: ZSet, x: Item)
    requires Valid(z) && x.member !in Members(z)
    ensures Valid(Insert(z, x))
  {
    if z != [] {
      assert z == [z[0]] + z[1..];
      assert z[0] in z;
      ValidCons(z[0], z[1..]);
      if Before(x, z[0]) {
        forall y | y in z ensures Before(x, y) && x.member != y.member {
          if y in z[1..] { BeforeTransitive(x, z[0], y); }
        }
        ValidCons(x, z);
      } else {
        BeforeTotal(x, z[0]);
        assert x.member !in Members(z[1..]) by { assert Members(z[1..]) <= Members(z); }
        InsertValid(z[1..], x);
        ValidCons(z[0], Insert(z[1..], x));
      }
    }
  }

  lemma AddValid(z: ZSet, score: int, m: Bytes)
    requires Valid(z)
    ensures Valid(Add(z, score, m))
    ensures Members(Add(z, score, m)) == Members(z) + {m}
    ensures |Add(z, score, m)| == if m in Members(z) then |z| else |z| + 1
  {
    RemoveValid(z, m);
    RemoveSize(z, m);
    InsertValid(Remove(z, m), Item(score, m));
    var r := Add(z, score, m);
    forall k | k in Members(z) + {m} ensures k in Members(r) {
      if k == m {
        assert Item(score, m) in r;
      } else {
        var x :| x in z && x.member == k;
        assert x in r;
      }
    }
  }

  lemma SomeItem(z: ZSet)
    ensures z == [] || exists x :: x in z
  {
    if z != [] { assert z[0] in z; }
  }

  /** The ordered form is canonical: the set of items determines it. */
  lemma {:induction false} Canonical(y: ZSet, z: ZSet)
    requires Valid(y) && Valid(z) && (forall x :: x in y <==> x in z)
    ensures y == z
  {
    if y == [] {
      SomeItem(z);
    } else {
      assert y[0] in z;
      var h, t, h', t' := y[0], y[1..], z[0], z[1..];
      assert y == [h] + t && z == [h'] + t';
      ValidCons(h, t);
      ValidCons(h', t');
      assert h' in y && h in z;
      if h != h' {
        assert h' in t && h in t';
        BeforeAsymmetric(h, h');
      }
      forall x ensures x in t <==> x in t' {
        assert x in y <==> x in z;
        if x == h { BeforeIrreflexive(h); }
      }
      Canonical(t, t');
    }
  }

  lemma BeforeIrreflexive(x: Item)
    ensures !Before(x, x)
  {
    LessIrreflexive(x.member);
  }

  lemma RemoveHead(z: ZSet)
    requires Valid(z) && z != []
    ensures Remove(z, z[0].member) == z[1..] && Valid(z[1..])
  {
    assert z == [z[0]] + z[1..];
    ValidCons(z[0], z[1..]);
    RemoveValid(z, z[0].member);
    Canonical(Remove(z, z[0].member), z[1..]);
  }

  // ---- ranks --------------------------------------------------------------

  /** Redis index normalisation for ZRANGE and ZREMRANGEBYRANK: negative ranks count from the end. */
  function FirstRank(n: nat, start: int): int { if start < 0 then (if n + start < 0 then 0 else n + start) else start }
  function LastRank(n: nat, stop: int): int { if stop < 0 then n + stop else if stop >= n then n - 1 else stop }

  function RangeByRank(z: ZSet, start: int, stop: int): ZSet {
    var lo, hi := FirstRank(|z|, start), LastRank(|z|, stop);
    if lo > hi || lo >= |z| then [] else z[lo..hi + 1]
  }

  function RemoveRangeByRank(z: ZSet, start: int, stop: int): ZSet {
    var lo, hi := FirstRank(|z|, start), LastRank(|z|, stop);
    if lo > hi || lo >= |z| then z else z[..lo] + z[hi + 1..]
  }

  /** ZREMRANGEBYRANK -toDrop -1 keeps the lowest-ranked items, ZREMRANGEBYRANK 0 -(max+1) the highest. */
  lemma RemoveByRankIsSlice(z: ZSet, keep: nat)
    ensures keep < |z| ==> RemoveRangeByRank(z, -(|z| - keep), -1) == z[..keep]
    ensures RemoveRangeByRank(z, 0, -(keep + 1)) == if |z| > keep then z[|z| - keep..] else z
    ensures RangeByRank(z, 0, -(keep + 1)) == if |z| > keep then z[..|z| - keep] else []
  {
    assert keep < |z| ==> z[..keep] + z[|z|..] == z[..keep];
    assert |z| > keep ==> z[..0] + z[|z| - keep..] == z[|z| - keep..];
  }

  lemma SplitOrder(z: ZSet, n: nat)
    requires Valid(z) && n <= |z|
    ensures forall x, y :: x in z[..n] && y in z[n..] ==> Before(x, y) && x.member != y.member
  {
    forall x, y | x in z[..n] && y in z[n..] ensures Before(x, y) && x.member != y.member {
      var i :| 0 <= i < n && z[..n][i] == x;
      var j :| 0 <= j < |z| - n && z[n..][j] == y;
      assert z[i] == x && z[n + j] == y;
    }
  }

  lemma MembersConcat(y: ZSet, z: ZSet)
    ensures Members(y + z) == Members(y) + Members(z)
  {
    forall m | m in Members(y + z) ensures m in Members(y) + Members(z) {
      var x :| x in y + z && x.member == m;
      assert x in y || x in z;
    }
  }

  /** Cutting a valid set by rank splits its members, and everything below the cut ranks first. */
  lemma SplitAt(z: ZSet, n: nat)
    requires Valid(z) && n <= |z|
    ensures Valid(z[..n]) && Valid(z[n..])
    ensures Members(z) == Members(z[..n]) + Members(z[n..]) && Members(z[..n]) !! Members(z[n..])
    ensures forall x :: x in z <==> x in z[..n] || x in z[n..]
    ensures forall x, y :: x in z[..n] && y in z[n..] ==> Before(x, y) && x.member != y.member
  {
    SplitOrder(z, n);
    assert z == z[..n] + z[n..];
    MembersConcat(z[..n], z[n..]);
  }

  lemma {:induction false} MembersSize(z: ZSet)
    requires Valid(z)
    ensures |Members(z)| == |z|
  {
    if z != [] {
      assert z == [z[0]] + z[1..];
      ValidCons(z[0], z[1..]);
      MembersSize(z[1..]);
      assert Members(z) == {z[0].member} + Members(z[1..]);
      assert z[0].member !in Members(z[1..]);
    }
  }

  lemma {:induction false} SubsetSize<X>(a: set<X>, b: set<X>)
    requires a <= b
    ensures |a| <= |b|
    decreases b
  {
    if a != {} {
      var x :| x in a;
      SubsetSize(a - {x}, b - {x});
    }
  }

  // ---- scores -------------------------------------------------------------

  /** ZRANGEBYSCORE lo hi, in rank order. */
  function ByScore(z: ZSet, lo: int, hi: int): (r: ZSet)
    ensures forall x :: x in r <==> x in z && lo <= x.score <= hi
    ensures |r| <= |z|
  {
    if z == [] then []
    else if lo <= z[0].score <= hi then [z[0]] + ByScore(z[1..], lo, hi)
    else ByScore(z[1..], lo, hi)
  }

  lemma {:induction false} ByScoreValid(z: ZSet, lo: int, hi: int)
    requires Valid(z)
    ensures Valid(ByScore(z, lo, hi))
  {
    if z != [] {
      assert z == [z[0]] + z[1..];
      ValidCons(z[0], z[1..]);
      ByScoreValid(z[1..], lo, hi);
      ValidCons(z[0], ByScore(z[1..], lo, hi));
    }
  }

  /** z without the members of `gone`, one ZREM at a time. */
  function RemoveEach(z: ZSet, gone: ZSet): (r: ZSet)
    ensures forall x :: x in r <==> x in z && forall y :: y in gone ==> y.member != x.member
    decreases gone
  {
    if gone == [] then z else RemoveEach(Remove(z, gone[0].member), gone[1..])
  }

  lemma {:induction false} RemoveEachValid(z: ZSet, gone: ZSet)
    requires Valid(z)
    ensures Valid(RemoveEach(z, gone))
    decreases gone
  {
    if gone != [] {
      RemoveValid(z, gone[0].member);
      RemoveEachValid(Remove(z, gone[0].member), gone[1..]);
    }
  }

  /** Two items of a valid set with the same member are the same item. */
  lemma SameMember(z: ZSet, x: Item, y: Item)
    requires Valid(z) && x in z && y in z && x.member == y.member
    ensures x == y
  {
    var i :| 0 <= i < |z| && z[i] == x;
    var j :| 0 <= j < |z| && z[j] == y;
  }

  lemma {:induction false} RemoveEachSnoc(z: ZSet, gone: ZSet, x: Item)
    ensures RemoveEach(z, gone + [x]) == Remove(RemoveEach(z, gone), x.member)
    decreases gone
  {
    if gone == [] {
      assert gone + [x] == [x] && [x][1..] == [];
    } else {
      assert (gone + [x])[1..] == gone[1..] + [x];
      RemoveEachSnoc(Remove(z, gone[0].member), gone[1..], x);
    }
  }
}
