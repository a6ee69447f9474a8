/** The order in which a worker polls several queues: weighted shuffle, or strict priority. */
module QueueOrder {
  import opened Bytes

  datatype QueuePriority = QueuePriority(name: Bytes, weight: int)
  type Queues = seq<QueuePriority>

  /** A weight below one counts as one. */
  function Weight(q: QueuePriority): (w: nat)
    ensures w >= 1 && (q.weight >= 1 ==> w == q.weight)
  {
    if q.weight <= 0 then 1 else q.weight
  }

  function Total(queues: Queues): nat {
    if queues == [] then 0 else Total(queues[..|queues| - 1]) + Weight(queues[|queues| - 1])
  }

  function Names(queues: Queues): seq<Bytes> { seq(|queues|, i requires 0 <= i < |queues| => queues[i].name) }

  function Without(queues: Queues, i: nat): Queues
    requires i < |queues|
  {
    queues[..i] + queues[i + 1..]
  }

  lemma {:induction false} TotalMonotone(queues: Queues, i: nat, j: nat)
    requires i < j <= |queues|
    ensures Total(queues[..i]) + Weight(queues[i]) <= Total(queues[..j])
    decreases j
  {
    assert queues[..j][..j - 1] == queues[..j - 1];
    if i < j - 1 { TotalMonotone(queues, i, j - 1); }
  }

  /** The draws that select queue i. */
  predicate Selects(queues: Queues, r: nat, i: nat)
    requires i < |queues|
  {
    Total(queues[..i]) <= r < Total(queues[..i]) + Weight(queues[i])
  }

  lemma SelectsOne(queues: Queues, r: nat, i: nat, j: nat)
    requires i < |queues| && j < |queues| && Selects(queues, r, i) && Selects(queues, r, j)
    ensures i == j
  {
    if i < j { TotalMonotone(queues, i, j); }
    if j < i { TotalMonotone(queues, j, i); }
  }

  lemma {:induction false} SomeSelected(queues: Queues, r: nat, n: nat) returns (i: nat)
    requires n <= |queues| && r < Total(queues[..n])
    ensures i < n && Selects(queues, r, i)
  {
    assert n > 0;
    assert queues[..n][..n - 1] == queues[..n - 1];
    if r < Total(queues[..n - 1]) { i := SomeSelected(queues, r, n - 1); } else { i := n - 1; }
  }

  function Interval(lo: nat, n: nat): (r: set<nat>)
    ensures |r| == n && forall x: nat :: x in r <==> lo <= x < lo + n
  {
    if n == 0 then {} else Interval(lo, n - 1) + {lo + n - 1}
  }

  /** The draws of one round that select queue i. */
  function DrawsFor(queues: Queues, i: nat): set<nat>
    requires i < |queues|
  {
    Interval(Total(queues[..i]), Weight(queues[i]))
  }

  /** Each round is fair: exactly weight-many of the possible draws select a given queue, and every
      possible draw selects exactly one. */
  lemma RoundIsFair(queues: Queues, i: nat, r: nat)
    requires i < |queues| && r < Total(queues)
    ensures |DrawsFor(queues, i)| == Weight(queues[i]) && forall x :: x in DrawsFor(queues, i) ==> x < Total(queues)
    ensures exists k :: 0 <= k < |queues| && r in DrawsFor(queues, k)
    ensures forall k, l :: 0 <= k < |queues| && 0 <= l < |queues| ==>
              r in DrawsFor(queues, k) && r in DrawsFor(queues, l) ==> k == l
  {
    TotalMonotone(queues, i, |queues|);
    assert queues[..|queues|] == queues;
    var j := SomeSelected(queues, r, |queues|);
    assert r in DrawsFor(queues, j);
    forall k, l | 0 <= k < |queues| && 0 <= l < |queues| && r in DrawsFor(queues, k) && r in DrawsFor(queues, l)
        ensures k == l {
      SelectsOne(queues, r, k, l);
    }
  }

  // ---- the shuffle as a function of its draws ---------------------------------------

  /** A whole shuffle: each round's draw below the remaining total weight, and the index it selects
      among the queues still left. */
  ghost predicate Shuffles(queues: Queues, draws: seq<nat>, picks: seq<nat>)
    decreases |queues|
  {
    if queues == [] then draws == [] && picks == []
    else
      && draws != [] && picks != [] && draws[0] < Total(queues)
      && picks[0] < |queues| && Selects(queues, draws[0], picks[0])
      && Shuffles(Without(queues, picks[0]), draws[1..], picks[1..])
  }

  /** The names in the order picked. */
  function Picked(queues: Queues, picks: seq<nat>): seq<Bytes> {
    if picks == [] || picks[0] >= |queues| then []
        else [queues[picks[0]].name] + Picked(Without(queues, picks[0]), picks[1..])
  }

  predicate ValidPicks(queues: Queues, picks: seq<nat>)
    decreases |queues|
  {
    if queues == [] then picks == []
    else picks != [] && picks[0] < |queues| && ValidPicks(Without(queues, picks[0]), picks[1..])
  }

  /** The product of the weights of the queues picked; over a whole shuffle, of all of them. */
  function WeightProduct(queues: Queues, picks: seq<nat>): nat {
    if picks == [] || picks[0] >= |queues| then 1
    else Weight(queues[picks[0]]) * WeightProduct(Without(queues, picks[0]), picks[1..])
  }

  /** All draw sequences that lead to these picks. */
  function Ways(queues: Queues, picks: seq<nat>): set<seq<nat>>
    requires ValidPicks(queues, picks)
    decreases |queues|
  {
    if queues == [] then {[]}
    else Pairs(Total(queues[..picks[0]]), Weight(queues[picks[0]]), Ways(Without(queues, picks[0]), picks[1..]))
  }

  /** Every r in lo..lo+n-1 before every tail. */
  function Pairs(lo: nat, n: nat, tails: set<seq<nat>>): set<seq<nat>> {
    if n == 0 then {} else Pairs(lo, n - 1, tails) + Prefixed(lo + n - 1, tails)
  }

  function Prefixed(r: nat, tails: set<seq<nat>>): set<seq<nat>> { set t | t in tails :: [r] + t }

  lemma {:induction false} PrefixedSize(r: nat, tails: set<seq<nat>>)
    ensures |Prefixed(r, tails)| == |tails|
    decreases |tails|
  {
    if tails != {} {
      var t :| t in tails;
      PrefixedSize(r, tails - {t});
      PrefixedLess(r, tails, t);
    }
  }

  lemma PrefixedLess(r: nat, tails: set<seq<nat>>, t: seq<nat>)
    requires t in tails
    ensures Prefixed(r, tails) == Prefixed(r, tails - {t}) + {[r] + t} && [r] + t !in Prefixed(r, tails - {t})
  {
    forall u | u in tails - {t} ensures [r] + u != [r] + t {
      assert ([r] + u)[1..] == u && ([r] + t)[1..] == t;
    }
    forall s | s in Prefixed(r, tails) ensures s in Prefixed(r, tails - {t}) + {[r] + t} {
      var u :| u in tails && s == [r] + u;
      if u != t { assert u in tails - {t}; }
    }
  }

  lemma {:induction false} PairsAre(lo: nat, n: nat, tails: set<seq<nat>>, s: seq<nat>)
    ensures s in Pairs(lo, n, tails) <==> s != [] && lo <= s[0] < lo + n && s[1..] in tails
  {
    if n > 0 {
      PairsAre(lo, n - 1, tails, s);
      PrefixedAre(lo + n - 1, tails, s);
    }
  }

  lemma PrefixedAre(r: nat, tails: set<seq<nat>>, s: seq<nat>)
    ensures s in Prefixed(r, tails) <==> s != [] && s[0] == r && s[1..] in tails
  {
    if s != [] && s[0] == r && s[1..] in tails { assert s == [r] + s[1..]; }
    if s in Prefixed(r, tails) {
      var t :| t in tails && s == [r] + t;
      assert s[1..] == t;
    }
  }

  lemma PairsApart(lo: nat, n: nat, tails: set<seq<nat>>)
    ensures Pairs(lo, n, tails) !! Prefixed(lo + n, tails)
  {
    forall s: seq<nat> | s in Pairs(lo, n, tails) ensures s !in Prefixed(lo + n, tails) {
      PairsAre(lo, n, tails, s);
      PrefixedAre(lo + n, tails, s);
    }
  }

  /** n * m, by addition. */
  function Repeat(n: nat, m: nat): nat { if n == 0 then 0 else Repeat(n - 1, m) + m }

  lemma {:induction false} RepeatIsProduct(n: nat, m: nat)
    ensures Repeat(n, m) == n * m
  {
    if n > 0 {
      RepeatIsProduct(n - 1, m);
      assert n * m == (n - 1) * m + m;
    }
  }

  lemma UnionSize<X>(a: set<X>, b: set<X>)
    requires a !! b
    ensures |a + b| == |a| + |b|
  {
  }

  lemma PairsGrow(lo: nat, n: nat, tails: set<seq<nat>>)
    ensures |Pairs(lo, n + 1, tails)| == |Pairs(lo, n, tails)| + |tails|
  {
    PrefixedSize(lo + n, tails);
    PairsApart(lo, n, tails);
    UnionSize(Pairs(lo, n, tails), Prefixed(lo + n, tails));
  }

  lemma {:induction false} PairsSize(lo: nat, n: nat, tails: set<seq<nat>>)
    ensures |Pairs(lo, n, tails)| == Repeat(n, |tails|)
  {
    if n > 0 {
      PairsSize(lo, n - 1, tails);
      PairsGrow(lo, n - 1, tails);
    }
  }

  /** Over a whole shuffle exactly product-of-the-weights many draw sequences lead to each order. They
      are not equally likely: each draw is one of as many as the remaining total weight. */
  lemma {:induction false} ShuffleIsFair(queues: Queues, picks: seq<nat>)
    requires ValidPicks(queues, picks)
    ensures forall draws :: draws in Ways(queues, picks) <==> Shuffles(queues, draws, picks)
    ensures |Ways(queues, picks)| == WeightProduct(queues, picks)
    decreases |queues|
  {
    if queues != [] {
      var i := picks[0];
      var rest := Without(queues, i);
      ShuffleIsFair(rest, picks[1..]);
      PairsSize(Total(queues[..i]), Weight(queues[i]), Ways(rest, picks[1..]));
      RepeatIsProduct(Weight(queues[i]), WeightProduct(rest, picks[1..]));
      TotalMonotone(queues, i, |queues|);
      assert queues[..|queues|] == queues;
      forall draws ensures draws in Ways(queues, picks) <==> Shuffles(queues, draws, picks) {
        PairsAre(Total(queues[..i]), Weight(queues[i]), Ways(rest, picks[1..]), draws);
      }
    }
  }

  /** The draws determine the order. */
  lemma {:induction false} DrawsDeterminePicks(queues: Queues, draws: seq<nat>, picks: seq<nat>, other: seq<nat>)
    requires Shuffles(queues, draws, picks) && Shuffles(queues, draws, other)
    ensures picks == other
    decreases |queues|
  {
    if queues != [] {
      SelectsOne(queues, draws[0], picks[0], other[0]);
      DrawsDeterminePicks(Without(queues, picks[0]), draws[1..], picks[1..], other[1..]);
      assert picks == [picks[0]] + picks[1..] && other == [other[0]] + other[1..];
    }
  }

  // ---- shuffleQueues ---------------------------------------------------------------------

  method TotalWeight(temp: Queues) returns (totalWeight: nat)
    ensures totalWeight == Total(temp)
  {
    totalWeight := 0;
    for i := 0 to |temp|
      invariant totalWeight == Total(temp[..i])
    {
      assert temp[..i + 1][..i] == temp[..i];
      var wt := if temp[i].weight <= 0 then 1 else temp[i].weight;
      totalWeight := totalWeight + wt;
    }
    assert temp[..|temp|] == temp;
  }

  /** The search for the drawn queue always finds it. */
  method Locate(temp: Queues, r: nat) returns (idx: int)
    requires r < Total(temp)
    ensures 0 <= idx < |temp| && Selects(temp, r, idx)
  {
    idx := -1;
    var currentSum := 0;
    assert temp[..|temp|] == temp;
    for i := 0 to |temp|
      invariant idx == -1 && currentSum == Total(temp[..i]) <= r
    {
      assert temp[..i + 1][..i] == temp[..i];
      var wt := if temp[i].weight <= 0 then 1 else temp[i].weight;
      currentSum := currentSum + wt;
      if r < currentSum { return i; }
    }
    assert false;
  }

  /** The draws and picks so far, and the queues they leave. */
  ghost predicate Reaches(queues: Queues, draws: seq<nat>, picks: seq<nat>, temp: Queues)
    decreases draws
  {
    if draws == [] then picks == [] && temp == queues
    else
      && picks != [] && draws[0] < Total(queues)
      && picks[0] < |queues| && Selects(queues, draws[0], picks[0])
      && Reaches(Without(queues, picks[0]), draws[1..], picks[1..], temp)
  }

  lemma {:induction false} ReachesEnd(queues: Queues, draws: seq<nat>, picks: seq<nat>)
    requires Reaches(queues, draws, picks, [])
    ensures Shuffles(queues, draws, picks)
    decreases draws
  {
    if draws != [] { ReachesEnd(Without(queues, picks[0]), draws[1..], picks[1..]); }
  }

  lemma ReachesOne(temp: Queues, r: nat, i: nat)
    requires r < Total(temp) && i < |temp| && Selects(temp, r, i)
    ensures Reaches(temp, [r], [i], Without(temp, i)) && Picked(temp, [i]) == [temp[i].name]
  {
    assert [r][1..] == [] && [i][1..] == [];
  }

  lemma TailSnoc(s: seq<nat>, x: nat)
    requires s != []
    ensures (s + [x])[0] == s[0] && (s + [x])[1..] == s[1..] + [x]
  {
  }

  lemma {:induction false} ReachesSnoc(queues: Queues, draws: seq<nat>, picks: seq<nat>, temp: Queues, r: nat, i: nat)
    requires Reaches(queues, draws, picks, temp) && r < Total(temp) && i < |temp| && Selects(temp, r, i)
    ensures Reaches(queues, draws + [r], picks + [i], Without(temp, i))
    ensures Picked(queues, picks + [i]) == Picked(queues, picks) + [temp[i].name]
    decreases draws
  {
    if draws == [] {
      assert draws + [r] == [r] && picks + [i] == [i];
      ReachesOne(temp, r, i);
    } else {
      var rest := Without(queues, picks[0]);
      TailSnoc(draws, r);
      TailSnoc(picks, i);
      ReachesSnoc(rest, draws[1..], picks[1..], temp, r, i);
      ConcatAssoc([queues[picks[0]].name], Picked(rest, picks[1..]), [temp[i].name]);
    }
  }

  lemma NamesWithout(temp: Queues, i: nat)
    requires i < |temp|
    ensures multiset(Names(temp)) == multiset(Names(Without(temp, i))) + multiset{temp[i].name}
  {
    assert Names(temp) == Names(temp[..i]) + [temp[i].name] + Names(temp[i + 1..]);
    assert Names(Without(temp, i)) == Names(temp[..i]) + Names(temp[i + 1..]);
  }

  /** shuffleQueues with its draws recorded: for all draws the result is a permutation of the names, the
      one the draws select. Neither fallback branch (a zero total, no queue found) can be reached. */
  method ShuffleQueues(queues: Queues) returns (result: seq<Bytes>, ghost draws: seq<nat>, ghost picks: seq<nat>)
    ensures Shuffles(queues, draws, picks) && result == Picked(queues, picks)
    ensures multiset(result) == multiset(Names(queues))
  {
    var temp := queues;
    result, draws, picks := [], [], [];
    while |temp| > 0
      invariant Reaches(queues, draws, picks, temp) && result == Picked(queues, picks)
      invariant multiset(result) + multiset(Names(temp)) == multiset(Names(queues))
      decreases |temp|
    {
      var totalWeight := TotalWeight(temp);
      if totalWeight == 0 { assert false; }
      var r: nat :| r < totalWeight;
      var idx := Locate(temp, r);
      ReachesSnoc(queues, draws, picks, temp, r, idx);
      NamesWithout(temp, idx);
      result := result + [temp[idx].name];
      draws, picks := draws + [r], picks + [idx];
      temp := temp[..idx] + temp[idx + 1..];
    }
    ReachesEnd(queues, draws, picks);
  }

  // ---- sortQueues --------------------------------------------------------------------------

  predicate Descending(queues: Queues) { forall i, j :: 0 <= i < j < |queues| ==> queues[i].weight >= queues[j].weight }

  lemma HeadFirst(q: QueuePriority, t: Queues)
    requires Descending(t) && forall x :: x in t ==> q.weight >= x.weight
    ensures Descending([q] + t)
  {
  }

  /** Insertion by descending weight, before the first one that is no heavier. */
  function InsertByWeight(queues: Queues, q: QueuePriority): Queues {
    if queues == [] || q.weight >= queues[0].weight then [q] + queues
    else [queues[0]] + InsertByWeight(queues[1..], q)
  }

  lemma {:induction false} InsertSorts(queues: Queues, q: QueuePriority)
    requires Descending(queues)
    ensures var r := InsertByWeight(queues, q);
            && Descending(r) && multiset(r) == multiset(queues) + multiset{q}
            && forall x :: x in r ==> x == q || x in queues
  {
    if queues == [] || q.weight >= queues[0].weight {
      HeadFirst(q, queues);
    } else {
      assert queues == [queues[0]] + queues[1..];
      InsertSorts(queues[1..], q);
      var t := InsertByWeight(queues[1..], q);
      forall x | x in t ensures queues[0].weight >= x.weight {
        if x in queues[1..] {
          var k :| 0 <= k < |queues| - 1 && queues[1..][k] == x;
          assert queues[k + 1] == x;
        }
      }
      HeadFirst(queues[0], t);
    }
  }

  /** The library sort, as the insertion sort it uses on short slices. */
  method SortByWeight(queues: Queues) returns (temp: Queues)
    ensures Descending(temp) && multiset(temp) == multiset(queues)
  {
    temp := [];
    for i := 0 to |queues|
      invariant Descending(temp) && multiset(temp) == multiset(queues[..i])
    {
      InsertSorts(temp, queues[i]);
      assert queues[..i + 1] == queues[..i] + [queues[i]];
      temp := InsertByWeight(temp, queues[i]);
    }
    assert queues[..|queues|] == queues;
  }

  /** The names by descending weight, queues of equal weight in either order. */
  method SortQueues(queues: Queues) returns (result: seq<Bytes>)
    ensures exists temp :: Descending(temp) && multiset(temp) == multiset(queues) && result == Names(temp)
  {
    var sorted := SortByWeight(queues);
    result := [];
    for i := 0 to |sorted|
      invariant result == Names(sorted[..i])
    {
      result := result + [sorted[i].name];
    }
    assert sorted[..|sorted|] == sorted;
  }
}
