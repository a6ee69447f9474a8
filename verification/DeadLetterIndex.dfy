/** The dead letters and their payload index over whole runs, with the age purge as it really runs: a
    read, and later, for each ID read, one ZREM and one HDEL of a plain pipeline. */
module DeadLetterIndex {
  import opened Bytes
  import opened ZSets
  import opened Codec
  import opened Broker
  import opened Protocol

  /** The step dead-letters this task. */
  predicate Buries(a: Step, x: Bytes) { a.Settle? && a.st.DeadLettered? && a.st.t.id == x }

  predicate IsPurge(a: Step) { a.PurgeZrem? || a.PurgeHdel? }

  /** The dead letters and their index agree on every ID but these, and no empty ID is indexed. */
  ghost predicate AgreesBut(s: State, but: set<Bytes>) {
    [] !in s.index && forall x :: x != [] && x !in but ==> (x in Members(s.dlq) <==> x in s.index)
  }

  lemma AgreesIsIndexAgrees(s: State)
    ensures AgreesBut(s, {}) <==> IndexAgrees(s)
  {
    assert IndexAgrees(s) ==> forall x :: x in Members(s.dlq) - {[]} <==> x in s.index.Keys;
    if AgreesBut(s, {}) { assert Members(s.dlq) - {[]} == s.index.Keys; }
  }

  lemma BuriedAgrees(w: World, now: int, x: Bytes, body: Bytes, max: int, but: set<Bytes>)
    requires Valid(w.q.dlq) && AgreesBut(w.q, but)
    ensures AgreesBut(Buried(w, now, x, body, max).q, but)
  {
    var z := Add(w.q.dlq, now, x);
    AddValid(w.q.dlq, now, x);
    SplitAt(z, Excess(z, max));
  }

  /** Every step but the halves of an age purge keeps agreement on whatever it was kept on. */
  lemma NextAgrees(c: TaskCodec, w: World, a: Step, but: set<Bytes>)
    requires Valid(w.q.dlq) && AgreesBut(w.q, but) && !IsPurge(a)
    ensures AgreesBut(Next(c, w, a).q, but)
  {
    match a
    case Settle(e, st, lim) =>
      if e in w.held && SettlementOf(c, e.body, st) { SettleAgrees(c, w, e, st, lim, but); }
    case _ =>
  }

  lemma SettleAgrees(c: TaskCodec, w: World, e: Entry, st: Settlement, lim: Limits, but: set<Bytes>)
    requires Valid(w.q.dlq) && AgreesBut(w.q, but)
    ensures AgreesBut(SettleHeld(c, w, e, st, lim).q, but)
  {
    if st.DeadLettered? { BuriedAgrees(w, st.now, st.t.id, c.encode(st.t), lim.dlqMax, but); }
  }

  /** The IDs whose purge a run takes a half of. */
  function PurgedIds(steps: seq<Step>): set<Bytes> {
    if steps == [] then {}
    else PurgedIds(steps[1..]) + match steps[0] case PurgeZrem(x) => {x} case PurgeHdel(x) => {x} case _ => {}
  }

  /** Over any run, with any number of age purges under way, the dead letters and their index agree on
      every ID that none of the purges touched. */
  lemma {:induction false} RunAgrees(c: TaskCodec, w: World, steps: seq<Step>, but: set<Bytes>)
    requires Inv(c, w) && Lawful(c) && AgreesBut(w.q, but)
    ensures AgreesBut(Run(c, w, steps).q, but + PurgedIds(steps))
    decreases steps
  {
    if steps == [] {
      assert but + {} == but;
    } else {
      var a := steps[0];
      var now := but + match a case PurgeZrem(x) => {x} case PurgeHdel(x) => {x} case _ => {};
      var v := Next(c, w, a);
      if IsPurge(a) {
        MembersRemove(w.q.dlq, if a.PurgeZrem? then a.x else []);
      } else {
        NextAgrees(c, w, a, but);
      }
      assert AgreesBut(v.q, now);
      NextKeepsInv(c, w, a);
      RunAgrees(c, v, steps[1..], now);
      assert now + PurgedIds(steps[1..]) == but + PurgedIds(steps);
    }
  }

  lemma {:induction false} NoPurgeNoIds(steps: seq<Step>)
    requires forall a :: a in steps ==> !IsPurge(a)
    ensures PurgedIds(steps) == {}
  {
    if steps != [] {
      assert !IsPurge(steps[0]);
      NoPurgeNoIds(steps[1..]);
    }
  }

  /** Without age purges the index agrees in every reachable state. */
  lemma RunKeepsIndex(c: TaskCodec, w: World, steps: seq<Step>)
    requires Inv(c, w) && Lawful(c) && IndexAgrees(w.q) && forall a :: a in steps ==> !IsPurge(a)
    ensures IndexAgrees(Run(c, w, steps).q)
  {
    AgreesIsIndexAgrees(w.q);
    NoPurgeNoIds(steps);
    RunAgrees(c, w, steps, {});
    AgreesIsIndexAgrees(Run(c, w, steps).q);
  }

  lemma ZremDisturbsOne(w: World, x: Bytes)
    requires IndexAgrees(w.q)
    ensures AgreesBut(w.q.(dlq := Remove(w.q.dlq, x)), {x})
  {
    AgreesIsIndexAgrees(w.q);
    MembersRemove(w.q.dlq, x);
  }

  lemma HdelRepairsIff(s: State, x: Bytes)
    requires AgreesBut(s, {x}) && x != []
    ensures IndexAgrees(s.(index := s.index - {x})) <==> x !in Members(s.dlq)
  {
    AgreesIsIndexAgrees(s.(index := s.index - {x}));
  }

  lemma BetweenAgrees(c: TaskCodec, w: World, x: Bytes, between: seq<Step>)
    requires Inv(c, w) && Lawful(c) && IndexAgrees(w.q) && forall a :: a in between ==> !IsPurge(a)
    ensures AgreesBut(Run(c, Next(c, w, PurgeZrem(x)), between).q, {x})
  {
    ZremDisturbsOne(w, x);
    ZremKeepsInv(c, w, x);
    NoPurgeNoIds(between);
    RunAgrees(c, Next(c, w, PurgeZrem(x)), between, {x});
    assert {x} + {} == {x};
  }

  /** The purge of one dead letter is two commands of a plain pipeline. Whatever runs between them, the
      index agrees again after the second if and only if the task is not a dead letter then. */
  lemma PurgeKeepsIndexIff(c: TaskCodec, w: World, x: Bytes, between: seq<Step>)
    requires Inv(c, w) && Lawful(c) && IndexAgrees(w.q) && x != [] && forall a :: a in between ==> !IsPurge(a)
    ensures var v := Run(c, Next(c, w, PurgeZrem(x)), between);
            IndexAgrees(Next(c, v, PurgeHdel(x)).q) <==> x !in Members(v.q.dlq)
  {
    BetweenAgrees(c, w, x, between);
    HdelRepairsIff(Run(c, Next(c, w, PurgeZrem(x)), between).q, x);
  }

  /** It can only be one then if it was dead-lettered in between. */
  lemma {:induction false} DeadLettersComeFromBurials(c: TaskCodec, w: World, steps: seq<Step>, i: Item)
    requires Inv(c, w) && Lawful(c) && i in Run(c, w, steps).q.dlq && forall a :: a in steps ==> !Buries(a, i.member)
    ensures i in w.q.dlq
    decreases steps
  {
    if steps != [] {
      NextKeepsInv(c, w, steps[0]);
      DeadLettersComeFromBurials(c, Next(c, w, steps[0]), steps[1..], i);
      BurialIsTheOnlySource(c, w, steps[0], i);
    }
  }

  lemma BurialIsTheOnlySource(c: TaskCodec, w: World, a: Step, i: Item)
    requires i in Next(c, w, a).q.dlq && !Buries(a, i.member)
    ensures i in w.q.dlq
  {
    match a
    case Settle(e, st, lim) =>
      if e in w.held && SettlementOf(c, e.body, st) && st.DeadLettered? {
        assert i in Add(w.q.dlq, st.now, st.t.id);
      }
    case _ =>
  }

  /** The other half of the race: the purge removes a dead letter that is not old only if the task was
      dead-lettered again between the purge's read and its removal; otherwise what it removes is exactly
      what it read. */
  lemma PurgeRemovesWhatItRead(c: TaskCodec, w: World, between: seq<Step>, i: Item, j: Item)
    requires Inv(c, w) && Lawful(c) && i in w.q.dlq && j in Run(c, w, between).q.dlq && j.member == i.member
    ensures j == i || exists a :: a in between && Buries(a, i.member)
  {
    if forall a :: a in between ==> !Buries(a, i.member) {
      DeadLettersComeFromBurials(c, w, between, j);
      SameMember(w.q.dlq, i, j);
    }
  }
}
