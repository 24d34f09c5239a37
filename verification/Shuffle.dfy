/**
 * What the timeline recovers of a log that passes verification, and of any shuffle of
 * a run's own chain of events.
 */
module Shuffle {
  import opened Base
  import opened Events
  import opened Timeline
  import opened ReplayState
  import Lineage

  // ---------- Lineage-valid logs ----------

  // A parent chain that comes round is a cycle of the parent relation.
  lemma CycleIsParentCycle(events: seq<Event>, id: EventId)
    requires WellNamed(events) && id in ById(events) && EntersCycle(ById(events), id)
    ensures exists p :: Lineage.ParentCycle(events, p)
  {
    var known := ById(events);
    ByIdKeys(events, ROOT);
    var i: nat, j: nat :| i < j && Up(known, id, i) == Up(known, id, j) && Up(known, id, i) in known;
    CycleFrom(events, id, i, j);
  }

  lemma CycleFrom(events: seq<Event>, id: EventId, i: nat, j: nat)
    requires WellNamed(events) && id in ById(events)
    requires i < j && Up(ById(events), id, i) == Up(ById(events), id, j) && Up(ById(events), id, j) in ById(events)
    ensures exists p :: Lineage.ParentCycle(events, p)
  {
    var known := ById(events);
    var p := seq(j - i + 1, (k: nat) requires k <= j - i => Up(known, id, j - k));
    forall k | 0 <= k < |p| - 1 ensures Lineage.ParentEdge(events, p[k], p[k + 1]) {
      OneUp(events, id, j - k - 1, i, j);
    }
    assert Lineage.ParentCycle(events, p);
  }

  lemma OneUp(events: seq<Event>, id: EventId, n: nat, i: nat, j: nat)
    requires WellNamed(events) && id in ById(events)
    requires i <= n < j && Up(ById(events), id, i) == Up(ById(events), id, j) && Up(ById(events), id, j) in ById(events)
    ensures Lineage.ParentEdge(events, Up(ById(events), id, n + 1), Up(ById(events), id, n))
  {
    var known := ById(events);
    ByIdKeys(events, ROOT);
    var x := Up(known, id, n);
    UpKnown(known, id, n);
    UpKnown(known, id, n + 1);
    UpAdd(known, id, n, 1);
    UpAdd(known, id, n, j - n);
    UpAdd(known, id, n + 1, j - (n + 1));
    ByIdKeys(events, x);
    assert Up(known, x, 1) == Up(known, Key(known, x), 0);
    assert Lineage.Names(known[x], Up(known, id, n + 1), x);
  }

  // A log that passes the lineage check comes out whole, without a tail, every
  // event after its parent.
  lemma ValidLogIsSorted(events: seq<Event>, e: Event)
    requires WellNamed(events) && Lineage.LineageOk(events)
    ensures Orphans(events) == []
    ensures e in TimelineOf(events) <==> e in events
    ensures e in events && e.parent != "" ==>
              exists i, j :: 0 <= i < j < |TimelineOf(events)|
                && TimelineOf(events)[i].id == e.parent && TimelineOf(events)[j] == e
  {
    var known := ById(events);
    if Orphans(events) != [] {
      var id := Orphans(events)[0];
      TailIsCyclic(events, id);
      CycleIsParentCycle(events, id);
      assert false;
    }
    TimelinePermutes(events, e);
    if e in events && e.parent != "" {
      assert Lineage.Logged(events, e.parent);
      var p :| p in events && p.id == e.parent;
      UniqueById(events, e);
      TimelineIds(events);
      assert Reached(events) + Orphans(events) == Reached(events);
      assert e.id in Elems(Reached(events));
      var i, j := ParentFirst(events, p, e);
    }
  }

  // ---------- A run's chain in a shuffled log ----------

  ghost predicate IsChain(chain: seq<Event>) {
    && chain != [] && chain[0].parent == ""
    && forall k | 0 < k < |chain| :: chain[k].parent == chain[k - 1].id
  }

  // `log` holds the chain and, anywhere between, parentless records.
  ghost predicate Interleaves(log: seq<Event>, chain: seq<Event>, others: seq<Event>) {
    && WellNamed(log) && (forall e | e in log :: e.id != "")
    && IsChain(chain) && (forall e | e in others :: e.parent == "")
    && multiset(log) == multiset(chain) + multiset(others)
  }

  ghost function IdsOf(events: seq<Event>): (ids: seq<EventId>)
    ensures |ids| == |events|
  {
    seq(|events|, i requires 0 <= i < |events| => events[i].id)
  }

  lemma {:induction false} UniqueNoDup(log: seq<Event>)
    requires UniqueIds(log) && forall e | e in log :: e.id != ""
    ensures NoDup(log)
  {
    if log != [] {
      SplitLast(log);
      UniqueNoDup(Init(log));
    }
  }

  lemma InLog(log: seq<Event>, chain: seq<Event>, others: seq<Event>, e: Event)
    requires multiset(log) == multiset(chain) + multiset(others)
    ensures e in log <==> e in chain || e in others
  {
    assert e in log <==> e in multiset(log);
    assert e in chain <==> e in multiset(chain);
    assert e in others <==> e in multiset(others);
  }

  lemma ChainDistinct(log: seq<Event>, chain: seq<Event>, others: seq<Event>, j: nat, k: nat)
    requires Interleaves(log, chain, others) && j < |chain| && k < |chain| && chain[j].id == chain[k].id
    ensures j == k
  {
    UniqueNoDup(log);
    NoDupMultiset(log);
    forall x ensures multiset(chain)[x] <= 1 {
      assert multiset(chain)[x] <= multiset(log)[x];
    }
    NoDupMultiset(chain);
    NoDupIndex(chain);
    InLog(log, chain, others, chain[j]);
    InLog(log, chain, others, chain[k]);
    UniqueById(log, chain[j]);
    UniqueById(log, chain[k]);
  }

  // The only event filed under one of the chain is the next.
  lemma ChainKids(log: seq<Event>, chain: seq<Event>, others: seq<Event>, k: nat, c: EventId)
    requires Interleaves(log, chain, others) && k < |chain|
    ensures c in Kids(File(ById(log), log), chain[k].id) <==> k + 1 < |chain| && c == chain[k + 1].id
  {
    var known := ById(log);
    InLog(log, chain, others, chain[k]);
    FileEdges(known, log, chain[k].id, c);
    ByIdKeys(log, chain[k].id);
    if k + 1 < |chain| {
      InLog(log, chain, others, chain[k + 1]);
    }
    if c in Kids(File(known, log), chain[k].id) {
      var e :| e in log && e.id == c && KeyIn(known, e) == chain[k].id;
      assert e.parent == chain[k].id;
      InLog(log, chain, others, e);
      var j :| 0 <= j < |chain| && chain[j] == e;
      ChainDistinct(log, chain, others, j - 1, k);
    }
  }

  lemma OnlyChild(log: seq<Event>, chain: seq<Event>, others: seq<Event>, t: Tree, k: nat)
    requires Interleaves(log, chain, others) && k < |chain|
    requires Shaped(ById(log), File(ById(log), log), t) && t.id == chain[k].id
    ensures Names(t.kids) == if k + 1 < |chain| then [chain[k + 1].id] else []
  {
    var ids := Kids(File(ById(log), log), t.id);
    LogIsForest(log);
    VisitOrderElems(ById(log), ids);
    forall c { ChainKids(log, chain, others, k, c); }
    if k + 1 < |chain| {
      OnlyElement(Names(t.kids), chain[k + 1].id);
    } else {
      NoElement(Names(t.kids));
    }
  }

  // A tree without branches: each node has the next id as its only child.
  ghost predicate Spine(t: Tree, ids: seq<EventId>)
    decreases t
  {
    && ids != [] && t.id == ids[0]
    && if |ids| == 1 then t.kids == [] else |t.kids| == 1 && Spine(t.kids[0], ids[1..])
  }

  lemma {:induction false} SpineFlat(t: Tree, ids: seq<EventId>)
    requires Spine(t, ids)
    ensures Flatten(t) == ids
    decreases t
  {
    if |ids| > 1 {
      SpineFlat(t.kids[0], ids[1..]);
      assert t.kids == [t.kids[0]] + [];
      FlattenFirst(t.kids[0], []);
    }
  }

  lemma {:induction false} ChainTree(log: seq<Event>, chain: seq<Event>, others: seq<Event>, t: Tree, k: nat)
    requires Interleaves(log, chain, others) && k < |chain|
    requires Shaped(ById(log), File(ById(log), log), t) && t.id == chain[k].id
    ensures Spine(t, IdsOf(chain)[k..])
    decreases |chain| - k
  {
    OnlyChild(log, chain, others, t, k);
    if k + 1 < |chain| {
      assert t.kids[0].id == Names(t.kids)[0];
      ChainTree(log, chain, others, t.kids[0], k + 1);
      assert IdsOf(chain)[k..][1..] == IdsOf(chain)[k + 1..];
    }
  }

  lemma ChainBlock(log: seq<Event>, chain: seq<Event>, others: seq<Event>) returns (a: seq<EventId>, b: seq<EventId>)
    requires Interleaves(log, chain, others)
    ensures Reached(log) == a + IdsOf(chain) + b
  {
    InLog(log, chain, others, chain[0]);
    UniqueById(log, chain[0]);
    var head := chain[0].id;
    ByIdKeys(log, ROOT);
    RootedStep(ById(log), head, 0);
    ReachedIffRooted(log, head);
    var sub: Tree;
    a, sub, b := SubtreeBlock(log, head);
    ChainTree(log, chain, others, sub, 0);
    assert IdsOf(chain)[0..] == IdsOf(chain);
    SpineFlat(sub, IdsOf(chain));
  }

  lemma OneSide<T>(a: seq<T>, m: seq<T>, b: seq<T>, x: T)
    requires Elems(a) !! Elems(m) && Elems(a + m) !! Elems(b) && x in a + b
    ensures x !in m
  {
    ElemsConcat(a, m);
    assert x in Elems(a) || x in Elems(b);
    assert x in m ==> x in Elems(m);
  }

  lemma RestIsOthers<T>(before: seq<T>, chain: seq<T>, after: seq<T>, others: seq<T>)
    requires NoDup(before + chain + after)
    requires forall e | e in before + chain + after :: e in chain || e in others
    ensures forall e | e in before + after :: e in others
  {
    NoDupConcat(before + chain, after);
    NoDupConcat(before, chain);
    forall e | e in before + after ensures e in others {
      assert e in before + chain + after;
      OneSide(before, chain, after, e);
    }
  }

  lemma InTimeline(log: seq<Event>, chain: seq<Event>, others: seq<Event>)
    requires Interleaves(log, chain, others)
    ensures NoDup(TimelineOf(log))
    ensures forall e | e in TimelineOf(log) :: e in chain || e in others
  {
    forall e | e in TimelineOf(log) ensures e.id != "" && (e in chain || e in others) {
      TimelinePermutes(log, e);
      InLog(log, chain, others, e);
    }
    TimelinePermutes(log, chain[0]);
    UniqueNoDup(TimelineOf(log));
  }

  lemma LookupConcat(known: Clock, a: seq<EventId>, b: seq<EventId>)
    requires Elems(a + b) <= known.Keys
    ensures Elems(a) <= known.Keys && Elems(b) <= known.Keys
    ensures Lookup(known, a + b) == Lookup(known, a) + Lookup(known, b)
  {
    ElemsConcat(a, b);
  }

  lemma {:induction false} LookupIds(log: seq<Event>, events: seq<Event>)
    requires UniqueIds(log) && forall e | e in events :: e in log && e.id != ""
    ensures Elems(IdsOf(events)) <= ById(log).Keys && Lookup(ById(log), IdsOf(events)) == events
  {
    if events != [] {
      SplitLast(events);
      LookupIds(log, Init(events));
      assert Last(events) in events;
      UniqueById(log, Last(events));
      assert IdsOf(events) == IdsOf(Init(events)) + [Last(events).id];
      LookupMore(ById(log), IdsOf(Init(events)), Last(events).id);
    }
  }

  // Whatever the order of the log and its timestamps, the timeline holds the
  // chain as one block, in emission order.
  lemma ShuffleRecovery(log: seq<Event>, chain: seq<Event>, others: seq<Event>) returns (before: seq<Event>, after: seq<Event>)
    requires Interleaves(log, chain, others)
    ensures TimelineOf(log) == before + chain + after
    ensures forall e | e in before + after :: e in others
  {
    var known := ById(log);
    var a, b := ChainBlock(log, chain, others);
    TimelineIds(log);
    ConcatAssoc3(a + IdsOf(chain), b, Orphans(log));
    LookupConcat(known, a + IdsOf(chain), b + Orphans(log));
    LookupConcat(known, a, IdsOf(chain));
    forall e | e in chain ensures e in log { InLog(log, chain, others, e); }
    LookupIds(log, chain);
    before, after := Lookup(known, a), Lookup(known, b + Orphans(log));
    InTimeline(log, chain, others);
    RestIsOthers(before, chain, after, others);
  }

  // ---------- Replaying a shuffled log ----------

  // Records that replay ignores.
  predicate Inert(body: Body) {
    body.Governance? || body.PolicyViolation? || body.RecoveryPlanExecute? || body.RecoveryPlanComplete?
  }

  lemma {:induction false} ReplayInert(before: seq<Event>)
    requires forall e | e in before :: Inert(e.body)
    ensures Replay(before) == BLANK
  {
    if before != [] {
      SplitLast(before);
      ReplayInert(Init(before));
      assert Last(before) in before;
    }
  }

  lemma {:induction false} ReplayAfterInert(before: seq<Event>, chain: seq<Event>)
    requires forall e | e in before :: Inert(e.body)
    ensures Replay(before + chain) == Replay(chain)
  {
    if chain == [] {
      assert before + chain == before;
      ReplayInert(before);
    } else {
      assert Init(before + chain) == before + Init(chain);
      ReplayAfterInert(before, Init(chain));
    }
  }

  lemma StepInBlock(before: seq<Event>, chain: seq<Event>, after: seq<Event>, k: nat)
    requires UniqueIds(before + chain + after) && k < |chain| && chain[k].id != ""
    ensures StepIndex(before + chain + after, chain[k].id) == |before| + k
  {
    var timeline, at := before + chain + after, |before| + k;
    assert timeline[at] == chain[k];
    forall i | 0 <= i < at ensures timeline[i].id != chain[k].id {
      if timeline[i].id == timeline[at].id { UniqueIndex(timeline, i, at); }
    }
    StepIndexIs(timeline, chain[k].id, at);
  }

  lemma PrefixOfBlock<T>(before: seq<T>, chain: seq<T>, after: seq<T>, n: nat)
    requires n <= |chain|
    ensures (before + chain + after)[..|before| + n] == before + chain[..n]
  {
  }

  // The state rebuilt at the event called `id` is `view`.
  ghost predicate EndsIn(timeline: seq<Event>, id: EventId, view: View) {
    var n := StepIndex(timeline, id);
    n < |timeline| && Replay(timeline[..n + 1]) == view
  }

  lemma ReplayInBlock(before: seq<Event>, chain: seq<Event>, after: seq<Event>, k: nat)
    requires UniqueIds(before + chain + after) && k < |chain| && chain[k].id != ""
    requires forall e | e in before :: Inert(e.body)
    ensures EndsIn(before + chain + after, chain[k].id, Replay(chain[..k + 1]))
  {
    StepInBlock(before, chain, after, k);
    PrefixOfBlock(before, chain, after, k + 1);
    ReplayAfterInert(before, chain[..k + 1]);
  }

  lemma ChainNamed(log: seq<Event>, chain: seq<Event>, others: seq<Event>, k: nat)
    requires Interleaves(log, chain, others) && k < |chain|
    ensures UniqueIds(TimelineOf(log)) && chain[k].id != ""
  {
    InLog(log, chain, others, chain[k]);
    TimelinePermutes(log, chain[k]);
  }

  lemma InertBefore(before: seq<Event>, after: seq<Event>, others: seq<Event>)
    requires forall e | e in before + after :: e in others
    requires forall e | e in others :: Inert(e.body)
    ensures forall e | e in before :: Inert(e.body)
  {
    forall e | e in before ensures Inert(e.body) { assert e in before + after; }
  }

  // The state rebuilt at a step of a shuffled trail is the fold of the run's own
  // events up to that step.
  lemma ReplayOfShuffle(log: seq<Event>, chain: seq<Event>, others: seq<Event>, k: nat)
    requires Interleaves(log, chain, others) && k < |chain|
    requires forall e | e in others :: Inert(e.body)
    ensures EndsIn(TimelineOf(log), chain[k].id, Replay(chain[..k + 1]))
  {
    var before, after := ShuffleRecovery(log, chain, others);
    ChainNamed(log, chain, others, k);
    InertBefore(before, after, others);
    ReplayInBlock(before, chain, after, k);
  }
}
