/**
 * Timeline reconstruction (resilience/replay.py): a depth-first walk of the forest of
 * parents, then the events that no root reaches.
 */
module Timeline {
  import opened Base
  import opened Events

  type Children = map<EventId, seq<EventId>>

  // ---------- Indexing the log ----------

  function Scope(events: seq<Event>, deployment: Option<string>): seq<Event> {
    if deployment == None || events == [] then events else
    Scope(Init(events), deployment) +
    if Last(events).deployment == deployment.value || Last(events).correlation == deployment.value
    then [Last(events)] else []
  }

  // The last event with an id stands for it.
  function ById(events: seq<Event>): map<EventId, Event> {
    if events == [] then map[] else
    var rest := ById(Init(events));
    if Last(events).id == "" then rest else rest[Last(events).id := Last(events)]
  }

  // The ids in order of first appearance, as a dictionary keeps its keys.
  function IdOrder(events: seq<Event>): seq<EventId> {
    if events == [] then [] else
    var rest := IdOrder(Init(events));
    if Last(events).id == "" || Last(events).id in rest then rest else rest + [Last(events).id]
  }

  // Where an event is filed: under its parent if that is logged, else under "ROOT".
  function KeyIn(known: map<EventId, Event>, e: Event): EventId {
    if e.parent != "" && e.parent in known then e.parent else ROOT
  }

  function Kids(children: Children, p: EventId): seq<EventId> {
    if p in children then children[p] else []
  }

  function File(known: map<EventId, Event>, events: seq<Event>): Children {
    if events == [] then map[] else
    var rest := File(known, Init(events));
    var e := Last(events);
    if e.id == "" then rest else rest[KeyIn(known, e) := Kids(rest, KeyIn(known, e)) + [e.id]]
  }

  // ---------- Sorting by timestamp ----------

  type Clock = map<EventId, Event>

  function Time(known: Clock, id: EventId): int {
    if id in known then known[id].timestamp else 0
  }

  // Stable sorts, as Python's sorted(): later items go behind their equals, also
  // when the order is reversed.
  function InsertUp(known: Clock, sorted: seq<EventId>, x: EventId): (r: seq<EventId>)
    ensures multiset(r) == multiset(sorted) + multiset{x}
  {
    if sorted == [] || Time(known, Last(sorted)) <= Time(known, x) then sorted + [x]
    else SplitLast(sorted); InsertUp(known, Init(sorted), x) + [Last(sorted)]
  }

  function SortUp(known: Clock, ids: seq<EventId>): (r: seq<EventId>)
    ensures multiset(r) == multiset(ids)
  {
    if ids == [] then [] else SplitLast(ids); InsertUp(known, SortUp(known, Init(ids)), Last(ids))
  }

  function InsertDown(known: Clock, sorted: seq<EventId>, x: EventId): (r: seq<EventId>)
    ensures multiset(r) == multiset(sorted) + multiset{x}
  {
    if sorted == [] || Time(known, Last(sorted)) >= Time(known, x) then sorted + [x]
    else SplitLast(sorted); InsertDown(known, Init(sorted), x) + [Last(sorted)]
  }

  function SortDown(known: Clock, ids: seq<EventId>): (r: seq<EventId>)
    ensures multiset(r) == multiset(ids)
  {
    if ids == [] then [] else SplitLast(ids); InsertDown(known, SortDown(known, Init(ids)), Last(ids))
  }

  // ---------- The walk ----------

  // The loop of the depth-first walk: what it still appends to the timeline.
  ghost function Walk(known: Clock, children: Children, stack: seq<EventId>, seen: set<EventId>): seq<EventId>
    requires Elems(stack) <= known.Keys
    requires ChildrenKnown(known, children)
    decreases |known.Keys - seen|, |stack|
  {
    if stack == [] then [] else
    var node := Last(stack);
    SplitLast(stack);
    if node in seen then Walk(known, children, Init(stack), seen)
    else
      var pushed := SortDown(known, Kids(children, node));
      PushKnown(known, children, Init(stack), node);
      Fewer(known.Keys, seen, node);
      [node] + Walk(known, children, Init(stack) + pushed, seen + {node})
  }

  ghost predicate ChildrenKnown(known: Clock, children: Children) {
    forall p, c :: c in Kids(children, p) ==> c in known
  }

  lemma PushKnown(known: Clock, children: Children, stack: seq<EventId>, node: EventId)
    requires Elems(stack) <= known.Keys && ChildrenKnown(known, children)
    ensures Elems(stack + SortDown(known, Kids(children, node))) <= known.Keys
  {
    SameElems(SortDown(known, Kids(children, node)), Kids(children, node));
  }

  lemma Fewer(u: set<EventId>, seen: set<EventId>, x: EventId)
    requires x in u && x !in seen
    ensures |u - (seen + {x})| < |u - seen|
  {
    assert u - seen == (u - (seen + {x})) + {x};
  }

  function Unseen(ids: seq<EventId>, seen: set<EventId>): seq<EventId> {
    if ids == [] then [] else
    Unseen(Init(ids), seen) + if Last(ids) in seen then [] else [Last(ids)]
  }

  lemma {:induction false} FileKnown(known: Clock, events: seq<Event>)
    requires forall e | e in events && e.id != "" :: e.id in known
    ensures ChildrenKnown(known, File(known, events))
  {
    if events != [] {
      SplitLast(events);
      assert Last(events) in events;
      FileKnown(known, Init(events));
      var rest, key := File(known, Init(events)), KeyIn(known, Last(events));
      forall p, c | c in Kids(File(known, events), p) ensures c in known {
        assert c in Kids(rest, p) || c == Last(events).id;
      }
    }
  }

  lemma {:induction false} ByIdKeys(events: seq<Event>, id: EventId)
    ensures id in ById(events) <==> id in IdOrder(events)
    ensures id in ById(events) <==> id != "" && exists e :: e in events && e.id == id
    ensures id in ById(events) ==> ById(events)[id].id == id && ById(events)[id] in events
    ensures NoDup(IdOrder(events))
  {
    if events != [] {
      ByIdKeys(Init(events), id);
      SplitLast(events);
      ByIdKeys(Init(events), Last(events).id);
      var rest := IdOrder(Init(events));
      assert Init(rest + [Last(events).id]) == rest;
      assert Last(events) in events;
    }
  }

  // The walk from the roots, and the ids it leaves over in timestamp order.
  ghost function Reached(events: seq<Event>): seq<EventId> {
    var known := ById(events);
    forall id { ByIdKeys(events, id); }
    FileKnown(known, events);
    var children := File(known, events);
    SameElems(SortDown(known, Kids(children, ROOT)), Kids(children, ROOT));
    Walk(known, children, SortDown(known, Kids(children, ROOT)), {})
  }

  ghost function Orphans(events: seq<Event>): seq<EventId> {
    SortUp(ById(events), Unseen(IdOrder(events), Elems(Reached(events))))
  }

  // ---------- The forest ----------

  datatype Tree = Node(id: EventId, kids: seq<Tree>)

  ghost function Names(ts: seq<Tree>): (names: seq<EventId>)
    ensures |names| == |ts|
  {
    seq(|ts|, i requires 0 <= i < |ts| => ts[i].id)
  }

  // Parent first, then each child's whole subtree.
  ghost function Flatten(t: Tree): seq<EventId>
    decreases t
  {
    [t.id] + FlattenAll(t.kids)
  }

  ghost function FlattenAll(ts: seq<Tree>): seq<EventId>
    decreases ts
  {
    if ts == [] then [] else Flatten(ts[0]) + FlattenAll(ts[1..])
  }

  // The order in which the walk takes siblings: ascending time, and the later
  // logged first among equals.
  function VisitOrder(known: Clock, ids: seq<EventId>): seq<EventId> {
    Reverse(SortDown(known, ids))
  }

  ghost predicate Shaped(known: Clock, children: Children, t: Tree)
    decreases t
  {
    && Names(t.kids) == VisitOrder(known, Kids(children, t.id))
    && forall k | k in t.kids :: Shaped(known, children, k)
  }

  ghost predicate AllShaped(known: Clock, children: Children, ts: seq<Tree>) {
    forall t | t in ts :: Shaped(known, children, t)
  }

  function Key(known: Clock, id: EventId): EventId
    requires id in known
  {
    KeyIn(known, known[id])
  }

  ghost predicate IsForest(known: Clock, children: Children) {
    && ROOT !in known
    && (forall p, c :: c in Kids(children, p) <==> c in known && Key(known, c) == p)
    && (forall p :: NoDup(Kids(children, p)))
  }

  // Between steps of the walk: nothing on the stack was seen, and whatever was
  // met is a root or was filed under a seen event.
  ghost predicate Walking(known: Clock, stack: seq<EventId>, seen: set<EventId>) {
    && NoDup(stack)
    && Elems(stack) !! seen
    && Elems(stack) + seen <= known.Keys
    && forall x | x in Elems(stack) + seen :: Key(known, x) == ROOT || Key(known, x) in seen
  }

  lemma ChildUnmet(known: Clock, children: Children, stack: seq<EventId>, node: EventId, seen: set<EventId>, c: EventId)
    requires IsForest(known, children) && Walking(known, stack + [node], seen)
    requires c in Kids(children, node)
    ensures c in known && Key(known, c) == node && node !in seen
    ensures c !in stack && c !in seen && c != node
  {
    assert node in Elems(stack + [node]);
    assert Elems(stack) <= Elems(stack + [node]);
  }

  lemma WalkingPush(known: Clock, children: Children, stack: seq<EventId>, node: EventId, seen: set<EventId>)
    requires IsForest(known, children) && Walking(known, stack + [node], seen)
    ensures Walking(known, stack + SortDown(known, Kids(children, node)), seen + {node})
  {
    var pushed := SortDown(known, Kids(children, node));
    SameElems(pushed, Kids(children, node));
    NoDupPermute(pushed, Kids(children, node));
    ElemsConcat(stack, [node]);
    ElemsConcat(stack, pushed);
    assert Init(stack + [node]) == stack;
    forall c | c in pushed ensures c in known && Key(known, c) == node && c !in stack && c !in seen && c != node {
      ChildUnmet(known, children, stack, node, seen, c);
    }
    NoDupConcat(stack, pushed);
    assert node in Elems(stack + [node]);
  }

  lemma ForestKnown(known: Clock, children: Children)
    requires IsForest(known, children)
    ensures ChildrenKnown(known, children)
  {
  }

  lemma FlattenFirst(t: Tree, ts: seq<Tree>)
    ensures FlattenAll([t] + ts) == [t.id] + FlattenAll(t.kids) + FlattenAll(ts)
    ensures Names([t] + ts) == [t.id] + Names(ts)
  {
    assert ([t] + ts)[0] == t && ([t] + ts)[1..] == ts;
  }

  // Walking from `vs` on top of the stack emits whole trees, one for each of `vs`
  // from the top, and leaves the rest of the stack as it was.
  lemma {:induction false} WalkForest(known: Clock, children: Children, stack: seq<EventId>, vs: seq<EventId>, seen: set<EventId>)
    returns (ts: seq<Tree>)
    requires IsForest(known, children) && ChildrenKnown(known, children)
    requires Walking(known, stack + vs, seen)
    ensures Names(ts) == Reverse(vs) && AllShaped(known, children, ts)
    ensures Walking(known, stack, seen + Elems(FlattenAll(ts)))
    ensures Walk(known, children, stack + vs, seen)
         == FlattenAll(ts) + Walk(known, children, stack, seen + Elems(FlattenAll(ts)))
    decreases |known.Keys - seen|, |vs| + 1
  {
    if vs == [] {
      ts := [];
      assert stack + vs == stack && seen + Elems(FlattenAll(ts)) == seen;
    } else {
      var node, below := Last(vs), stack + Init(vs);
      assert stack + vs == below + [node];
      assert node in known.Keys && node !in seen by { TopUnseen(known, below, node, seen); }
      assert |known.Keys - (seen + {node})| < |known.Keys - seen| by { Fewer(known.Keys, seen, node); }
      var kids := WalkTop(known, children, below, node, seen);
      var seen' := seen + {node} + Elems(FlattenAll(kids));
      assert |known.Keys - seen'| < |known.Keys - seen| by { FewerStill(known.Keys, seen, node, Elems(FlattenAll(kids))); }
      var others := WalkForest(known, children, stack, Init(vs), seen');
      ts := [Node(node, kids)] + others;
      assert Names(ts) == Reverse(vs) && AllShaped(known, children, ts) by {
        JoinShapes(known, children, vs, kids, others);
      }
      JoinSeen(node, kids, others, seen);
      JoinTrees(node, kids, others, Walk(known, children, stack, seen + Elems(FlattenAll(ts))));
    }
  }

  // The tree of the node on top of the stack.
  lemma {:induction false} WalkTop(known: Clock, children: Children, below: seq<EventId>, node: EventId, seen: set<EventId>)
    returns (kids: seq<Tree>)
    requires IsForest(known, children) && ChildrenKnown(known, children)
    requires Walking(known, below + [node], seen) && |known.Keys - (seen + {node})| < |known.Keys - seen|
    ensures Names(kids) == VisitOrder(known, Kids(children, node)) && AllShaped(known, children, kids)
    ensures Walking(known, below, seen + {node} + Elems(FlattenAll(kids)))
    ensures Walk(known, children, below + [node], seen)
         == [node] + (FlattenAll(kids) + Walk(known, children, below, seen + {node} + Elems(FlattenAll(kids))))
    decreases |known.Keys - seen|, 0
  {
    WalkStep(known, children, below, node, seen);
    kids := WalkForest(known, children, below, SortDown(known, Kids(children, node)), seen + {node});
  }

  lemma JoinShapes(known: Clock, children: Children, vs: seq<EventId>, kids: seq<Tree>, others: seq<Tree>)
    requires vs != [] && Names(others) == Reverse(Init(vs)) && AllShaped(known, children, others)
    requires Names(kids) == VisitOrder(known, Kids(children, Last(vs))) && AllShaped(known, children, kids)
    ensures Names([Node(Last(vs), kids)] + others) == Reverse(vs)
    ensures AllShaped(known, children, [Node(Last(vs), kids)] + others)
  {
    FlattenFirst(Node(Last(vs), kids), others);
  }

  lemma JoinSeen(node: EventId, kids: seq<Tree>, others: seq<Tree>, seen: set<EventId>)
    ensures seen + {node} + Elems(FlattenAll(kids)) + Elems(FlattenAll(others)) ==
              seen + Elems(FlattenAll([Node(node, kids)] + others))
  {
    FlattenFirst(Node(node, kids), others);
    ElemsConcat([node], FlattenAll(kids));
    ElemsConcat([node] + FlattenAll(kids), FlattenAll(others));
  }

  lemma JoinTrees(node: EventId, kids: seq<Tree>, others: seq<Tree>, rest: seq<EventId>)
    ensures [node] + (FlattenAll(kids) + (FlattenAll(others) + rest)) == FlattenAll([Node(node, kids)] + others) + rest
  {
    FlattenFirst(Node(node, kids), others);
    ConcatAssoc([node], FlattenAll(kids), FlattenAll(others), rest);
  }

  lemma FewerStill(u: set<EventId>, seen: set<EventId>, x: EventId, more: set<EventId>)
    requires x in u && x !in seen
    ensures |u - (seen + {x} + more)| < |u - seen|
  {
    Fewer(u, seen, x);
    SubsetCard(u - (seen + {x} + more), u - (seen + {x}));
  }

  lemma WalkUnfold(known: Clock, children: Children, below: seq<EventId>, node: EventId, seen: set<EventId>)
    requires ChildrenKnown(known, children) && Elems(below + [node]) <= known.Keys && node !in seen
    ensures var pushed := SortDown(known, Kids(children, node));
            && Elems(below + pushed) <= known.Keys
            && Walk(known, children, below + [node], seen) == [node] + Walk(known, children, below + pushed, seen + {node})
  {
    assert Init(below + [node]) == below;
    ElemsConcat(below, [node]);
    PushKnown(known, children, below, node);
  }

  lemma TopUnseen(known: Clock, below: seq<EventId>, node: EventId, seen: set<EventId>)
    requires Walking(known, below + [node], seen)
    ensures node in known.Keys && node !in seen && Elems(below + [node]) <= known.Keys
  {
    assert node in Elems(below + [node]);
  }

  lemma WalkStep(known: Clock, children: Children, below: seq<EventId>, node: EventId, seen: set<EventId>)
    requires IsForest(known, children) && ChildrenKnown(known, children) && Walking(known, below + [node], seen)
    ensures var pushed := SortDown(known, Kids(children, node));
            && Walking(known, below + pushed, seen + {node})
            && Walk(known, children, below + [node], seen) == [node] + Walk(known, children, below + pushed, seen + {node})
  {
    TopUnseen(known, below, node, seen);
    WalkUnfold(known, children, below, node, seen);
    WalkingPush(known, children, below, node, seen);
  }

  // No id is emitted twice, whatever the graph.
  lemma {:induction false} WalkDistinct(known: Clock, children: Children, stack: seq<EventId>, seen: set<EventId>)
    requires Elems(stack) <= known.Keys && ChildrenKnown(known, children)
    ensures NoDup(Walk(known, children, stack, seen)) && Elems(Walk(known, children, stack, seen)) !! seen
    decreases |known.Keys - seen|, |stack|
  {
    if stack != [] {
      var node := Last(stack);
      SplitLast(stack);
      if node in seen {
        WalkDistinct(known, children, Init(stack), seen);
      } else {
        PushKnown(known, children, Init(stack), node);
        Fewer(known.Keys, seen, node);
        var next := Init(stack) + SortDown(known, Kids(children, node));
        WalkDistinct(known, children, next, seen + {node});
        var rest := Walk(known, children, next, seen + {node});
        NoDupConcat([node], rest);
        ElemsConcat([node], rest);
      }
    }
  }

  // ---------- Logs with unique ids ----------

  ghost predicate UniqueIds(events: seq<Event>) {
    events == [] ||
    (&& UniqueIds(Init(events))
     && (Last(events).id != "" ==> forall e | e in Init(events) :: e.id != Last(events).id))
  }

  // What the theorems ask of a log: ids are unique and none is the sentinel.
  ghost predicate WellNamed(events: seq<Event>) {
    UniqueIds(events) && forall e | e in events :: e.id != ROOT
  }

  lemma {:induction false} UniqueById(events: seq<Event>, e: Event)
    requires UniqueIds(events) && e in events && e.id != ""
    ensures e.id in ById(events) && ById(events)[e.id] == e
  {
    SplitLast(events);
    if e != Last(events) {
      UniqueById(Init(events), e);
    }
  }

  lemma {:induction false} FileEdges(known: Clock, events: seq<Event>, p: EventId, c: EventId)
    requires UniqueIds(events)
    ensures c in Kids(File(known, events), p) <==>
            exists e :: e in events && e.id == c && c != "" && KeyIn(known, e) == p
    ensures NoDup(Kids(File(known, events), p))
  {
    if events != [] {
      SplitLast(events);
      var last, rest := Last(events), File(known, Init(events));
      FileEdges(known, Init(events), p, c);
      FileEdges(known, Init(events), p, last.id);
      assert Init(Kids(rest, p) + [last.id]) == Kids(rest, p);
      assert last in events;
      forall e | e in Init(events) ensures e in events {}
    }
  }

  // Some event of the log is the parent that `e` names.
  ghost predicate HasParent(events: seq<Event>, e: Event) {
    e.parent != "" && exists p :: p in events && p.id == e.parent
  }

  lemma KeyIs(events: seq<Event>, e: Event)
    requires UniqueIds(events) && e in events && e.id != ""
    ensures e.id in ById(events) && ById(events)[e.id] == e
    ensures Key(ById(events), e.id) == if HasParent(events, e) then e.parent else ROOT
  {
    UniqueById(events, e);
    ByIdKeys(events, e.parent);
  }

  lemma LogIsForest(events: seq<Event>)
    requires WellNamed(events)
    ensures IsForest(ById(events), File(ById(events), events))
  {
    var known := ById(events);
    var children := File(known, events);
    assert ROOT !in known by { ByIdKeys(events, ROOT); }
    assert forall p, c :: c in Kids(children, p) <==> c in known && Key(known, c) == p by {
      forall p, c { KidsByKey(events, p, c); }
    }
    assert forall p :: NoDup(Kids(children, p)) by {
      forall p { KidsByKey(events, p, ROOT); }
    }
  }

  lemma KidsByKey(events: seq<Event>, p: EventId, c: EventId)
    requires WellNamed(events)
    ensures c in Kids(File(ById(events), events), p) <==> c in ById(events) && Key(ById(events), c) == p
    ensures NoDup(Kids(File(ById(events), events), p))
  {
    var known := ById(events);
    FileEdges(known, events, p, c);
    ByIdKeys(events, c);
    if c in Kids(File(known, events), p) {
      var e :| e in events && e.id == c && c != "" && KeyIn(known, e) == p;
      UniqueById(events, e);
    }
  }

  // The reached part of the timeline is the forest of the log, roots and siblings
  // in visiting order, flattened.
  lemma ReachedForest(events: seq<Event>) returns (ts: seq<Tree>)
    requires WellNamed(events)
    ensures var known, children := ById(events), File(ById(events), events);
            && Names(ts) == VisitOrder(known, Kids(children, ROOT))
            && AllShaped(known, children, ts)
            && Reached(events) == FlattenAll(ts)
            && NoDup(Reached(events))
            && Walking(known, [], Elems(Reached(events)))
  {
    var known := ById(events);
    var children := File(known, events);
    LogIsForest(events);
    ForestKnown(known, children);
    var roots := SortDown(known, Kids(children, ROOT));
    SameElems(roots, Kids(children, ROOT));
    NoDupPermute(roots, Kids(children, ROOT));
    assert [] + roots == roots;
    ts := WalkForest(known, children, [], roots, {});
    WalkDistinct(known, children, roots, {});
    assert FlattenAll(ts) + [] == FlattenAll(ts);
    assert {} + Elems(FlattenAll(ts)) == Elems(FlattenAll(ts));
  }

  // ---------- Ancestry ----------

  // The n-th ancestor of an id, where the sentinel is its own parent.
  ghost function Up(known: Clock, id: EventId, n: nat): EventId
    decreases n
  {
    if n == 0 || id !in known then id else Up(known, Key(known, id), n - 1)
  }

  // The parent chain ends at a root ...
  ghost predicate Rooted(known: Clock, id: EventId) {
    exists n :: Up(known, id, n) == ROOT
  }

  // ... or comes round to an event it has passed.
  ghost predicate EntersCycle(known: Clock, id: EventId) {
    exists i: nat, j: nat :: i < j && Up(known, id, i) == Up(known, id, j) && Up(known, id, i) in known
  }

  // `x` is `v`, or below it.
  ghost predicate Below(known: Clock, x: EventId, v: EventId) {
    exists n :: Up(known, x, n) == v
  }

  lemma {:induction false} UpAdd(known: Clock, id: EventId, m: nat, n: nat)
    ensures Up(known, id, m + n) == Up(known, Up(known, id, m), n)
    decreases m
  {
    if m > 0 && id in known {
      UpAdd(known, Key(known, id), m - 1, n);
    }
  }

  lemma {:induction false} UpKnown(known: Clock, id: EventId, n: nat)
    requires id in known
    ensures Up(known, id, n) in known || Up(known, id, n) == ROOT
    decreases n
  {
    if n > 0 && Key(known, id) in known {
      UpKnown(known, Key(known, id), n - 1);
    }
  }

  lemma {:induction false} OnCycleNotRooted(known: Clock, v: EventId, d: nat, m: nat)
    requires ROOT !in known && v in known && d > 0 && Up(known, v, d) == v
    ensures Up(known, v, m) != ROOT
  {
    if m >= d {
      UpAdd(known, v, d, m - d);
      OnCycleNotRooted(known, v, d, m - d);
    } else {
      UpAdd(known, v, m, d - m);
    }
  }

  // A finite log leaves a parent chain no third way.
  lemma RootOrCycle(known: Clock, id: EventId)
    requires ROOT !in known && id in known
    ensures EntersCycle(known, id) <==> !Rooted(known, id)
  {
    if Rooted(known, id) {
      var n :| Up(known, id, n) == ROOT;
      forall i: nat, j: nat | i < j && Up(known, id, i) == Up(known, id, j)
        ensures Up(known, id, i) !in known
      {
        var v := Up(known, id, i);
        if v in known {
          UpAdd(known, id, i, j - i);
          OnCycleNotRooted(known, v, j - i, n);
          UpAdd(known, id, i, n);
          UpAdd(known, id, n, i);
        }
      }
    } else {
      var chain := seq(|known.Keys| + 1, (n: nat) => Up(known, id, n));
      forall x | x in chain ensures x in known {
        var n :| 0 <= n < |chain| && chain[n] == x;
        UpKnown(known, id, n);
      }
      var i, j := Pigeonhole(chain, known.Keys);
      assert Up(known, id, i) == Up(known, id, j) && chain[i] in known;
    }
  }

  // ---------- Trees and ancestry ----------

  // In ancestry terms: a tree's children are the events filed under its root.
  ghost predicate Grown(known: Clock, t: Tree)
    decreases t
  {
    && t.id in known
    && (forall c :: c in Names(t.kids) <==> c in known && Key(known, c) == t.id)
    && (forall k | k in t.kids :: Grown(known, k))
  }

  lemma VisitOrderElems(known: Clock, ids: seq<EventId>)
    ensures forall c :: c in VisitOrder(known, ids) <==> c in ids
    ensures NoDup(ids) ==> NoDup(VisitOrder(known, ids))
  {
    ReverseMultiset(SortDown(known, ids));
    SameElems(VisitOrder(known, ids), ids);
    if NoDup(ids) { NoDupPermute(VisitOrder(known, ids), ids); }
  }

  lemma KidsOf(known: Clock, children: Children, p: EventId, ts: seq<Tree>, c: EventId)
    requires IsForest(known, children) && Names(ts) == VisitOrder(known, Kids(children, p))
    ensures c in Names(ts) <==> c in known && Key(known, c) == p
  {
    VisitOrderElems(known, Kids(children, p));
  }

  lemma {:induction false} ShapedGrown(known: Clock, children: Children, t: Tree)
    requires IsForest(known, children) && Shaped(known, children, t) && t.id in known
    ensures Grown(known, t)
    decreases t
  {
    forall c { KidsOf(known, children, t.id, t.kids, c); }
    forall i | 0 <= i < |t.kids| ensures Grown(known, t.kids[i]) {
      assert Names(t.kids)[i] in Names(t.kids);
      ShapedGrown(known, children, t.kids[i]);
    }
  }

  lemma {:induction false} InFlattenAll(ts: seq<Tree>, x: EventId)
    ensures x in FlattenAll(ts) <==> exists t :: t in ts && x in Flatten(t)
    ensures x in Names(ts) ==> x in FlattenAll(ts)
  {
    if ts != [] {
      InFlattenAll(ts[1..], x);
      assert ts == [ts[0]] + ts[1..];
      assert Names(ts) == [ts[0].id] + Names(ts[1..]);
      assert FlattenAll(ts) == Flatten(ts[0]) + FlattenAll(ts[1..]);
      if t :| t in ts && x in Flatten(t) {
        assert t == ts[0] || t in ts[1..];
      }
      if x in FlattenAll(ts) && x !in Flatten(ts[0]) {
        var t :| t in ts[1..] && x in Flatten(t);
        assert t in ts;
      }
      assert ts[0].id == Flatten(ts[0])[0];
    }
  }

  lemma NamedTree(ts: seq<Tree>, x: EventId) returns (t: Tree)
    requires x in Names(ts)
    ensures t in ts && t.id == x
  {
    var i :| 0 <= i < |Names(ts)| && Names(ts)[i] == x;
    t := ts[i];
  }

  // A subtree holds exactly the events below its root.
  lemma {:induction false} InTreeBelow(known: Clock, t: Tree, x: EventId)
    requires Grown(known, t) && x in Flatten(t)
    ensures x in known && Below(known, x, t.id)
    decreases t
  {
    if x == t.id {
      assert Up(known, x, 0) == t.id;
    } else {
      InFlattenAll(t.kids, x);
      var k :| k in t.kids && x in Flatten(k);
      InTreeBelow(known, k, x);
      var n :| Up(known, x, n) == k.id;
      var i :| 0 <= i < |t.kids| && t.kids[i] == k;
      assert Names(t.kids)[i] == k.id;
      UpAdd(known, x, n, 1);
      assert Up(known, k.id, 1) == Up(known, t.id, 0);
    }
  }

  lemma {:induction false} LeastUp(known: Clock, x: EventId, v: EventId, n: nat) returns (m: nat)
    requires Up(known, x, n) == v
    ensures m <= n && Up(known, x, m) == v && forall k: nat | k < m :: Up(known, x, k) != v
  {
    if k: nat :| k < n && Up(known, x, k) == v {
      m := LeastUp(known, x, v, k);
    } else {
      m := n;
    }
  }

  lemma {:induction false} BelowInTree(known: Clock, t: Tree, x: EventId, n: nat)
    requires Grown(known, t) && ROOT !in known && x in known && Up(known, x, n) == t.id
    ensures x in Flatten(t)
    decreases t
  {
    var m := LeastUp(known, x, t.id, n);
    if m > 0 {
      // The ancestor just below the root is one of its children.
      var c := Up(known, x, m - 1);
      UpAdd(known, x, m - 1, 1);
      UpKnown(known, x, m - 1);
      assert Up(known, c, 1) == Up(known, Key(known, c), 0) == t.id;
      var k := NamedTree(t.kids, c);
      BelowInTree(known, k, x, m - 1);
      InFlattenAll(t.kids, x);
    }
  }

  lemma TreeIsBelow(known: Clock, t: Tree, x: EventId)
    requires Grown(known, t) && ROOT !in known
    ensures x in Flatten(t) <==> x in known && Below(known, x, t.id)
  {
    if x in Flatten(t) {
      InTreeBelow(known, t, x);
    }
    if x in known && Below(known, x, t.id) {
      var n :| Up(known, x, n) == t.id;
      BelowInTree(known, t, x, n);
    }
  }

  lemma GrownForest(events: seq<Event>) returns (ts: seq<Tree>)
    requires WellNamed(events)
    ensures Reached(events) == FlattenAll(ts)
    ensures AllShaped(ById(events), File(ById(events), events), ts)
    ensures Names(ts) == VisitOrder(ById(events), Kids(File(ById(events), events), ROOT))
    ensures forall t | t in ts :: Grown(ById(events), t)
    ensures forall c :: c in Names(ts) <==> c in ById(events) && Key(ById(events), c) == ROOT
  {
    var known, children := ById(events), File(ById(events), events);
    ts := ReachedForest(events);
    LogIsForest(events);
    forall c { KidsOf(known, children, ROOT, ts, c); }
    forall i | 0 <= i < |ts| ensures Grown(known, ts[i]) {
      assert Names(ts)[i] in Names(ts);
      ShapedGrown(known, children, ts[i]);
    }
  }

  lemma RootedStep(known: Clock, x: EventId, n: nat)
    requires ROOT !in known && Up(known, x, n) in known && Key(known, Up(known, x, n)) == ROOT
    ensures Rooted(known, x)
  {
    UpAdd(known, x, n, 1);
    assert Up(known, Up(known, x, n), 1) == Up(known, ROOT, 0);
  }

  // The last event of a chain that ends at a root.
  lemma RootOf(known: Clock, x: EventId) returns (r: EventId)
    requires ROOT !in known && x in known && Rooted(known, x)
    ensures r in known && Key(known, r) == ROOT && Below(known, x, r)
  {
    var n :| Up(known, x, n) == ROOT;
    var m := LeastUp(known, x, ROOT, n);
    r := Up(known, x, m - 1);
    UpAdd(known, x, m - 1, 1);
    UpKnown(known, x, m - 1);
    assert Up(known, r, 1) == Up(known, Key(known, r), 0);
  }

  lemma InForest(known: Clock, ts: seq<Tree>, x: EventId) returns (t: Tree)
    requires ROOT !in known && x in FlattenAll(ts) && forall t | t in ts :: Grown(known, t)
    ensures t in ts && t.id in Names(ts) && x in known && Below(known, x, t.id)
  {
    InFlattenAll(ts, x);
    t :| t in ts && x in Flatten(t);
    InTreeBelow(known, t, x);
    var i :| 0 <= i < |ts| && ts[i] == t;
    assert Names(ts)[i] == t.id;
  }

  // The walk reaches an event exactly when its parent chain ends at a root.
  lemma ReachedIffRooted(events: seq<Event>, x: EventId)
    requires WellNamed(events)
    ensures x in Reached(events) <==> x in ById(events) && Rooted(ById(events), x)
  {
    var known := ById(events);
    ByIdKeys(events, ROOT);
    var ts := GrownForest(events);
    if x in FlattenAll(ts) {
      var t := InForest(known, ts, x);
      var n :| Up(known, x, n) == t.id;
      RootedStep(known, x, n);
    } else if x in known && Rooted(known, x) {
      var r := RootOf(known, x);
      var t := NamedTree(ts, r);
      TreeIsBelow(known, t, x);
      InFlattenAll(ts, x);
      assert false;
    }
  }

  // ---------- Contiguous subtrees ----------

  lemma {:induction false} BlockInTree(known: Clock, children: Children, t: Tree, v: EventId)
    returns (a: seq<EventId>, sub: Tree, b: seq<EventId>)
    requires Shaped(known, children, t) && v in Flatten(t)
    ensures Shaped(known, children, sub) && sub.id == v
    ensures Flatten(t) == a + Flatten(sub) + b
    decreases t
  {
    if v == t.id {
      a, sub, b := [], t, [];
    } else {
      a, sub, b := BlockInAll(known, children, t.kids, v);
      Prepend([t.id], a, Flatten(sub), b);
      a := [t.id] + a;
    }
  }

  lemma {:induction false} BlockInAll(known: Clock, children: Children, ts: seq<Tree>, v: EventId)
    returns (a: seq<EventId>, sub: Tree, b: seq<EventId>)
    requires AllShaped(known, children, ts) && v in FlattenAll(ts)
    ensures Shaped(known, children, sub) && sub.id == v
    ensures FlattenAll(ts) == a + Flatten(sub) + b
    decreases ts
  {
    if v in Flatten(ts[0]) {
      a, sub, b := BlockInTree(known, children, ts[0], v);
      Append(a, Flatten(sub), b, FlattenAll(ts[1..]));
      b := b + FlattenAll(ts[1..]);
    } else {
      a, sub, b := BlockInAll(known, children, ts[1..], v);
      Prepend(Flatten(ts[0]), a, Flatten(sub), b);
      a := Flatten(ts[0]) + a;
    }
  }

  lemma Prepend<T>(x: seq<T>, a: seq<T>, m: seq<T>, b: seq<T>)
    ensures x + (a + m + b) == (x + a) + m + b
  {
  }

  lemma Append<T>(a: seq<T>, m: seq<T>, b: seq<T>, x: seq<T>)
    ensures (a + m + b) + x == a + m + (b + x)
  {
  }

  lemma SubtreeBlock(events: seq<Event>, v: EventId) returns (a: seq<EventId>, sub: Tree, b: seq<EventId>)
    requires WellNamed(events) && v in Reached(events)
    ensures Reached(events) == a + Flatten(sub) + b && sub.id == v
    ensures Shaped(ById(events), File(ById(events), events), sub)
    ensures Grown(ById(events), sub)
  {
    var known, children := ById(events), File(ById(events), events);
    var ts := GrownForest(events);
    LogIsForest(events);
    a, sub, b := BlockInAll(known, children, ts, v);
    ReachedIffRooted(events, v);
    ShapedGrown(known, children, sub);
  }

  // Everything below an event follows it without a gap, and nothing else does.
  lemma SubtreeContiguous(events: seq<Event>, v: EventId) returns (i: nat, n: nat)
    requires WellNamed(events) && v in Reached(events)
    ensures i + n <= |Reached(events)| && n > 0 && Reached(events)[i] == v
    ensures forall x :: x in Reached(events)[i..i + n] <==> x in ById(events) && Below(ById(events), x, v)
  {
    var a, sub, b := SubtreeBlock(events, v);
    i, n := |a|, |Flatten(sub)|;
    assert Reached(events)[i..i + n] == Flatten(sub);
    ByIdKeys(events, ROOT);
    forall x { TreeIsBelow(ById(events), sub, x); }
  }

  lemma ParentReached(events: seq<Event>, c: EventId)
    requires WellNamed(events) && c in Reached(events)
    requires c in ById(events) && Key(ById(events), c) != ROOT
    ensures Key(ById(events), c) in Reached(events)
  {
    var known := ById(events);
    ByIdKeys(events, ROOT);
    ReachedIffRooted(events, c);
    var n: nat :| Up(known, c, n) == ROOT;
    assert Up(known, Key(known, c), n - 1) == ROOT;
    ReachedIffRooted(events, Key(known, c));
  }

  lemma IndexInBlock(s: seq<EventId>, a: seq<EventId>, v: EventId, rest: seq<EventId>, b: seq<EventId>, c: EventId) returns (j: nat)
    requires s == a + ([v] + rest) + b && c in rest
    ensures |a| < j < |s| && s[|a|] == v && s[j] == c
  {
    var k :| 0 <= k < |rest| && rest[k] == c;
    j := |a| + 1 + k;
  }

  lemma KeyFirst(events: seq<Event>, c: EventId) returns (i: nat, j: nat)
    requires WellNamed(events) && c in Reached(events)
    requires c in ById(events) && Key(ById(events), c) != ROOT
    ensures i < j < |Reached(events)|
    ensures Reached(events)[i] == Key(ById(events), c) && Reached(events)[j] == c
  {
    ParentReached(events, c);
    var a, sub, b := SubtreeBlock(events, Key(ById(events), c));
    InFlattenAll(sub.kids, c);
    i := |a|;
    j := IndexInBlock(Reached(events), a, sub.id, FlattenAll(sub.kids), b, c);
  }

  // ---------- Siblings ----------

  ghost predicate Precedes(s: seq<EventId>, x: EventId, y: EventId) {
    exists i, j :: 0 <= i < j < |s| && s[i] == x && s[j] == y
  }

  ghost predicate LoggedBefore(events: seq<Event>, x: EventId, y: EventId) {
    exists i, j :: 0 <= i < j < |events| && events[i].id == x && events[j].id == y
  }

  // `x` may stand before `y` in a list sorted downwards from `ids`.
  ghost predicate NotAfter(known: Clock, ids: seq<EventId>, x: EventId, y: EventId) {
    Time(known, x) > Time(known, y) || (Time(known, x) == Time(known, y) && Precedes(ids, x, y))
  }

  ghost predicate Descending(known: Clock, ids: seq<EventId>, s: seq<EventId>) {
    s == [] || (Descending(known, ids, Init(s)) && forall x | x in Init(s) :: NotAfter(known, ids, x, Last(s)))
  }

  lemma AppendLeast(known: Clock, ids: seq<EventId>, s: seq<EventId>, x: EventId)
    requires Descending(known, ids, s) && forall y | y in s :: NotAfter(known, ids, y, x)
    ensures Descending(known, ids, s + [x])
  {
    assert Init(s + [x]) == s;
  }

  lemma {:induction false} InsertDownSorted(known: Clock, ids: seq<EventId>, s: seq<EventId>, x: EventId)
    requires Descending(known, ids, s) && forall y | y in s :: Precedes(ids, y, x)
    ensures Descending(known, ids, InsertDown(known, s, x))
  {
    if s == [] {
      AppendLeast(known, ids, s, x);
    } else if Time(known, Last(s)) >= Time(known, x) {
      SplitLast(s);
      forall y | y in s ensures NotAfter(known, ids, y, x) {
        assert y in Init(s) ==> NotAfter(known, ids, y, Last(s));
      }
      AppendLeast(known, ids, s, x);
    } else {
      SplitLast(s);
      InsertDownSorted(known, ids, Init(s), x);
      var r := InsertDown(known, Init(s), x);
      forall y | y in r ensures NotAfter(known, ids, y, Last(s)) {
        assert y in multiset(r);
        assert y in Init(s) || y == x;
      }
      AppendLeast(known, ids, r, Last(s));
    }
  }

  lemma {:induction false} DescendingGrows(known: Clock, ids: seq<EventId>, x: EventId, s: seq<EventId>)
    requires Descending(known, ids, s)
    ensures Descending(known, ids + [x], s)
  {
    if s != [] {
      DescendingGrows(known, ids, x, Init(s));
      forall y | y in Init(s) && Precedes(ids, y, Last(s)) ensures Precedes(ids + [x], y, Last(s)) {
        var i, j :| 0 <= i < j < |ids| && ids[i] == y && ids[j] == Last(s);
        assert (ids + [x])[i] == y && (ids + [x])[j] == Last(s);
      }
    }
  }

  lemma {:induction false} SortDownSorted(known: Clock, ids: seq<EventId>)
    ensures Descending(known, ids, SortDown(known, ids))
  {
    if ids != [] {
      SplitLast(ids);
      var s := SortDown(known, Init(ids));
      SortDownSorted(known, Init(ids));
      DescendingGrows(known, Init(ids), Last(ids), s);
      SameElems(s, Init(ids));
      forall y | y in s ensures Precedes(ids, y, Last(ids)) {
        var i :| 0 <= i < |Init(ids)| && Init(ids)[i] == y;
        assert ids[i] == y && ids[|ids| - 1] == Last(ids);
      }
      InsertDownSorted(known, ids, s, Last(ids));
    }
  }

  lemma {:induction false} DescendingAt(known: Clock, ids: seq<EventId>, s: seq<EventId>, i: nat, j: nat)
    requires Descending(known, ids, s) && i < j < |s|
    ensures NotAfter(known, ids, s[i], s[j])
  {
    if j == |s| - 1 {
      assert s[i] == Init(s)[i] && s[i] in Init(s);
    } else {
      DescendingAt(known, ids, Init(s), i, j);
    }
  }

  lemma {:induction false} FileOrder(known: Clock, events: seq<Event>, p: EventId, i: nat, j: nat)
    requires i < j < |Kids(File(known, events), p)|
    ensures LoggedBefore(events, Kids(File(known, events), p)[i], Kids(File(known, events), p)[j])
  {
    var kids, rest := Kids(File(known, events), p), Kids(File(known, Init(events)), p);
    var last := |events| - 1;
    if j < |rest| {
      FileOrder(known, Init(events), p, i, j);
      var k, l :| 0 <= k < l < |Init(events)| && Init(events)[k].id == rest[i] && Init(events)[l].id == rest[j];
      assert events[k].id == kids[i] && events[l].id == kids[j];
    } else {
      var k := FileSource(known, Init(events), p, i);
      assert events[k].id == kids[i] && events[last].id == kids[j];
    }
  }

  lemma {:induction false} FileSource(known: Clock, events: seq<Event>, p: EventId, i: nat) returns (k: nat)
    requires i < |Kids(File(known, events), p)|
    ensures k < |events| && events[k].id == Kids(File(known, events), p)[i]
  {
    if i < |Kids(File(known, Init(events)), p)| {
      k := FileSource(known, Init(events), p, i);
    } else {
      k := |events| - 1;
    }
  }

  lemma {:induction false} UniqueAt(events: seq<Event>, i: nat, j: nat)
    requires UniqueIds(events) && i < j < |events| && events[i].id != ""
    ensures events[i].id != events[j].id
  {
    if j == |events| - 1 {
      assert events[i] == Init(events)[i];
    } else {
      UniqueAt(Init(events), i, j);
    }
  }

  // Of two children of one parent, the earlier comes first; of two equally
  // timed ones, the later logged.
  ghost predicate Sooner(events: seq<Event>, x: EventId, y: EventId) {
    var known := ById(events);
    Time(known, x) < Time(known, y) || (Time(known, x) == Time(known, y) && LoggedBefore(events, y, x))
  }

  lemma {:induction false} NamesInOrder(ts: seq<Tree>, i: nat, j: nat) returns (k: nat, l: nat)
    requires i < j < |ts|
    ensures k < l < |FlattenAll(ts)| && FlattenAll(ts)[k] == ts[i].id && FlattenAll(ts)[l] == ts[j].id
  {
    var first := Flatten(ts[0]);
    if i == 0 {
      k := 0;
      InFlattenAll(ts[1..], ts[j].id);
      assert Names(ts[1..])[j - 1] == ts[j].id;
      var m :| 0 <= m < |FlattenAll(ts[1..])| && FlattenAll(ts[1..])[m] == ts[j].id;
      l := |first| + m;
    } else {
      k, l := NamesInOrder(ts[1..], i - 1, j - 1);
      k, l := |first| + k, |first| + l;
    }
  }

  lemma VisitIndex(known: Clock, ids: seq<EventId>, x: EventId, y: EventId) returns (i: nat, j: nat)
    requires NoDup(ids) && x in ids && y in ids && x != y && !NotAfter(known, ids, x, y)
    ensures i < j < |VisitOrder(known, ids)|
    ensures VisitOrder(known, ids)[i] == x && VisitOrder(known, ids)[j] == y
  {
    var s := SortDown(known, ids);
    SortDownSorted(known, ids);
    SameElems(s, ids);
    var k :| 0 <= k < |s| && s[k] == x;
    var l :| 0 <= l < |s| && s[l] == y;
    if k < l {
      DescendingAt(known, ids, s, k, l);
      assert false;
    }
    i, j := |s| - 1 - k, |s| - 1 - l;
  }

  lemma SoonerVisited(events: seq<Event>, p: EventId, x: EventId, y: EventId) returns (i: nat, j: nat)
    requires WellNamed(events) && Sooner(events, x, y)
    requires x in Kids(File(ById(events), events), p) && y in Kids(File(ById(events), events), p)
    ensures var order := VisitOrder(ById(events), Kids(File(ById(events), events), p));
            i < j < |order| && order[i] == x && order[j] == y
  {
    var known := ById(events);
    var ids := Kids(File(known, events), p);
    FileEdges(known, events, p, x);
    FileEdges(known, events, p, y);
    if LoggedBefore(events, y, x) && Precedes(ids, x, y) {
      var k, l :| 0 <= k < l < |ids| && ids[k] == x && ids[l] == y;
      FileOrder(known, events, p, k, l);
      OneOrder(events, x, y);
      assert false;
    }
    OneOrder(events, x, x);
    i, j := VisitIndex(known, ids, x, y);
  }

  lemma UniqueIndex(events: seq<Event>, i: nat, j: nat)
    requires UniqueIds(events) && i < |events| && j < |events|
    requires events[i].id == events[j].id != ""
    ensures i == j
  {
    if i < j {
      UniqueAt(events, i, j);
    } else if j < i {
      UniqueAt(events, j, i);
    }
  }

  lemma OneOrder(events: seq<Event>, x: EventId, y: EventId)
    requires UniqueIds(events) && x != "" && y != ""
    ensures LoggedBefore(events, x, y) ==> !LoggedBefore(events, y, x)
  {
    if LoggedBefore(events, x, y) && LoggedBefore(events, y, x) {
      var i, j :| 0 <= i < j < |events| && events[i].id == x && events[j].id == y;
      var k, l :| 0 <= k < l < |events| && events[k].id == y && events[l].id == x;
      UniqueIndex(events, i, l);
      UniqueIndex(events, j, k);
      assert false;
    }
  }

  lemma Shift(s: seq<EventId>, a: seq<EventId>, v: EventId, rest: seq<EventId>, b: seq<EventId>, k: nat)
    requires s == a + ([v] + rest) + b && k < |rest|
    ensures |a| + 1 + k < |s| && s[|a| + 1 + k] == rest[k]
  {
  }

  lemma KidsInBlock(s: seq<EventId>, a: seq<EventId>, sub: Tree, b: seq<EventId>, i: nat, j: nat) returns (k: nat, l: nat)
    requires s == a + Flatten(sub) + b && i < j < |sub.kids|
    ensures k < l < |s| && s[k] == Names(sub.kids)[i] && s[l] == Names(sub.kids)[j]
  {
    var m, n := NamesInOrder(sub.kids, i, j);
    Shift(s, a, sub.id, FlattenAll(sub.kids), b, m);
    Shift(s, a, sub.id, FlattenAll(sub.kids), b, n);
    k, l := |a| + 1 + m, |a| + 1 + n;
  }

  lemma SiblingsBelow(events: seq<Event>, p: EventId, order: seq<EventId>, i: nat, j: nat) returns (k: nat, l: nat)
    requires WellNamed(events) && p in Reached(events)
    requires order == VisitOrder(ById(events), Kids(File(ById(events), events), p))
    requires i < j < |order|
    ensures k < l < |Reached(events)| && Reached(events)[k] == order[i] && Reached(events)[l] == order[j]
  {
    var a, sub, b := SubtreeBlock(events, p);
    k, l := KidsInBlock(Reached(events), a, sub, b, i, j);
  }

  lemma SoonerFirst(events: seq<Event>, x: EventId, y: EventId) returns (k: nat, l: nat)
    requires WellNamed(events) && x in Reached(events)
    requires x in ById(events) && y in ById(events) && Key(ById(events), x) == Key(ById(events), y)
    requires Sooner(events, x, y)
    ensures k < l < |Reached(events)| && Reached(events)[k] == x && Reached(events)[l] == y
  {
    var p := Key(ById(events), x);
    LogIsForest(events);
    var i, j := SoonerVisited(events, p, x, y);
    if p == ROOT {
      var ts := GrownForest(events);
      assert Names(ts)[i] == ts[i].id && Names(ts)[j] == ts[j].id;
      k, l := NamesInOrder(ts, i, j);
    } else {
      ParentReached(events, x);
      k, l := SiblingsBelow(events, p, VisitOrder(ById(events), Kids(File(ById(events), events), p)), i, j);
    }
  }

  // ---------- The timeline ----------

  ghost function Lookup(known: Clock, ids: seq<EventId>): (events: seq<Event>)
    requires Elems(ids) <= known.Keys
    ensures |events| == |ids|
    ensures forall i | 0 <= i < |ids| :: events[i] == known[ids[i]]
  {
    seq(|ids|, i requires 0 <= i < |ids| => assert ids[i] in Elems(ids); known[ids[i]])
  }

  lemma UnseenLast(ids: seq<EventId>, seen: set<EventId>)
    requires ids != []
    ensures Unseen(ids, seen) == Unseen(Init(ids), seen) + if Last(ids) in seen then [] else [Last(ids)]
    ensures Last(ids) in seen ==> Unseen(ids, seen) == Unseen(Init(ids), seen)
  {
  }

  lemma {:induction false} UnseenElems(ids: seq<EventId>, seen: set<EventId>)
    ensures Elems(Unseen(ids, seen)) == Elems(ids) - seen
    ensures NoDup(ids) ==> NoDup(Unseen(ids, seen))
  {
    if ids != [] {
      SplitLast(ids);
      UnseenElems(Init(ids), seen);
      UnseenLast(ids, seen);
      AppendOne(Unseen(Init(ids), seen), Last(ids));
      assert Last(ids) in Init(ids) <==> Last(ids) in Elems(Init(ids));
    }
  }

  lemma {:induction false} WalkKnown(known: Clock, children: Children, stack: seq<EventId>, seen: set<EventId>)
    requires Elems(stack) <= known.Keys && ChildrenKnown(known, children)
    ensures Elems(Walk(known, children, stack, seen)) <= known.Keys
    decreases |known.Keys - seen|, |stack|
  {
    if stack != [] {
      var node := Last(stack);
      SplitLast(stack);
      if node in seen {
        WalkKnown(known, children, Init(stack), seen);
      } else {
        PushKnown(known, children, Init(stack), node);
        Fewer(known.Keys, seen, node);
        var next := Init(stack) + SortDown(known, Kids(children, node));
        WalkKnown(known, children, next, seen + {node});
        ElemsConcat([node], Walk(known, children, next, seen + {node}));
      }
    }
  }

  // On any log, the walk and the left-over ids together are the logged ids, once each.
  lemma TimelineIds(events: seq<Event>)
    ensures NoDup(Reached(events) + Orphans(events))
    ensures Elems(Reached(events) + Orphans(events)) == ById(events).Keys
  {
    var known, ids := ById(events), IdOrder(events);
    var reached := Reached(events);
    forall id { ByIdKeys(events, id); }
    assert Elems(ids) == known.Keys;
    FileKnown(known, events);
    var children := File(known, events);
    var roots := SortDown(known, Kids(children, ROOT));
    SameElems(roots, Kids(children, ROOT));
    WalkDistinct(known, children, roots, {});
    WalkKnown(known, children, roots, {});
    ByIdKeys(events, "");
    UnseenElems(ids, Elems(reached));
    SameElems(Orphans(events), Unseen(ids, Elems(reached)));
    NoDupPermute(Orphans(events), Unseen(ids, Elems(reached)));
    NoDupConcat(reached, Orphans(events));
    ElemsConcat(reached, Orphans(events));
  }

  ghost function TimelineOf(events: seq<Event>): seq<Event> {
    TimelineIds(events);
    Lookup(ById(events), Reached(events) + Orphans(events))
  }

  // ---------- The timeline, event by event ----------

  lemma ReachedAt(events: seq<Event>, k: nat, e: Event)
    requires UniqueIds(events) && e in events && e.id != ""
    requires k < |Reached(events)| && Reached(events)[k] == e.id
    ensures k < |TimelineOf(events)| && TimelineOf(events)[k] == e
  {
    UniqueById(events, e);
    assert (Reached(events) + Orphans(events))[k] == e.id;
  }

  // A parent comes before its children.
  lemma ParentFirst(events: seq<Event>, p: Event, e: Event) returns (i: nat, j: nat)
    requires WellNamed(events) && p in events && e in events && e.id != "" && p.id == e.parent != ""
    requires e.id in Reached(events)
    ensures i < j < |TimelineOf(events)| && TimelineOf(events)[i] == p && TimelineOf(events)[j] == e
  {
    KeyIs(events, e);
    i, j := KeyFirst(events, e.id);
    ReachedAt(events, i, p);
    ReachedAt(events, j, e);
  }

  // Children of one parent, or both without.
  ghost predicate Siblings(events: seq<Event>, e: Event, f: Event) {
    if HasParent(events, e) then f.parent == e.parent else !HasParent(events, f)
  }

  ghost predicate LogsBefore(events: seq<Event>, e: Event, f: Event) {
    exists i, j :: 0 <= i < j < |events| && events[i] == e && events[j] == f
  }

  // Of siblings the earlier comes first; of equally timed ones, the later logged.
  lemma SiblingsInOrder(events: seq<Event>, e: Event, f: Event) returns (k: nat, l: nat)
    requires WellNamed(events) && e in events && f in events && e.id != "" && f.id != ""
    requires e.id in Reached(events) && Siblings(events, e, f)
    requires e.timestamp < f.timestamp || (e.timestamp == f.timestamp && LogsBefore(events, f, e))
    ensures k < l < |TimelineOf(events)| && TimelineOf(events)[k] == e && TimelineOf(events)[l] == f
  {
    KeyIs(events, e);
    KeyIs(events, f);
    k, l := SoonerFirst(events, e.id, f.id);
    ReachedAt(events, k, e);
    ReachedAt(events, l, f);
  }

  method FileChildren(known: Clock, scoped: seq<Event>) returns (children: Children)
    ensures children == File(known, scoped)
  {
    children := map[];
    for i := 0 to |scoped|
      invariant children == File(known, scoped[..i])
    {
      assert Init(scoped[..i + 1]) == scoped[..i];
      var ev := scoped[i];
      if ev.id != "" {
        var key := if ev.parent != "" && ev.parent in known then ev.parent else ROOT;
        children := children[key := Kids(children, key) + [ev.id]];
      }
    }
    assert scoped[..|scoped|] == scoped;
  }

  lemma LookupMore(known: Clock, ids: seq<EventId>, x: EventId)
    requires Elems(ids) <= known.Keys && x in known
    ensures Elems(ids + [x]) == Elems(ids) + {x}
    ensures Elems(ids + [x]) <= known.Keys && Lookup(known, ids + [x]) == Lookup(known, ids) + [known[x]]
  {
    ElemsConcat(ids, [x]);
  }

  // The walk so far, and what the rest of it will still emit.
  ghost predicate OnTrack(known: Clock, children: Children, stack: seq<EventId>, seen: set<EventId>,
                          walked: seq<EventId>, ordered: seq<Event>, whole: seq<EventId>) {
    && ChildrenKnown(known, children) && Elems(stack) <= known.Keys
    && Elems(walked) == seen && seen <= known.Keys
    && ordered == Lookup(known, walked)
    && walked + Walk(known, children, stack, seen) == whole
  }

  lemma TrackSkip(known: Clock, children: Children, stack: seq<EventId>, seen: set<EventId>,
                  walked: seq<EventId>, ordered: seq<Event>, whole: seq<EventId>)
    requires stack != [] && OnTrack(known, children, stack, seen, walked, ordered, whole)
    ensures Last(stack) in known
    ensures Last(stack) in seen ==> OnTrack(known, children, Init(stack), seen, walked, ordered, whole)
  {
    SplitLast(stack);
    assert Last(stack) in Elems(stack);
  }

  lemma TrackStep(known: Clock, children: Children, stack: seq<EventId>, seen: set<EventId>,
                  walked: seq<EventId>, ordered: seq<Event>, whole: seq<EventId>)
    requires stack != [] && Last(stack) in known && Last(stack) !in seen
    requires OnTrack(known, children, stack, seen, walked, ordered, whole)
    ensures var node := Last(stack);
            OnTrack(known, children, Init(stack) + SortDown(known, Kids(children, node)), seen + {node},
                    walked + [node], ordered + [known[node]], whole)
    ensures |known.Keys - (seen + {Last(stack)})| < |known.Keys - seen|
  {
    var node := Last(stack);
    SplitLast(stack);
    WalkUnfold(known, children, Init(stack), node, seen);
    Fewer(known.Keys, seen, node);
    LookupMore(known, walked, node);
    ConcatAssoc3(walked, [node], Walk(known, children, Init(stack) + SortDown(known, Kids(children, node)), seen + {node}));
  }

  lemma TrackEnd(known: Clock, children: Children, seen: set<EventId>, walked: seq<EventId>, ordered: seq<Event>, whole: seq<EventId>)
    requires OnTrack(known, children, [], seen, walked, ordered, whole)
    ensures seen == Elems(whole) && seen <= known.Keys && ordered == Lookup(known, whole)
  {
    assert walked + [] == walked;
  }

  lemma TrackStart(known: Clock, children: Children, stack: seq<EventId>)
    requires ChildrenKnown(known, children) && Elems(stack) <= known.Keys
    ensures OnTrack(known, children, stack, {}, [], [], Walk(known, children, stack, {}))
  {
    assert [] + Walk(known, children, stack, {}) == Walk(known, children, stack, {});
  }

  method WalkChildren(known: Clock, children: Children) returns (ordered: seq<Event>, seen: set<EventId>)
    requires ChildrenKnown(known, children) && Elems(SortDown(known, Kids(children, ROOT))) <= known.Keys
    ensures var walked := Walk(known, children, SortDown(known, Kids(children, ROOT)), {});
            seen == Elems(walked) && seen <= known.Keys && ordered == Lookup(known, walked)
  {
    ordered, seen := [], {};
    ghost var walked := [];
    var stack := SortDown(known, Kids(children, ROOT));
    ghost var whole := Walk(known, children, stack, {});
    TrackStart(known, children, stack);
    while stack != []
      invariant OnTrack(known, children, stack, seen, walked, ordered, whole)
      decreases |known.Keys - seen|, |stack|
    {
      var node := Last(stack);
      TrackSkip(known, children, stack, seen, walked, ordered, whole);
      if node !in seen {
        TrackStep(known, children, stack, seen, walked, ordered, whole);
        seen := seen + {node};
        walked := walked + [node];
        ordered := ordered + [known[node]];
        stack := Init(stack) + SortDown(known, Kids(children, node));
      } else {
        stack := Init(stack);
      }
    }
    TrackEnd(known, children, seen, walked, ordered, whole);
  }

  method AppendTail(known: Clock, ghost walked: seq<EventId>, ordered0: seq<Event>, tail: seq<EventId>) returns (ordered: seq<Event>)
    requires Elems(walked) <= known.Keys && Elems(walked + tail) <= known.Keys && ordered0 == Lookup(known, walked)
    ensures ordered == Lookup(known, walked + tail)
  {
    ordered := ordered0;
    assert walked + tail[..0] == walked;
    for i := 0 to |tail|
      invariant Elems(walked + tail[..i]) <= known.Keys && ordered == Lookup(known, walked + tail[..i])
    {
      assert (walked + tail)[|walked| + i] == tail[i] && tail[i] in Elems(walked + tail);
      LookupMore(known, walked + tail[..i], tail[i]);
      assert walked + tail[..i + 1] == (walked + tail[..i]) + [tail[i]];
      ordered := ordered + [known[tail[i]]];
    }
    assert tail[..|tail|] == tail;
  }

  method ReconstructTimeline(events: seq<Event>, deployment: Option<string>) returns (ordered: seq<Event>)
    ensures ordered == TimelineOf(Scope(events, deployment))
  {
    var scoped := Scope(events, deployment);
    var known := ById(scoped);
    var children := FileChildren(known, scoped);
    StartWalk(scoped);
    var seen: set<EventId>;
    ordered, seen := WalkChildren(known, children);
    var orphans := Unseen(IdOrder(scoped), seen);
    TimelineIds(scoped);
    ordered := AppendTail(known, Reached(scoped), ordered, SortUp(known, orphans));
  }

  lemma StartWalk(events: seq<Event>)
    ensures var known, children := ById(events), File(ById(events), events);
            var roots := SortDown(known, Kids(children, ROOT));
            && ChildrenKnown(known, children) && Elems(roots) <= known.Keys
            && Reached(events) == Walk(known, children, roots, {})
  {
    forall id { ByIdKeys(events, id); }
    FileKnown(ById(events), events);
    SameElems(SortDown(ById(events), Kids(File(ById(events), events), ROOT)), Kids(File(ById(events), events), ROOT));
  }

  // The timeline is a permutation of the events that have an id.
  lemma TimelinePermutes(events: seq<Event>, e: Event)
    requires WellNamed(events)
    ensures e in TimelineOf(events) <==> e in events && e.id != ""
    ensures UniqueIds(TimelineOf(events))
  {
    var known, ids := ById(events), Reached(events) + Orphans(events);
    TimelineIds(events);
    if e in TimelineOf(events) {
      var i :| 0 <= i < |ids| && TimelineOf(events)[i] == e;
      assert ids[i] in Elems(ids);
      ByIdKeys(events, ids[i]);
    }
    if e in events && e.id != "" {
      UniqueById(events, e);
      assert e.id in Elems(ids);
      var i :| 0 <= i < |ids| && ids[i] == e.id;
      assert TimelineOf(events)[i] == e;
    }
    forall id { ByIdKeys(events, id); }
    LookupUnique(known, ids);
  }

  lemma {:induction false} LookupUnique(known: Clock, ids: seq<EventId>)
    requires Elems(ids) <= known.Keys && NoDup(ids)
    requires forall id | id in known :: known[id].id == id
    ensures UniqueIds(Lookup(known, ids))
  {
    if ids != [] {
      SplitLast(ids);
      assert Lookup(known, ids) == Lookup(known, Init(ids)) + [known[Last(ids)]];
      LookupUnique(known, Init(ids));
      assert Init(Lookup(known, ids)) == Lookup(known, Init(ids));
      forall i | 0 <= i < |ids| - 1 ensures Lookup(known, Init(ids))[i].id != Last(ids) {
        assert Init(ids)[i] in Elems(Init(ids));
      }
    }
  }

  // Sorting up is sorting down by the opposite times.
  function Opposite(known: Clock): Clock {
    map id | id in known :: known[id].(timestamp := -known[id].timestamp)
  }

  lemma {:induction false} InsertUpIsDown(known: Clock, s: seq<EventId>, x: EventId)
    ensures InsertUp(known, s, x) == InsertDown(Opposite(known), s, x)
  {
    if s != [] { InsertUpIsDown(known, Init(s), x); }
  }

  lemma {:induction false} SortUpIsDown(known: Clock, ids: seq<EventId>)
    ensures SortUp(known, ids) == SortDown(Opposite(known), ids)
  {
    if ids != [] {
      SortUpIsDown(known, Init(ids));
      InsertUpIsDown(known, SortUp(known, Init(ids)), Last(ids));
    }
  }

  lemma {:induction false} IdLogged(events: seq<Event>, i: nat) returns (k: nat)
    requires i < |IdOrder(events)|
    ensures k < |events| && events[k].id == IdOrder(events)[i]
  {
    if i < |IdOrder(Init(events))| {
      k := IdLogged(Init(events), i);
    } else {
      k := |events| - 1;
    }
  }

  lemma {:induction false} IdsInLogOrder(events: seq<Event>, i: nat, j: nat)
    requires i < j < |IdOrder(events)|
    ensures LoggedBefore(events, IdOrder(events)[i], IdOrder(events)[j])
  {
    var rest := IdOrder(Init(events));
    if j < |rest| {
      IdsInLogOrder(Init(events), i, j);
      var k, l :| 0 <= k < l < |Init(events)| && Init(events)[k].id == rest[i] && Init(events)[l].id == rest[j];
      assert events[k].id == rest[i] && events[l].id == rest[j];
    } else {
      var k := IdLogged(Init(events), i);
      assert events[k].id == rest[i] && events[|events| - 1].id == IdOrder(events)[j];
    }
  }

  lemma {:induction false} UnseenSource(ids: seq<EventId>, seen: set<EventId>, i: nat) returns (k: nat)
    requires i < |Unseen(ids, seen)|
    ensures k < |ids| && ids[k] == Unseen(ids, seen)[i]
  {
    if i < |Unseen(Init(ids), seen)| {
      k := UnseenSource(Init(ids), seen, i);
    } else {
      k := |ids| - 1;
    }
  }

  lemma {:induction false} UnseenOrder(ids: seq<EventId>, seen: set<EventId>, i: nat, j: nat)
    requires i < j < |Unseen(ids, seen)|
    ensures Precedes(ids, Unseen(ids, seen)[i], Unseen(ids, seen)[j])
  {
    var rest := Unseen(Init(ids), seen);
    if j < |rest| {
      UnseenOrder(Init(ids), seen, i, j);
      var k, l :| 0 <= k < l < |Init(ids)| && Init(ids)[k] == rest[i] && Init(ids)[l] == rest[j];
      assert ids[k] == rest[i] && ids[l] == rest[j];
    } else {
      var k := UnseenSource(Init(ids), seen, i);
      assert ids[k] == rest[i] && ids[|ids| - 1] == Unseen(ids, seen)[j];
    }
  }

  lemma OrphansInLogOrder(events: seq<Event>, x: EventId, y: EventId)
    requires Precedes(Unseen(IdOrder(events), Elems(Reached(events))), x, y)
    ensures LoggedBefore(events, x, y)
  {
    var ids, seen := IdOrder(events), Elems(Reached(events));
    var i, j :| 0 <= i < j < |Unseen(ids, seen)| && Unseen(ids, seen)[i] == x && Unseen(ids, seen)[j] == y;
    UnseenOrder(ids, seen, i, j);
    var k, l :| 0 <= k < l < |ids| && ids[k] == x && ids[l] == y;
    IdsInLogOrder(events, k, l);
  }

  lemma UpAt(known: Clock, ids: seq<EventId>, i: nat, j: nat)
    requires i < j < |SortUp(known, ids)| && SortUp(known, ids)[i] in known && SortUp(known, ids)[j] in known
    ensures var x, y := SortUp(known, ids)[i], SortUp(known, ids)[j];
            && known[x].timestamp <= known[y].timestamp
            && (known[x].timestamp == known[y].timestamp ==> Precedes(ids, x, y))
  {
    SortUpIsDown(known, ids);
    SortDownSorted(Opposite(known), ids);
    DescendingAt(Opposite(known), ids, SortUp(known, ids), i, j);
  }

  lemma OrphanKnown(events: seq<Event>, i: nat)
    requires i < |Orphans(events)|
    ensures Orphans(events)[i] in ById(events)
  {
    TimelineIds(events);
    var all := Reached(events) + Orphans(events);
    assert all[|Reached(events)| + i] == Orphans(events)[i];
    assert Orphans(events)[i] in Elems(all);
  }

  lemma TailOrder(events: seq<Event>, i: nat, j: nat)
    requires i < j < |Orphans(events)|
    ensures var known, x, y := ById(events), Orphans(events)[i], Orphans(events)[j];
            && x in known && y in known && known[x].timestamp <= known[y].timestamp
            && (known[x].timestamp == known[y].timestamp ==> LoggedBefore(events, x, y))
  {
    OrphanKnown(events, i);
    OrphanKnown(events, j);
    var ids := Unseen(IdOrder(events), Elems(Reached(events)));
    UpAt(ById(events), ids, i, j);
    if Precedes(ids, Orphans(events)[i], Orphans(events)[j]) {
      OrphansInLogOrder(events, Orphans(events)[i], Orphans(events)[j]);
    }
  }

  // Its tail is exactly the events whose parent chain enters a cycle, in timestamp
  // order, and equally timed ones as they were logged.
  lemma TailIsCyclic(events: seq<Event>, id: EventId)
    requires WellNamed(events)
    ensures id in Orphans(events) <==> id in ById(events) && EntersCycle(ById(events), id)
    ensures forall i, j | 0 <= i < j < |Orphans(events)| ::
              var known, x, y := ById(events), Orphans(events)[i], Orphans(events)[j];
              && x in known && y in known && known[x].timestamp <= known[y].timestamp
              && (known[x].timestamp == known[y].timestamp ==> LoggedBefore(events, x, y))
  {
    var known := ById(events);
    TimelineIds(events);
    ElemsConcat(Reached(events), Orphans(events));
    NoDupConcat(Reached(events), Orphans(events));
    ReachedIffRooted(events, id);
    ByIdKeys(events, ROOT);
    if id in known { RootOrCycle(known, id); }
    assert id in Orphans(events) ==> id in Elems(Orphans(events));
    assert id in known ==> id in Elems(Reached(events) + Orphans(events));
    forall i: nat, j: nat | i < j < |Orphans(events)|
      ensures var x, y := Orphans(events)[i], Orphans(events)[j];
              && x in known && y in known && known[x].timestamp <= known[y].timestamp
              && (known[x].timestamp == known[y].timestamp ==> LoggedBefore(events, x, y))
    {
      TailOrder(events, i, j);
    }
  }
}
