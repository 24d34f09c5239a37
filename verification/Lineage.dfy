/**
 * Lineage verification (resilience/replay.py): every event has an id, every named
 * parent is logged, and no event is its own ancestor.
 */
module Lineage {
  import opened Base
  import opened Events

  // The cycle search is an iterative depth-first search whose stack holds finishing
  // markers.

  type Graph = map<EventId, seq<EventId>>

  function Kids(g: Graph, p: EventId): seq<EventId> {
    if p in g then g[p] else []
  }

  function KeyOf(e: Event): EventId {
    if e.parent != "" then e.parent else ROOT
  }

  function AddEvent(g: Graph, e: Event): Graph {
    if e.id == "" then g else g[KeyOf(e) := Kids(g, KeyOf(e)) + [e.id]]
  }

  function GraphOf(events: seq<Event>): Graph {
    if events == [] then map[] else AddEvent(GraphOf(Init(events)), Last(events))
  }

  // `e` files `c` under `p` in the causality graph.
  predicate Files(e: Event, p: EventId, c: EventId) {
    e.id == c && c != "" && KeyOf(e) == p
  }

  lemma {:induction false} GraphEdges(events: seq<Event>, p: EventId, c: EventId)
    ensures c in Kids(GraphOf(events), p) <==> exists e :: e in events && Files(e, p, c)
    ensures p in GraphOf(events) ==> Kids(GraphOf(events), p) != []
  {
    if events != [] {
      SplitLast(events);
      GraphEdges(Init(events), p, c);
      assert forall e :: e in events <==> e in Init(events) || e == Last(events);
      if Files(Last(events), p, c) {
        assert Last(events) in events;
      }
    }
  }

  method BuildCausalityGraph(events: seq<Event>) returns (graph: Graph)
    ensures graph == GraphOf(events)
    ensures forall p, c :: c in Kids(graph, p) <==> exists e :: e in events && Files(e, p, c)
  {
    graph := map[];
    for i := 0 to |events|
      invariant graph == GraphOf(events[..i])
    {
      var ev := events[i];
      assert Init(events[..i + 1]) == events[..i];
      if ev.id != "" {
        var key := if ev.parent != "" then ev.parent else ROOT;
        if key !in graph {
          graph := graph[key := []];
        }
        graph := graph[key := graph[key] + [ev.id]];
      }
    }
    assert events[..|events|] == events;
    forall p, c { GraphEdges(events, p, c); }
  }

  // ---------- What the verdict means ----------

  ghost predicate IsWalk(g: Graph, p: seq<EventId>) {
    p != [] && forall i | 0 <= i < |p| - 1 :: p[i + 1] in Kids(g, p[i])
  }

  // A walk that leaves a real event and comes back to a node it has passed.
  ghost predicate Lasso(g: Graph, p: seq<EventId>) {
    IsWalk(g, p) && p[0] != ROOT && Last(p) in Init(p)
  }

  predicate Identified(events: seq<Event>) {
    forall e | e in events :: e.id != ""
  }

  predicate Logged(events: seq<Event>, id: EventId) {
    exists e | e in events :: e.id == id
  }

  predicate Closed(events: seq<Event>) {
    forall e | e in events :: e.id != "" && e.parent != "" ==> Logged(events, e.parent)
  }

  predicate NoSelfParent(events: seq<Event>) {
    forall e | e in events :: e.id != "" && e.parent != "" ==> e.parent != e.id
  }

  // What the search decides, on every log.
  ghost predicate Accepts(events: seq<Event>) {
    && Identified(events)
    && Closed(events)
    && NoSelfParent(events)
    && !exists p :: Lasso(GraphOf(events), p)
  }

  // `e` names `p` as the parent of `c`.
  predicate Names(e: Event, p: EventId, c: EventId) {
    e.parent == p && p != "" && e.id == c
  }

  predicate ParentEdge(events: seq<Event>, p: EventId, c: EventId) {
    exists e | e in events :: Names(e, p, c)
  }

  // A cycle of the parent relation, without reference to any sentinel.
  ghost predicate ParentCycle(events: seq<Event>, p: seq<EventId>) {
    && |p| >= 2
    && p[0] == Last(p)
    && forall i | 0 <= i < |p| - 1 :: ParentEdge(events, p[i], p[i + 1])
  }

  // The lineage property itself.
  ghost predicate LineageOk(events: seq<Event>) {
    Identified(events) && Closed(events) && !exists p :: ParentCycle(events, p)
  }

  // ---------- The search ----------

  datatype LineageError = MissingId | MissingParent(event: EventId, parent: EventId) | OwnParent(event: EventId) | Cycle(event: EventId)

  datatype Frame = Frame(node: EventId, finishing: bool)

  // The nodes with a pending finish marker, bottom of the stack first.
  ghost function Markers(stack: seq<Frame>): seq<EventId> {
    if stack == [] then []
    else if Last(stack).finishing then Markers(Init(stack)) + [Last(stack).node]
    else Markers(Init(stack))
  }

  // Each entry was pushed by the nearest marker below it, or is the start node.
  ghost predicate Rooted(g: Graph, start: EventId, stack: seq<Frame>) {
    stack == [] ||
    (&& Rooted(g, start, Init(stack))
     && var m := Markers(Init(stack));
        if m == [] then Last(stack).node == start else Last(stack).node in Kids(g, Last(m)))
  }

  // Each child of a marked node is in `settled` or higher up on the stack.
  ghost predicate Covered(g: Graph, stack: seq<Frame>, settled: set<EventId>) {
    stack == [] ||
    (&& Covered(g, Init(stack), settled + {Last(stack).node})
     && (Last(stack).finishing ==> Elems(Kids(g, Last(stack).node)) <= settled))
  }

  // Finish order: each finished node's children finished before it.
  ghost predicate Finished(g: Graph, done: seq<EventId>) {
    done == [] ||
    (&& Finished(g, Init(done))
     && Last(done) !in Init(done)
     && Elems(Kids(g, Last(done))) <= Elems(Init(done)))
  }

  lemma {:induction false} CoveredMonotone(g: Graph, stack: seq<Frame>, a: set<EventId>, b: set<EventId>)
    requires Covered(g, stack, a) && a <= b
    ensures Covered(g, stack, b)
  {
    if stack != [] {
      CoveredMonotone(g, Init(stack), a + {Last(stack).node}, b + {Last(stack).node});
    }
  }

  lemma {:induction false} RootedMarkers(g: Graph, start: EventId, stack: seq<Frame>)
    requires Rooted(g, start, stack)
    ensures var m := Markers(stack); m != [] ==> IsWalk(g, m) && m[0] == start
  {
    if stack != [] {
      RootedMarkers(g, start, Init(stack));
    }
  }

  ghost function Unfinished(nodes: seq<EventId>): (frames: seq<Frame>)
    ensures |frames| == |nodes|
  {
    seq(|nodes|, i requires 0 <= i < |nodes| => Frame(nodes[i], false))
  }

  // What one search from `start` keeps of its stack, ...
  ghost predicate OnStack(g: Graph, start: EventId, nodes: set<EventId>, stack: seq<Frame>) {
    Rooted(g, start, stack) && forall f | f in stack :: f.node in nodes
  }

  // ... of `path`, which is exactly the nodes with a pending finish marker, ...
  ghost predicate OnPath(stack: seq<Frame>, path: set<EventId>) {
    NoDup(Markers(stack)) && path == Elems(Markers(stack))
  }

  // ... and, while no cycle was met, of the visited nodes and their finish order.
  ghost predicate Clean(g: Graph, start: EventId, stack: seq<Frame>, path: set<EventId>,
                        visited: set<EventId>, done: seq<EventId>) {
    && Finished(g, done)
    && Covered(g, stack, Elems(done))
    && visited == Elems(done) + path
    && path !! Elems(done)
    && (start in visited || (stack != [] && stack[0] == Frame(start, false)))
  }

  lemma FoundCycle(g: Graph, start: EventId, stack: seq<Frame>)
    requires stack != [] && Rooted(g, start, stack) && start != ROOT
    requires Last(stack).node in Markers(Init(stack))
    ensures exists p :: Lasso(g, p)
  {
    var m := Markers(Init(stack));
    RootedMarkers(g, start, Init(stack));
    var p := m + [Last(stack).node];
    assert Init(p) == m;
    assert Lasso(g, p);
  }

  lemma PopMarker(stack: seq<Frame>, path: set<EventId>)
    requires stack != [] && Last(stack).finishing && OnPath(stack, path)
    ensures Last(stack).node in path && OnPath(Init(stack), path - {Last(stack).node})
  {
    var m := Markers(stack);
    assert Init(m) == Markers(Init(stack)) && Last(m) == Last(stack).node;
    SplitLast(m);
  }

  lemma FinishClean(g: Graph, start: EventId, stack: seq<Frame>, path: set<EventId>, visited: set<EventId>, done: seq<EventId>)
    requires stack != [] && Last(stack).finishing && Last(stack).node in path
    requires Clean(g, start, stack, path, visited, done)
    ensures Clean(g, start, Init(stack), path - {Last(stack).node}, visited, done + [Last(stack).node])
  {
    var node := Last(stack).node;
    ElemsConcat(done, [node]);
    assert Elems(done + [node]) == Elems(done) + {node};
    assert Init(done + [node]) == done;
  }

  lemma SkipClean(g: Graph, start: EventId, stack: seq<Frame>, path: set<EventId>, visited: set<EventId>, done: seq<EventId>)
    requires stack != [] && !Last(stack).finishing && Last(stack).node in visited && Last(stack).node !in path
    requires Clean(g, start, stack, path, visited, done)
    ensures Clean(g, start, Init(stack), path, visited, done)
  {
    assert Elems(done) + {Last(stack).node} == Elems(done);
  }

  lemma {:induction false} PushChildren(g: Graph, start: EventId, stack: seq<Frame>, kids: seq<EventId>, settled: set<EventId>)
    requires Rooted(g, start, stack) && Markers(stack) != []
    requires Elems(kids) <= Elems(Kids(g, Last(Markers(stack))))
    ensures Rooted(g, start, stack + Unfinished(kids))
    ensures Markers(stack + Unfinished(kids)) == Markers(stack)
    ensures Covered(g, stack, settled + Elems(kids)) ==> Covered(g, stack + Unfinished(kids), settled)
  {
    if kids == [] {
      assert stack + Unfinished(kids) == stack;
      assert settled + Elems(kids) == settled;
    } else {
      SplitLast(kids);
      PushChildren(g, start, stack, Init(kids), settled + {Last(kids)});
      var s := stack + Unfinished(kids);
      assert Init(s) == stack + Unfinished(Init(kids));
      assert Last(s) == Frame(Last(kids), false);
      assert settled + {Last(kids)} + Elems(Init(kids)) == settled + Elems(kids);
      assert Last(kids) in kids;
    }
  }

  ghost function Opened(g: Graph, stack: seq<Frame>): seq<Frame>
    requires stack != []
  {
    Init(stack) + [Frame(Last(stack).node, true)] + Unfinished(Kids(g, Last(stack).node))
  }

  lemma MarkTop(g: Graph, start: EventId, stack: seq<Frame>)
    requires stack != [] && Rooted(g, start, stack) && !Last(stack).finishing
    ensures var marked := Init(stack) + [Frame(Last(stack).node, true)];
            Rooted(g, start, marked) && Markers(marked) == Markers(stack) + [Last(stack).node]
  {
    assert Init(Init(stack) + [Frame(Last(stack).node, true)]) == Init(stack);
  }

  lemma OpenNode(g: Graph, start: EventId, nodes: set<EventId>, stack: seq<Frame>)
    requires stack != [] && !Last(stack).finishing
    requires OnStack(g, start, nodes, stack)
    requires Elems(Kids(g, Last(stack).node)) <= nodes
    ensures OnStack(g, start, nodes, Opened(g, stack))
    ensures Markers(Opened(g, stack)) == Markers(stack) + [Last(stack).node]
  {
    MarkTop(g, start, stack);
    PushChildren(g, start, Init(stack) + [Frame(Last(stack).node, true)], Kids(g, Last(stack).node), {});
  }

  lemma OpenPath(before: seq<EventId>, path: set<EventId>, node: EventId)
    requires NoDup(before) && path == Elems(before) && node !in path
    ensures NoDup(before + [node]) && path + {node} == Elems(before + [node])
  {
    ElemsConcat(before, [node]);
    assert Init(before + [node]) == before;
  }

  lemma OpenClean(g: Graph, start: EventId, stack: seq<Frame>, path: set<EventId>, visited: set<EventId>, done: seq<EventId>)
    requires stack != [] && !Last(stack).finishing && Last(stack).node !in visited
    requires Rooted(g, start, stack)
    requires Clean(g, start, stack, path, visited, done)
    ensures Clean(g, start, Opened(g, stack), path + {Last(stack).node}, visited + {Last(stack).node}, done)
  {
    var node := Last(stack).node;
    OpenCovered(g, start, stack, Elems(done));
    assert visited + {node} == Elems(done) + (path + {node});
    assert start in visited + {node} || Opened(g, stack)[0] == stack[0];
  }

  lemma OpenCovered(g: Graph, start: EventId, stack: seq<Frame>, settled: set<EventId>)
    requires stack != [] && !Last(stack).finishing && Rooted(g, start, stack) && Covered(g, stack, settled)
    ensures Covered(g, Opened(g, stack), settled)
  {
    var node := Last(stack).node;
    var kids := Kids(g, node);
    var marked := Init(stack) + [Frame(node, true)];
    assert Init(marked) == Init(stack);
    MarkTop(g, start, stack);
    CoveredMonotone(g, Init(stack), settled + {node}, settled + Elems(kids) + {node});
    PushChildren(g, start, marked, kids, settled);
  }

  method PushAll(bottom: seq<Frame>, children: seq<EventId>) returns (stack: seq<Frame>)
    ensures stack == bottom + Unfinished(children)
  {
    stack := bottom;
    for i := 0 to |children|
      invariant stack == bottom + Unfinished(children[..i])
    {
      stack := stack + [Frame(children[i], false)];
    }
    assert children[..|children|] == children;
  }

  ghost predicate Invariant(g: Graph, start: EventId, nodes: set<EventId>, stack: seq<Frame>, path: set<EventId>,
                            visited: set<EventId>, done: seq<EventId>, clean: bool, looped: bool) {
    && OnStack(g, start, nodes, stack)
    && OnPath(stack, path)
    && visited <= nodes
    && (clean && !looped ==> Clean(g, start, stack, path, visited, done))
    && (looped ==> exists p :: Lasso(g, p))
  }

  ghost predicate ClosedUnder(g: Graph, nodes: set<EventId>) {
    forall n | n in nodes :: Elems(Kids(g, n)) <= nodes
  }

  lemma StartSearch(g: Graph, start: EventId, nodes: set<EventId>, visited: set<EventId>, done: seq<EventId>)
    requires start in nodes && visited <= nodes
    ensures Invariant(g, start, nodes, [Frame(start, false)], {}, visited, done,
                      Finished(g, done) && visited == Elems(done), false)
  {
    assert Init([Frame(start, false)]) == [];
  }

  // The invariant through each kind of step. (Stated as implications: a caller
  // that has the invariant need not prove its conjuncts again.)
  lemma StepBack(g: Graph, start: EventId, nodes: set<EventId>, stack: seq<Frame>, path: set<EventId>,
                 visited: set<EventId>, done: seq<EventId>, clean: bool, looped: bool)
    requires stack != [] && Last(stack).finishing
    ensures var node := Last(stack).node;
            Invariant(g, start, nodes, stack, path, visited, done, clean, looped) ==>
            Invariant(g, start, nodes, Init(stack), path - {node}, visited, done + [node], clean, looped)
  {
    if Invariant(g, start, nodes, stack, path, visited, done, clean, looped) {
      PopMarker(stack, path);
      if clean && !looped { FinishClean(g, start, stack, path, visited, done); }
    }
  }

  lemma StepOver(g: Graph, start: EventId, nodes: set<EventId>, stack: seq<Frame>, path: set<EventId>,
                 visited: set<EventId>, done: seq<EventId>, clean: bool, looped: bool)
    requires stack != [] && !Last(stack).finishing && start != ROOT
    requires Last(stack).node in path || Last(stack).node in visited
    ensures Invariant(g, start, nodes, stack, path, visited, done, clean, looped) ==>
            Invariant(g, start, nodes, Init(stack), path, visited, done, clean, looped || Last(stack).node in path)
  {
    if Invariant(g, start, nodes, stack, path, visited, done, clean, looped) {
      if Last(stack).node in path {
        FoundCycle(g, start, stack);
      } else if clean && !looped {
        SkipClean(g, start, stack, path, visited, done);
      }
    }
  }

  lemma StepInto(g: Graph, start: EventId, nodes: set<EventId>, stack: seq<Frame>, path: set<EventId>,
                 visited: set<EventId>, done: seq<EventId>, clean: bool, looped: bool)
    requires stack != [] && !Last(stack).finishing && Last(stack).node !in path && Last(stack).node !in visited
    requires ClosedUnder(g, nodes)
    ensures var node := Last(stack).node;
            Invariant(g, start, nodes, stack, path, visited, done, clean, looped) ==>
            && Invariant(g, start, nodes, Opened(g, stack), path + {node}, visited + {node}, done, clean, looped)
            && |nodes - (visited + {node})| < |nodes - visited|
  {
    if Invariant(g, start, nodes, stack, path, visited, done, clean, looped) {
      var node := Last(stack).node;
      assert Last(stack) in stack;
      OpenNode(g, start, nodes, stack);
      OpenPath(Markers(stack), path, node);
      assert nodes - visited == (nodes - (visited + {node})) + {node};
      if clean && !looped { OpenClean(g, start, stack, path, visited, done); }
    }
  }

  // One turn of the search, at a node that is not a finish marker.
  method Meet(g: Graph, ghost start: EventId, ghost nodes: set<EventId>, stackBefore: seq<Frame>, pathBefore: set<EventId>,
              visitedBefore: set<EventId>, ghost done: seq<EventId>, ghost clean: bool, cyclesBefore: seq<LineageError>)
    returns (stack: seq<Frame>, path: set<EventId>, visited: set<EventId>, cycles: seq<LineageError>)
    requires stackBefore != [] && !Last(stackBefore).finishing && start != ROOT && ClosedUnder(g, nodes)
    requires Invariant(g, start, nodes, stackBefore, pathBefore, visitedBefore, done, clean, cyclesBefore != [])
    ensures Invariant(g, start, nodes, stack, path, visited, done, clean, cycles != [])
    ensures visitedBefore <= visited && (visited == visitedBefore ==> |stack| < |stackBefore|)
    ensures visited != visitedBefore ==> |nodes - visited| < |nodes - visitedBefore|
  {
    stack, path, visited, cycles := stackBefore, pathBefore, visitedBefore, cyclesBefore;
    var node := Last(stack).node;
    if node in path {
      StepOver(g, start, nodes, stack, path, visited, done, clean, cycles != []);
      stack := Init(stack);
      cycles := cycles + [Cycle(node)];
    } else if node in visited {
      StepOver(g, start, nodes, stack, path, visited, done, clean, cycles != []);
      stack := Init(stack);
    } else {
      StepInto(g, start, nodes, stack, path, visited, done, clean, cycles != []);
      visited := visited + {node};
      path := path + {node};
      stack := PushAll(Init(stack) + [Frame(node, true)], Kids(g, node));
    }
  }

  // One search of the verdict's second phase: everything reachable from `start`.
  method Explore(g: Graph, start: EventId, visitedBefore: set<EventId>, ghost nodes: set<EventId>, ghost doneBefore: seq<EventId>)
    returns (visited: set<EventId>, cycles: seq<LineageError>, ghost done: seq<EventId>)
    requires start in nodes && start !in visitedBefore && start != ROOT
    requires visitedBefore <= nodes
    requires ClosedUnder(g, nodes)
    ensures visitedBefore <= visited <= nodes
    ensures cycles != [] ==> exists p :: Lasso(g, p)
    ensures cycles == [] && Finished(g, doneBefore) && visitedBefore == Elems(doneBefore) ==>
              Finished(g, done) && visited == Elems(done) && start in visited
  {
    visited, cycles, done := visitedBefore, [], doneBefore;
    var path: set<EventId> := {};
    var stack := [Frame(start, false)];
    ghost var clean := Finished(g, doneBefore) && visitedBefore == Elems(doneBefore);
    StartSearch(g, start, nodes, visitedBefore, doneBefore);
    while stack != []
      invariant Invariant(g, start, nodes, stack, path, visited, done, clean, cycles != [])
      invariant visitedBefore <= visited
      decreases |nodes - visited|, |stack|
    {
      var node, finishing := Last(stack).node, Last(stack).finishing;
      if finishing {
        StepBack(g, start, nodes, stack, path, visited, done, clean, cycles != []);
        stack := Init(stack);
        path := path - {node};
        done := done + [node];
      } else {
        stack, path, visited, cycles := Meet(g, start, nodes, stack, path, visited, done, clean, cycles);
      }
    }
  }

  // ---------- The verdict ----------

  lemma {:induction false} FinishedKids(g: Graph, done: seq<EventId>, n: EventId)
    requires Finished(g, done) && n in done
    ensures Elems(Kids(g, n)) <= Elems(done)
  {
    SplitLast(done);
    if n != Last(done) {
      FinishedKids(g, Init(done), n);
    }
  }

  lemma {:induction false} WalkStays(g: Graph, done: seq<EventId>, p: seq<EventId>)
    requires Finished(g, done) && IsWalk(g, p) && p[0] in done
    ensures Elems(p) <= Elems(done)
  {
    if |p| > 1 {
      FinishedKids(g, done, p[0]);
      assert p[1] in Elems(Kids(g, p[0]));
      WalkStays(g, done, p[1..]);
      assert p == [p[0]] + p[1..];
    }
  }

  // A complete finish order leaves no room for a lasso.
  lemma {:induction false} FinishedNoLasso(g: Graph, done: seq<EventId>, p: seq<EventId>)
    requires Finished(g, done) && IsWalk(g, p) && p[0] in done
    ensures Last(p) !in Init(p)
    decreases |done|
  {
    SplitLast(done);
    if p[0] != Last(done) {
      FinishedNoLasso(g, Init(done), p);
    } else if |p| > 1 {
      assert p[1] in Elems(Kids(g, p[0]));
      WalkStays(g, Init(done), p[1..]);
      assert Last(p) == Last(p[1..]) && Last(p) in Elems(p[1..]);
      FinishedNoLasso(g, Init(done), p[1..]);
      assert Init(p) == [p[0]] + Init(p[1..]);
    }
  }

  predicate Linked(events: seq<Event>, e: Event) {
    e.id != "" && (e.parent != "" ==> Logged(events, e.parent) && e.parent != e.id)
  }

  // The first phase: ids, dangling parents and self-parents.
  method LinkageErrors(events: seq<Event>) returns (errors: seq<LineageError>)
    ensures errors == [] <==> Identified(events) && Closed(events) && NoSelfParent(events)
  {
    errors := [];
    var known := set e | e in events :: e.id;
    for i := 0 to |events|
      invariant errors == [] <==> forall e | e in events[..i] :: Linked(events, e)
    {
      var ev := events[i];
      assert events[..i + 1] == events[..i] + [ev];
      if ev.id == "" {
        errors := errors + [MissingId];
      } else {
        if ev.parent != "" && ev.parent !in known {
          errors := errors + [MissingParent(ev.id, ev.parent)];
        }
        if ev.parent != "" && ev.parent == ev.id {
          errors := errors + [OwnParent(ev.id)];
        }
      }
      assert Linked(events, ev) || errors != [];
    }
    assert events[..|events|] == events;
  }

  function Nodes(g: Graph): set<EventId> {
    g.Keys + set p, c | p in g && c in g[p] :: c
  }

  lemma NodesClosed(g: Graph)
    ensures ClosedUnder(g, Nodes(g))
  {
    forall n | n in Nodes(g)
      ensures Elems(Kids(g, n)) <= Nodes(g)
    {
      if n in g {
        forall c | c in g[n] ensures c in Nodes(g) {}
      }
    }
  }

  // Every node but the sentinel is searched from, in whatever order the nodes
  // are taken (the source sorts them).
  method VerifyEventLineage(events: seq<Event>) returns (valid: bool, errors: seq<LineageError>)
    ensures valid <==> errors == []
    ensures valid <==> Accepts(events)
  {
    errors := LinkageErrors(events);
    ghost var linkage := errors;
    var graph := BuildCausalityGraph(events);
    var all := Nodes(graph) - {ROOT};
    NodesClosed(graph);
    var visited: set<EventId> := {};
    ghost var done: seq<EventId> := [];
    ghost var looped := false;
    var remaining := all;
    while remaining != {}
      invariant remaining <= all && visited <= Nodes(graph)
      invariant errors == [] <==> linkage == [] && !looped
      invariant looped ==> exists p :: Lasso(graph, p)
      invariant !looped ==> Finished(graph, done) && visited == Elems(done) && all <= remaining + visited
      decreases remaining
    {
      var start :| start in remaining;
      remaining := remaining - {start};
      if start !in visited {
        var cycles: seq<LineageError>;
        visited, cycles, done := Explore(graph, start, visited, Nodes(graph), done);
        errors := errors + cycles;
        looped := looped || cycles != [];
      }
    }
    if !looped {
      forall p | Lasso(graph, p) ensures false {
        assert p[1] in Kids(graph, p[0]);
        assert p[0] in all;
        assert p[0] in Elems(done);
        FinishedNoLasso(graph, done, p);
      }
    }
    valid := errors == [];
  }

  // ---------- What the verdict has to do with ancestry ----------

  // An event filed under a parent whose id is the sentinel itself.
  predicate SentinelChild(events: seq<Event>) {
    exists e | e in events :: e.id == ROOT && e.parent != ""
  }

  lemma EdgeOfParent(events: seq<Event>, p: EventId, c: EventId)
    requires Identified(events)
    ensures ParentEdge(events, p, c) ==> c in Kids(GraphOf(events), p)
    ensures c in Kids(GraphOf(events), p) && p != ROOT ==> ParentEdge(events, p, c)
  {
    GraphEdges(events, p, c);
    if ParentEdge(events, p, c) {
      var e :| e in events && Names(e, p, c);
      assert Files(e, p, c);
    }
    if c in Kids(GraphOf(events), p) && p != ROOT {
      var e :| e in events && Files(e, p, c);
      assert Names(e, p, c);
    }
  }

  // A parent cycle is always caught.
  lemma CycleCaught(events: seq<Event>, p: seq<EventId>)
    requires Identified(events) && NoSelfParent(events) && ParentCycle(events, p)
    ensures exists q :: Lasso(GraphOf(events), q)
  {
    var g := GraphOf(events);
    forall i | 0 <= i < |p| - 1 ensures p[i + 1] in Kids(g, p[i]) {
      EdgeOfParent(events, p[i], p[i + 1]);
    }
    if p[0] != ROOT {
      assert p[0] == Init(p)[0];
      assert Lasso(g, p);
    } else {
      // Start one step later: the sentinel is not its own parent.
      assert ParentEdge(events, p[0], p[1]);
      var e :| e in events && Names(e, p[0], p[1]);
      assert p[1] != ROOT;
      var q := p[1..] + [p[1]];
      assert Init(q) == p[1..] && q[0] == Init(q)[0];
      assert Lasso(g, q);
    }
  }

  // Without a child event called "ROOT", a walk from a real event never meets the sentinel.
  lemma {:induction false} AvoidsSentinel(events: seq<Event>, p: seq<EventId>, i: nat)
    requires Identified(events) && !SentinelChild(events)
    requires IsWalk(GraphOf(events), p) && p[0] != ROOT && i < |p|
    ensures p[i] != ROOT
  {
    if i > 0 {
      AvoidsSentinel(events, p, i - 1);
      EdgeOfParent(events, p[i - 1], p[i]);
      assert p[i - 1 + 1] in Kids(GraphOf(events), p[i - 1]);
      var e :| e in events && Names(e, p[i - 1], p[i]);
    }
  }

  lemma NoFalseAlarm(events: seq<Event>, p: seq<EventId>)
    requires Identified(events) && !SentinelChild(events) && Lasso(GraphOf(events), p)
    ensures exists q :: ParentCycle(events, q)
  {
    var i :| 0 <= i < |p| - 1 && Init(p)[i] == Last(p);
    var q := p[i..];
    forall k | 0 <= k < |q| - 1 ensures ParentEdge(events, q[k], q[k + 1]) {
      AvoidsSentinel(events, p, i + k);
      assert p[i + k + 1] in Kids(GraphOf(events), p[i + k]);
      EdgeOfParent(events, p[i + k], p[i + k + 1]);
    }
    assert ParentCycle(events, q);
  }

  lemma LassoThroughRoot(g: Graph, w: seq<EventId>)
    requires IsWalk(g, w) && Last(w) == ROOT && w[0] != ROOT && w[0] in Kids(g, ROOT)
    ensures Lasso(g, w + [w[0]])
  {
    assert Init(w + [w[0]]) == w;
  }

  lemma LassoBack(g: Graph, parent: EventId, w: seq<EventId>, j: nat)
    requires IsWalk(g, w) && w[0] in Kids(g, parent) && parent != ROOT
    requires j < |w| && w[j] == parent
    ensures Lasso(g, [parent] + w[..j + 1])
  {
    var q := [parent] + w[..j + 1];
    assert Last(q) == parent && q[0] == Init(q)[0];
  }

  lemma WalkUp(g: Graph, parent: EventId, w: seq<EventId>)
    requires IsWalk(g, w) && w[0] in Kids(g, parent)
    ensures IsWalk(g, [parent] + w)
  {
  }

  ghost function Ids(events: seq<Event>): set<EventId> {
    set e | e in events :: e.id
  }

  lemma FiledUnder(events: seq<Event>, n: EventId) returns (parent: EventId)
    requires Identified(events) && Closed(events) && n in Ids(events)
    ensures n in Kids(GraphOf(events), parent) && (parent == ROOT || parent in Ids(events))
  {
    var e :| e in events && e.id == n;
    parent := KeyOf(e);
    GraphEdges(events, parent, n);
    assert Files(e, parent, n);
    assert parent != ROOT ==> Logged(events, parent);
  }

  // With one, climbing from it ends in a repeat, or at a parentless event, which
  // the graph files under "ROOT": either way a lasso. `w` is the climb so far.
  lemma {:induction false} Climb(events: seq<Event>, w: seq<EventId>)
    requires Identified(events) && Closed(events)
    requires IsWalk(GraphOf(events), w + [ROOT])
    requires w != [] && NoDup(w) && ROOT !in w && Elems(w) <= Ids(events)
    ensures exists q :: Lasso(GraphOf(events), q)
    decreases |Ids(events)| - |w|
  {
    var g := GraphOf(events);
    NoDupCard(w);
    SubsetCard(Elems(w), Ids(events));
    assert w[0] in Elems(w);
    var parent := FiledUnder(events, w[0]);
    if parent == ROOT {
      LassoThroughRoot(g, w + [ROOT]);
    } else if parent in w {
      var j :| 0 <= j < |w| && w[j] == parent;
      LassoBack(g, parent, w + [ROOT], j);
    } else {
      WalkUp(g, parent, w + [ROOT]);
      assert [parent] + (w + [ROOT]) == [parent] + w + [ROOT];
      NoDupPrepend(parent, w);
      ElemsConcat([parent], w);
      NoDupCard([parent] + w);
      SubsetCard(Elems([parent] + w), Ids(events));
      Climb(events, [parent] + w);
    }
  }

  lemma NoDupPrepend<T>(x: T, s: seq<T>)
    requires NoDup(s) && x !in s
    ensures NoDup([x] + s)
  {
    NoDupIndex(s);
    NoDupIndex([x] + s);
  }

  /**
   * The verdict is the lineage property, with one exception: a log with an event
   * called "ROOT" that has a parent is always rejected.
   */
  lemma LineageVerdict(events: seq<Event>)
    ensures Accepts(events) <==> LineageOk(events) && !SentinelChild(events)
  {
    if Identified(events) && Closed(events) {
      if exists p :: ParentCycle(events, p) {
        var p :| ParentCycle(events, p);
        if NoSelfParent(events) { CycleCaught(events, p); }
      } else {
        forall e | e in events && e.parent != "" ensures e.parent != e.id {
          if e.parent == e.id {
            assert Names(e, e.id, e.id);
            assert ParentCycle(events, [e.id, e.id]);
          }
        }
        if SentinelChild(events) {
          var e :| e in events && e.id == ROOT && e.parent != "";
          GraphEdges(events, e.parent, ROOT);
          assert Files(e, e.parent, ROOT);
          assert Logged(events, e.parent);
          assert [e.parent] + [ROOT] == [e.parent, ROOT];
          Climb(events, [e.parent]);
        } else if p :| Lasso(GraphOf(events), p) {
          NoFalseAlarm(events, p);
        }
      }
    }
  }

  // A sound log that the verifier rejects: an event called "ROOT" under another event.
  lemma SentinelNameRejected()
    ensures var log := [Event("a", "", 0, "d", "d", SnapshotCreate), Event(ROOT, "a", 1, "d", "d", SnapshotCreate)];
            LineageOk(log) && !Accepts(log)
  {
    var log := [Event("a", "", 0, "d", "d", SnapshotCreate), Event(ROOT, "a", 1, "d", "d", SnapshotCreate)];
    assert log[0].id == "a" && log[1].id == ROOT;
    assert Logged(log, "a");
    forall p ensures !ParentCycle(log, p) {
      if |p| >= 2 && forall i | 0 <= i < |p| - 1 :: ParentEdge(log, p[i], p[i + 1]) {
        OnlyEdge(log, p);
      }
    }
    LineageVerdict(log);
  }

  lemma OnlyEdge(log: seq<Event>, p: seq<EventId>)
    requires |log| == 2 && log[0].parent == "" && log[1].parent == "a" && log[1].id == ROOT
    requires |p| >= 2 && forall i | 0 <= i < |p| - 1 :: ParentEdge(log, p[i], p[i + 1])
    ensures p[0] == "a" && Last(p) == ROOT
  {
    assert ParentEdge(log, p[0], p[0 + 1]);
    var last := |p| - 2;
    assert ParentEdge(log, p[last], p[last + 1]);
  }
}
