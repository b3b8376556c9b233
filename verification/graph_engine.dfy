/** Deterministic traversal of a dependency graph snapshot (services/graph-service/app/graph_engine.py). */
module GraphEngine {
  import opened Wrappers
  import StableSort
  import StringOrder

  type Id = string

  /** An edge as the queries read it: a missing or null key is `None`. */
  datatype Edge = Edge(typ: Option<string>, src: Option<Id>, dst: Option<Id>)

  predicate Usable(e: Edge) {
    e.src.Some? && e.dst.Some?
  }

  // ----- build_index

  function OutOf(edges: seq<Edge>, n: Id): seq<Edge> {
    if edges == [] then []
    else
      var last := edges[|edges| - 1];
      OutOf(edges[..|edges| - 1], n) + (if Usable(last) && last.src == Some(n) then [last] else [])
  }

  function Into(edges: seq<Edge>, n: Id): seq<Edge> {
    if edges == [] then []
    else
      var last := edges[|edges| - 1];
      Into(edges[..|edges| - 1], n) + (if Usable(last) && last.dst == Some(n) then [last] else [])
  }

  lemma {:induction false} OutOfMembers(edges: seq<Edge>, n: Id)
    ensures forall e :: e in OutOf(edges, n) <==> e in edges && Usable(e) && e.src == Some(n)
  {
    if edges != [] {
      OutOfMembers(edges[..|edges| - 1], n);
      assert edges == edges[..|edges| - 1] + [edges[|edges| - 1]];
    }
  }

  lemma {:induction false} IntoMembers(edges: seq<Edge>, n: Id)
    ensures forall e :: e in Into(edges, n) <==> e in edges && Usable(e) && e.dst == Some(n)
  {
    if edges != [] {
      IntoMembers(edges[..|edges| - 1], n);
      assert edges == edges[..|edges| - 1] + [edges[|edges| - 1]];
    }
  }

  function Get(index: map<Id, seq<Edge>>, n: Id): seq<Edge> {
    if n in index then index[n] else []
  }

  lemma OneMoreEdge(before: seq<Edge>, e: Edge, n: Id)
    ensures OutOf(before + [e], n) == OutOf(before, n) + (if Usable(e) && e.src == Some(n) then [e] else [])
    ensures Into(before + [e], n) == Into(before, n) + (if Usable(e) && e.dst == Some(n) then [e] else [])
  {
    assert (before + [e])[..|before|] == before;
  }

  ghost predicate Indexes(outgoing: map<Id, seq<Edge>>, incoming: map<Id, seq<Edge>>, edges: seq<Edge>) {
    forall n :: Get(outgoing, n) == OutOf(edges, n) && Get(incoming, n) == Into(edges, n)
  }

  method BuildIndex(edges: seq<Edge>) returns (outgoing: map<Id, seq<Edge>>, incoming: map<Id, seq<Edge>>)
    ensures forall n :: Get(outgoing, n) == OutOf(edges, n) && Get(incoming, n) == Into(edges, n)
  {
    outgoing, incoming := map[], map[];
    hide OutOf, Into;
    NoEdges();
    for i := 0 to |edges|
      invariant Indexes(outgoing, incoming, edges[..i])
    {
      var e := edges[i];
      forall n {
        OneMoreEdge(edges[..i], e, n);
      }
      assert edges[..i + 1] == edges[..i] + [e];
      if Usable(e) {
        outgoing := outgoing[e.src.value := Get(outgoing, e.src.value) + [e]];
        incoming := incoming[e.dst.value := Get(incoming, e.dst.value) + [e]];
      }
    }
    assert edges[..|edges|] == edges;
  }

  /** Each edge with both ends is indexed at them, and nowhere else. */
  lemma IndexedAtItsEnds(outgoing: map<Id, seq<Edge>>, incoming: map<Id, seq<Edge>>, edges: seq<Edge>, n: Id, e: Edge)
    requires Indexes(outgoing, incoming, edges)
    ensures e in Get(outgoing, n) <==> e in edges && e.src == Some(n) && e.dst.Some?
    ensures e in Get(incoming, n) <==> e in edges && e.dst == Some(n) && e.src.Some?
  {
    OutOfMembers(edges, n);
    IntoMembers(edges, n);
    assert Get(outgoing, n) == OutOf(edges, n);
  }

  lemma NoEdges()
    ensures forall n :: OutOf([], n) == [] && Into([], n) == []
  {
  }

  // ----- paths

  /** The edge filter; an absent or empty list of types lets every edge through. */
  predicate Allowed(e: Edge, wanted: Option<set<string>>) {
    wanted == None || (e.typ.Some? && e.typ.value in wanted.value)
  }

  function Wanted(edgeTypes: Option<seq<string>>): Option<set<string>> {
    if edgeTypes == None || edgeTypes.value == [] then None else Some(set t | t in edgeTypes.value)
  }

  predicate Within(k: nat, maxDepth: Option<int>) {
    maxDepth == None || k <= maxDepth.value
  }

  /** The arguments of one query. */
  datatype Search = Search(edges: seq<Edge>, wanted: Option<set<string>>, start: Id, maxDepth: Option<int>) {

    /** `n` depends on `start` through exactly `k` allowed edges. */
    ghost predicate Reach(n: Id, k: nat)
      decreases k
    {
      if k == 0 then n == start
      else exists e | e in edges && Usable(e) && Allowed(e, wanted) && e.src.value == n :: Reach(e.dst.value, k - 1)
    }

    /** `k` is the length of the shortest such path. */
    ghost predicate Shortest(n: Id, k: nat) {
      Reach(n, k) && forall j: nat | j < k :: !Reach(n, j)
    }

    /** `dist` holds lengths of paths, none above `front + 1`. */
    ghost predicate Labelled(dist: map<Id, nat>, front: nat) {
      && start in dist
      && (forall n | n in dist ::
            && Reach(n, dist[n]) && dist[n] <= front + 1
            && (dist[n] == 0 <==> n == start)
            && (n == start || Within(dist[n], maxDepth)))
    }

    ghost predicate Queued(queue: seq<(Id, nat)>, dist: map<Id, nat>, front: nat) {
      && (forall i | 0 <= i < |queue| ::
            queue[i].0 in dist && queue[i].1 == dist[queue[i].0] && front <= queue[i].1 <= front + 1)
      && (forall i, j | 0 <= i < j < |queue| :: queue[i].1 <= queue[j].1)
    }

    /** An edge whose target has been expanded leads from a labelled node. */
    ghost predicate EdgeDone(e: Edge, dist: map<Id, nat>) {
      Usable(e) && Allowed(e, wanted) && e.dst.value in dist && Within(dist[e.dst.value] + 1, maxDepth) ==>
        e.src.value in dist && dist[e.src.value] <= dist[e.dst.value] + 1
    }

    ghost predicate Expanded(done: set<Id>, dist: map<Id, nat>) {
      && done <= dist.Keys
      && (forall e | e in edges && Usable(e) && e.dst.value in done :: EdgeDone(e, dist))
    }

    /** Every labelled node has been expanded, waits in the queue, or is in `extra`. */
    ghost predicate Covered(queue: seq<(Id, nat)>, dist: map<Id, nat>, done: set<Id>, extra: set<Id>) {
      forall n | n in dist && n !in done && n !in extra :: (n, dist[n]) in queue
    }

    /** When nothing waits any more, every node within the cap has a label, and no label exceeds the
        length of any path. */
    lemma {:induction false} LabelsAreShortest(dist: map<Id, nat>, n: Id, k: nat)
      requires start in dist && dist[start] == 0 && Expanded(dist.Keys, dist)
      requires Reach(n, k) && (k == 0 || Within(k, maxDepth))
      ensures n in dist && dist[n] <= k
      decreases k
    {
      if k > 0 {
        var e :| e in edges && Usable(e) && Allowed(e, wanted) && e.src.value == n && Reach(e.dst.value, k - 1);
        LabelsAreShortest(dist, e.dst.value, k - 1);
        assert EdgeDone(e, dist);
      }
    }

    /** At the end the labels are exactly the shortest lengths within the cap. */
    lemma LabelIff(dist: map<Id, nat>, front: nat, n: Id, k: nat)
      requires Labelled(dist, front) && Expanded(dist.Keys, dist)
      ensures n != start && n in dist && dist[n] == k <==> 1 <= k && Within(k, maxDepth) && Shortest(n, k)
    {
      if n != start && n in dist && dist[n] == k {
        forall j: nat | j < k ensures !Reach(n, j) {
          if Reach(n, j) {
            LabelsAreShortest(dist, n, j);
          }
        }
      }
      if 1 <= k && Within(k, maxDepth) && Shortest(n, k) {
        LabelsAreShortest(dist, n, k);
        assert !Reach(n, 0);
        assert Reach(n, dist[n]);
      }
    }

    lemma Popped(queue: seq<(Id, nat)>, dist: map<Id, nat>, done: set<Id>)
      requires queue != [] && Queued(queue, dist, queue[0].1) && Covered(queue, dist, done, {})
      ensures Queued(queue[1..], dist, queue[0].1)
      ensures Covered(queue[1..], dist, done, {queue[0].0})
    {
      forall n | n in dist && n !in done && n != queue[0].0 ensures (n, dist[n]) in queue[1..] {
        assert (n, dist[n]) in queue;
        assert queue == [queue[0]] + queue[1..];
      }
    }

    /** Labelling a new node disturbs nothing dealt with before: the node itself now waits. */
    lemma LabelOneMore(queue: seq<(Id, nat)>, dist: map<Id, nat>, done: set<Id>, current: Id, p: Id)
      requires current in dist && p !in dist && Expanded(done, dist)
      requires Covered(queue, dist, done, {current})
      ensures var dist' := dist[p := dist[current] + 1];
              && Expanded(done, dist')
              && Covered(queue + [(p, dist[current] + 1)], dist', done, {current})
              && forall e | Usable(e) && e.dst.value == current && EdgeDone(e, dist) :: EdgeDone(e, dist')
    {
      var dist' := dist[p := dist[current] + 1];
      forall e | e in edges && Usable(e) && e.dst.value in done ensures EdgeDone(e, dist') {
        assert EdgeDone(e, dist);
      }
    }
  }

  // ----- blast_radius

  datatype Affected = Affected(nodeId: Id, depth: nat)

  predicate AffectedLe(a: Affected, b: Affected) {
    a.depth < b.depth || (a.depth == b.depth && StringOrder.StrLe(a.nodeId, b.nodeId))
  }

  lemma AffectedLeIsTotalPreorder()
    ensures StableSort.TotalPreorder(AffectedLe)
  {
    StringOrder.StrLeIsTotalPreorder();
  }

  function Sources(edges: seq<Edge>): set<Id> {
    set e | e in edges && Usable(e) :: e.src.value
  }

  /** `depth` with the start, the way the proofs read it. */
  ghost function Dist(depth: map<Id, nat>, start: Id): map<Id, nat> {
    depth[start := 0]
  }

  ghost predicate InStep(seen: set<Id>, depth: map<Id, nat>, order: seq<Id>, start: Id) {
    && start !in depth && seen == depth.Keys + {start}
    && StableSort.Distinct(order) && forall n :: n in order <==> n in depth
  }

  /** The invariant of the walk; `extra` is the node being expanded, if any. */
  ghost predicate Sound(q: Search, queue: seq<(Id, nat)>, seen: set<Id>, depth: map<Id, nat>, order: seq<Id>,
                        done: set<Id>, extra: set<Id>, front: nat) {
    && InStep(seen, depth, order, q.start)
    && q.Labelled(Dist(depth, q.start), front)
    && q.Queued(queue, Dist(depth, q.start), front)
    && q.Expanded(done, Dist(depth, q.start))
    && q.Covered(queue, Dist(depth, q.start), done, extra)
  }

  ghost predicate AllDone(q: Search, es: seq<Edge>, depth: map<Id, nat>) {
    forall e | e in es :: q.EdgeDone(e, Dist(depth, q.start))
  }

  /** What holds while `current` is being expanded and its incoming edges `before` have been read. */
  ghost predicate Expanding(q: Search, queue: seq<(Id, nat)>, seen: set<Id>, depth: map<Id, nat>, order: seq<Id>,
                            done: set<Id>, current: Id, front: nat, before: seq<Edge>) {
    && Sound(q, queue, seen, depth, order, done, {current}, front)
    && AllDone(q, before, depth)
    && current in seen && Dist(depth, q.start)[current] == front
  }

  lemma LabelledOneMore(q: Search, dist: map<Id, nat>, front: nat, e: Edge)
    requires q.Labelled(dist, front) && e in q.edges && Usable(e) && Allowed(e, q.wanted)
    requires e.dst.value in dist && dist[e.dst.value] == front && e.src.value !in dist && Within(front + 1, q.maxDepth)
    ensures q.Labelled(dist[e.src.value := front + 1], front)
  {
    assert q.Reach(e.dst.value, front);
    assert q.Reach(e.src.value, front + 1);
  }

  lemma QueuedOneMore(q: Search, queue: seq<(Id, nat)>, dist: map<Id, nat>, front: nat, p: Id)
    requires q.Queued(queue, dist, front) && p !in dist
    ensures q.Queued(queue + [(p, front + 1)], dist[p := front + 1], front)
  {
  }

  lemma InStepOneMore(seen: set<Id>, depth: map<Id, nat>, order: seq<Id>, start: Id, p: Id, d: nat)
    requires InStep(seen, depth, order, start) && p !in seen
    ensures InStep(seen + {p}, depth[p := d], order + [p], start)
    ensures Dist(depth[p := d], start) == Dist(depth, start)[p := d]
  {
  }

  lemma NewPredecessor(q: Search, queue: seq<(Id, nat)>, seen: set<Id>, depth: map<Id, nat>, order: seq<Id>,
                       done: set<Id>, current: Id, front: nat, before: seq<Edge>, e: Edge)
    requires Sound(q, queue, seen, depth, order, done, {current}, front) && AllDone(q, before, depth)
    requires e in Into(q.edges, current) && Usable(e) && forall b | b in before :: b in Into(q.edges, current)
    requires current in seen && Dist(depth, q.start)[current] == front && Within(front + 1, q.maxDepth)
    requires Allowed(e, q.wanted) && Usable(e) && e.src.value !in seen
    ensures var p := e.src.value;
            && Sound(q, queue + [(p, front + 1)], seen + {p}, depth[p := front + 1], order + [p], done, {current}, front)
            && AllDone(q, before + [e], depth[p := front + 1])
            && Dist(depth[p := front + 1], q.start)[current] == front
  {
    var p, dist := e.src.value, Dist(depth, q.start);
    IntoMembers(q.edges, current);
    InStepOneMore(seen, depth, order, q.start, p, front + 1);
    LabelledOneMore(q, dist, front, e);
    QueuedOneMore(q, queue, dist, front, p);
    q.LabelOneMore(queue, dist, done, current, p);
    var dist' := dist[p := front + 1];
    forall b | b in before + [e] ensures q.EdgeDone(b, dist') {
      assert b == e || (b in before && q.EdgeDone(b, dist));
    }
  }

  lemma KnownPredecessor(q: Search, queue: seq<(Id, nat)>, seen: set<Id>, depth: map<Id, nat>, order: seq<Id>,
                         done: set<Id>, current: Id, front: nat, e: Edge)
    requires Sound(q, queue, seen, depth, order, done, {current}, front)
    requires e in Into(q.edges, current) && Usable(e) && e.src.value in seen
    requires current in seen && Dist(depth, q.start)[current] == front
    ensures q.EdgeDone(e, Dist(depth, q.start))
    ensures e.src.value in depth ==> depth[e.src.value] <= front + 1
  {
    IntoMembers(q.edges, current);
    assert e.src.value in Dist(depth, q.start);
  }

  lemma NothingRead(q: Search)
    ensures Sound(q, [(q.start, 0)], {q.start}, map[], [], {}, {}, 0)
  {
    assert q.Reach(q.start, 0);
  }

  lemma NodeExpanded(q: Search, queue: seq<(Id, nat)>, seen: set<Id>, depth: map<Id, nat>, order: seq<Id>,
                     done: set<Id>, current: Id, front: nat)
    requires Expanding(q, queue, seen, depth, order, done, current, front, Into(q.edges, current))
    ensures Sound(q, queue, seen, depth, order, done + {current}, {}, front)
  {
    IntoMembers(q.edges, current);
  }

  lemma CapReached(q: Search, queue: seq<(Id, nat)>, seen: set<Id>, depth: map<Id, nat>, order: seq<Id>,
                   done: set<Id>, current: Id, front: nat)
    requires Expanding(q, queue, seen, depth, order, done, current, front, [])
    requires !Within(front + 1, q.maxDepth)
    ensures Expanding(q, queue, seen, depth, order, done, current, front, Into(q.edges, current))
  {
    IntoMembers(q.edges, current);
  }

  lemma NodePopped(q: Search, queue: seq<(Id, nat)>, seen: set<Id>, depth: map<Id, nat>, order: seq<Id>, done: set<Id>, front: nat)
    requires queue != [] && Sound(q, queue, seen, depth, order, done, {}, front)
    ensures Expanding(q, queue[1..], seen, depth, order, done, queue[0].0, queue[0].1, [])
  {
    q.Popped(queue, Dist(depth, q.start), done);
  }

  /** Reads one incoming edge of `current`. `lowered` records whether the branch that would lower an
      existing label ran. */
  method ReadEdge(ghost q: Search, ghost done: set<Id>, ghost before: seq<Edge>, e: Edge, current: Id, currentDepth: nat,
                  wanted: Option<set<string>>,
                  queue0: seq<(Id, nat)>, seen0: set<Id>, depth0: map<Id, nat>, order0: seq<Id>)
    returns (queue: seq<(Id, nat)>, seen: set<Id>, depth: map<Id, nat>, order: seq<Id>, ghost lowered: bool)
    requires e in Into(q.edges, current) && Usable(e) && forall b | b in before :: b in Into(q.edges, current)
    requires wanted == q.wanted && Within(currentDepth + 1, q.maxDepth)
    requires Expanding(q, queue0, seen0, depth0, order0, done, current, currentDepth, before)
    ensures Expanding(q, queue, seen, depth, order, done, current, currentDepth, before + [e])
    ensures !lowered && seen0 <= seen <= seen0 + {e.src.value} && (seen == seen0 ==> queue == queue0)
  {
    queue, seen, depth, order, lowered := queue0, seen0, depth0, order0, false;
    IntoMembers(q.edges, current);
    if Allowed(e, wanted) {
      var nextDepth: nat := currentDepth + 1;
      var predecessor := e.src.value;
      if predecessor !in seen {
        NewPredecessor(q, queue, seen, depth, order, done, current, currentDepth, before, e);
        seen := seen + {predecessor};
        depth := depth[predecessor := nextDepth];
        order := order + [predecessor];
        queue := queue + [(predecessor, nextDepth)];
      } else {
        KnownPredecessor(q, queue, seen, depth, order, done, current, currentDepth, e);
        if predecessor in depth && depth[predecessor] > nextDepth {
          depth := depth[predecessor := nextDepth];
          lowered := true;
        }
      }
    }
  }

  /** Expands one node: labels and queues its predecessors that have no label yet. */
  method Expand(ghost q: Search, ghost done: set<Id>, into: seq<Edge>, current: Id, currentDepth: nat, wanted: Option<set<string>>,
                queue0: seq<(Id, nat)>, seen0: set<Id>, depth0: map<Id, nat>, order0: seq<Id>, ghost sources: set<Id>)
    returns (queue: seq<(Id, nat)>, seen: set<Id>, depth: map<Id, nat>, order: seq<Id>, ghost lowered: bool)
    requires forall e | e in into :: e in Into(q.edges, current) && Usable(e) && e.src.value in sources
    requires wanted == q.wanted && Within(currentDepth + 1, q.maxDepth)
    requires Expanding(q, queue0, seen0, depth0, order0, done, current, currentDepth, [])
    ensures Expanding(q, queue, seen, depth, order, done, current, currentDepth, into) && !lowered
    ensures seen0 <= seen <= seen0 + sources && (seen == seen0 ==> queue == queue0)
  {
    hide Expanding;
    queue, seen, depth, order, lowered := queue0, seen0, depth0, order0, false;
    var i := 0;
    while i < |into|
      invariant 0 <= i <= |into|
      invariant Expanding(q, queue, seen, depth, order, done, current, currentDepth, into[..i]) && !lowered
      invariant seen0 <= seen <= seen0 + sources && (seen == seen0 ==> queue == queue0)
    {
      ghost var l, before := false, into[..i];
      assert into[i] in into;
      queue, seen, depth, order, l := ReadEdge(q, done, before, into[i], current, currentDepth, wanted, queue, seen, depth, order);
      assert before + [into[i]] == into[..i + 1];
      i := i + 1;
    }
    assert into[..|into|] == into;
  }

  /** One round of the loop: takes the front of the queue and expands it unless the depth cap is reached. */
  method ReadNode(ghost q: Search, incoming: map<Id, seq<Edge>>, wanted: Option<set<string>>, maxDepth: Option<int>,
                  queue0: seq<(Id, nat)>, seen0: set<Id>, depth0: map<Id, nat>, order0: seq<Id>, ghost done0: set<Id>, ghost front0: nat)
    returns (queue: seq<(Id, nat)>, seen: set<Id>, depth: map<Id, nat>, order: seq<Id>, ghost done: set<Id>, ghost front: nat, ghost lowered: bool)
    requires queue0 != [] && Sound(q, queue0, seen0, depth0, order0, done0, {}, front0)
    requires wanted == q.wanted && maxDepth == q.maxDepth && forall n :: Get(incoming, n) == Into(q.edges, n)
    ensures Sound(q, queue, seen, depth, order, done, {}, front) && !lowered
    ensures seen0 <= seen <= seen0 + Sources(q.edges) && (seen == seen0 ==> |queue| < |queue0|)
  {
    NodePopped(q, queue0, seen0, depth0, order0, done0, front0);
    var (current, currentDepth) := queue0[0];
    queue, seen, depth, order, done, front, lowered := queue0[1..], seen0, depth0, order0, done0, currentDepth, false;
    hide Sound, Expanding, AllDone, Into, OutOf;
    if maxDepth.Some? && currentDepth >= maxDepth.value {
      CapReached(q, queue, seen, depth, order, done, current, front);
    } else {
      IntoMembers(q.edges, current);
      queue, seen, depth, order, lowered :=
        Expand(q, done, Get(incoming, current), current, currentDepth, wanted, queue, seen, depth, order, Sources(q.edges));
    }
    NodeExpanded(q, queue, seen, depth, order, done, current, front);
    done := done + {current};
  }

  /** The nodes, other than `start`, that depend on it within `maxDepth` edges, each once, with the
      length of its shortest path, ordered by (depth, id). */
  method BlastRadius(edges: seq<Edge>, start: Id, edgeTypes: Option<seq<string>>, maxDepth: Option<int>)
    returns (affected: seq<Affected>, ghost lowered: bool)
    ensures forall a :: a in affected <==>
              1 <= a.depth && Within(a.depth, maxDepth) &&
              Search(edges, Wanted(edgeTypes), start, maxDepth).Shortest(a.nodeId, a.depth)
    ensures forall i, j | 0 <= i < j < |affected| :: affected[i].nodeId != affected[j].nodeId
    ensures forall i, j | 0 <= i < j < |affected| ::
              affected[i].depth < affected[j].depth
              || (affected[i].depth == affected[j].depth && StringOrder.StrLe(affected[i].nodeId, affected[j].nodeId))
    ensures !lowered
  {
    var _, incoming := BuildIndex(edges);
    var wanted := Wanted(edgeTypes);
    ghost var q := Search(edges, wanted, start, maxDepth);
    var depth: map<Id, nat>, order: seq<Id> := map[], [];
    var queue: seq<(Id, nat)> := [(start, 0)];
    var seen := {start};
    ghost var done: set<Id>, front: nat := {}, 0;
    lowered := false;
    NothingRead(q);
    hide *;
    while queue != []
      invariant Sound(q, queue, seen, depth, order, done, {}, front) && !lowered
      decreases Sources(edges) - seen, |queue|
    {
      ghost var known, l := seen, false;
      queue, seen, depth, order, done, front, l := ReadNode(q, incoming, wanted, maxDepth, queue, seen, depth, order, done, front);
      lowered := lowered || l;
      Fewer(Sources(edges), known, seen);
    }
    affected := Report(q, seen, order, depth, done, front);
    SortedMeans(affected);
  }

  lemma SortedMeans(affected: seq<Affected>)
    requires StableSort.Sorted(affected, AffectedLe)
    ensures forall i, j | 0 <= i < j < |affected| ::
              affected[i].depth < affected[j].depth
              || (affected[i].depth == affected[j].depth && StringOrder.StrLe(affected[i].nodeId, affected[j].nodeId))
  {
    hide StringOrder.StrLe;
    forall i, j | 0 <= i < j < |affected| ensures AffectedLe(affected[i], affected[j]) {
    }
  }

  lemma Fewer(all: set<Id>, known: set<Id>, seen: set<Id>)
    requires known <= seen <= known + all
    ensures all - seen <= all - known
    ensures seen != known ==> all - seen != all - known
  {
    if x :| x in seen && x !in known {
      assert x in all - known && x !in all - seen;
    }
  }

  /** The list built from the labels, sorted by (depth, id). */
  method Report(ghost q: Search, ghost seen: set<Id>, order: seq<Id>, depth: map<Id, nat>, ghost done: set<Id>, ghost front: nat)
    returns (affected: seq<Affected>)
    requires Sound(q, [], seen, depth, order, done, {}, front)
    ensures forall a :: a in affected <==> 1 <= a.depth && Within(a.depth, q.maxDepth) && q.Shortest(a.nodeId, a.depth)
    ensures forall i, j | 0 <= i < j < |affected| :: affected[i].nodeId != affected[j].nodeId
    ensures StableSort.Sorted(affected, AffectedLe)
  {
    var collected := Collect(order, depth);
    assert done == Dist(depth, q.start).Keys;
    AffectedLeIsTotalPreorder();
    StableSort.SortIsStable(collected, AffectedLe);
    StableSort.SortMembers(collected, AffectedLe);
    StableSort.SortKeepsDistinct(collected, AffectedLe);
    affected := StableSort.Sort(collected, AffectedLe);
    forall a ensures a in affected <==> 1 <= a.depth && Within(a.depth, q.maxDepth) && q.Shortest(a.nodeId, a.depth) {
      q.LabelIff(Dist(depth, q.start), front, a.nodeId, a.depth);
    }
    forall i, j | 0 <= i < j < |affected| ensures affected[i].nodeId != affected[j].nodeId {
      assert affected[i] in affected && affected[j] in affected;
    }
  }

  function Collect(order: seq<Id>, depth: map<Id, nat>): (r: seq<Affected>)
    requires StableSort.Distinct(order) && forall n | n in order :: n in depth
    ensures StableSort.Distinct(r)
    ensures forall a :: a in r <==> a.nodeId in order && a.depth == depth[a.nodeId]
  {
    if order == [] then []
    else
      assert order == [order[0]] + order[1..];
      [Affected(order[0], depth[order[0]])] + Collect(order[1..], depth)
  }
}
