/** The distances of `blast_radius`, spelled out as paths of edges (services/graph-service/app/graph_engine.py). */
module GraphPaths {
  import opened GraphEngine
  import opened Wrappers

  /** An edge passes the filter if there is none, it lists nothing, or it lists the type of the edge. */
  ghost predicate Passes(e: Edge, types: Option<seq<string>>) {
    types == None || types == Some([]) || exists typ | typ in types.value :: e.typ == Some(typ)
  }

  /** `steps` lead from node to node along `nodes`. */
  ghost predicate Follows(edges: seq<Edge>, types: Option<seq<string>>, nodes: seq<Id>, steps: seq<Edge>) {
    && |nodes| == |steps| + 1
    && forall i | 0 <= i < |steps| ::
         steps[i] in edges && steps[i].src == Some(nodes[i]) && steps[i].dst == Some(nodes[i + 1]) && Passes(steps[i], types)
  }

  ghost predicate Path(edges: seq<Edge>, types: Option<seq<string>>, nodes: seq<Id>, steps: seq<Edge>, n: Id, start: Id, k: nat) {
    Follows(edges, types, nodes, steps) && |steps| == k && nodes[0] == n && nodes[k] == start
  }

  lemma {:induction false} ReachPath(edges: seq<Edge>, types: Option<seq<string>>, start: Id, maxDepth: Option<int>, n: Id, k: nat)
    returns (nodes: seq<Id>, steps: seq<Edge>)
    requires Search(edges, Wanted(types), start, maxDepth).Reach(n, k)
    ensures Path(edges, types, nodes, steps, n, start, k)
    decreases k
  {
    var q := Search(edges, Wanted(types), start, maxDepth);
    if k == 0 {
      nodes, steps := [n], [];
    } else {
      var e :| e in edges && Usable(e) && Allowed(e, q.wanted) && e.src.value == n && q.Reach(e.dst.value, k - 1);
      assert Passes(e, types);
      var ns, es := ReachPath(edges, types, start, maxDepth, e.dst.value, k - 1);
      hide Passes;
      nodes, steps := [n] + ns, [e] + es;
    }
  }

  lemma {:induction false} PathReaches(edges: seq<Edge>, types: Option<seq<string>>, start: Id, maxDepth: Option<int>, nodes: seq<Id>, steps: seq<Edge>, n: Id, k: nat)
    requires Path(edges, types, nodes, steps, n, start, k)
    ensures Search(edges, Wanted(types), start, maxDepth).Reach(n, k)
    decreases k
  {
    if k > 0 {
      var e := steps[0];
      assert e in edges && e.src == Some(n) && e.dst == Some(nodes[1]) && Passes(e, types);
      assert Usable(e) && Allowed(e, Wanted(types));
      hide Passes;
      PathReaches(edges, types, start, maxDepth, nodes[1..], steps[1..], nodes[1], k - 1);
    }
  }

  /** The distance `blast_radius` reports for `n`: some path has that many edges, none has fewer, and the depth
      limit, if there is one, allows it. */
  ghost predicate Distance(edges: seq<Edge>, types: Option<seq<string>>, start: Id, maxDepth: Option<int>, n: Id, k: nat) {
    && (maxDepth.Some? ==> k <= maxDepth.value)
    && (exists nodes, steps :: Path(edges, types, nodes, steps, n, start, k))
    && (forall nodes, steps, j: nat | j < k :: !Path(edges, types, nodes, steps, n, start, j))
  }

  lemma DistanceIff(edges: seq<Edge>, types: Option<seq<string>>, start: Id, maxDepth: Option<int>, n: Id, k: nat)
    ensures Within(k, maxDepth) && Search(edges, Wanted(types), start, maxDepth).Shortest(n, k) <==> Distance(edges, types, start, maxDepth, n, k)
  {
    var q := Search(edges, Wanted(types), start, maxDepth);
    hide Path;
    if q.Shortest(n, k) {
      var nodes, steps := ReachPath(edges, types, start, maxDepth, n, k);
      forall nodes, steps, j: nat | j < k ensures !Path(edges, types, nodes, steps, n, start, j) {
        if Path(edges, types, nodes, steps, n, start, j) {
          PathReaches(edges, types, start, maxDepth, nodes, steps, n, j);
        }
      }
    }
    if Distance(edges, types, start, maxDepth, n, k) {
      var nodes, steps :| Path(edges, types, nodes, steps, n, start, k);
      PathReaches(edges, types, start, maxDepth, nodes, steps, n, k);
      forall j: nat | j < k ensures !q.Reach(n, j) {
        if q.Reach(n, j) {
          var ns, es := ReachPath(edges, types, start, maxDepth, n, j);
        }
      }
    }
  }
}
