/** The projection as it runs, and the checks in front of the queries
    (tools/graph_projection/project_stage2_fixtures.py, tools/graph_projection/graph_snapshot_loader.py). */
module GraphSnapshots {
  import opened Dictionaries
  import opened Wrappers
  import opened GraphEngine
  import opened GraphProjection
  import StableSort
  import TrustChains

  /** The dictionaries both projections fill. */
  class Projection {
    var nodes: Dict<Id, Node>
    var edges: Dict<EdgeKey, SnapshotEdge>

    constructor ()
      ensures nodes == Dict([], map[]) && edges == Dict([], map[])
    {
      nodes, edges := Dict([], map[]), Dict([], map[]);
    }

    method ProjectFiles(h: HostPayload, kind: string, files: seq<string>, digest: string -> string)
      modifies this
      ensures nodes == PutNodes(old(nodes), ConfigNodes(h, kind, files, digest))
      ensures edges == PutEdges(old(edges), ConfigEdges(h, files, digest))
    {
      ghost var ns, es := ConfigNodes(h, kind, files, digest), ConfigEdges(h, files, digest);
      NothingPut(nodes, edges);
      hide PutNodes, PutEdges, ConfigNode, ConfigEdge;
      for i := 0 to |files|
        invariant nodes == PutNodes(old(nodes), ns[..i]) && edges == PutEdges(old(edges), es[..i])
      {
        var n, e := ConfigNode(h, kind, files[i], digest), ConfigEdge(h, files[i], digest);
        nodes := nodes.Put(n.id, n);
        edges := edges.Put(e.key, e);
        PutOneNode(old(nodes), ns[..i], n);
        PutOneEdge(old(edges), es[..i], e);
        assert ns[..i + 1] == ns[..i] + [n] && es[..i + 1] == es[..i] + [e];
      }
      assert ns[..|files|] == ns && es[..|files|] == es;
    }

    method ProjectPackages(h: HostPayload)
      modifies this
      ensures nodes == PutNodes(old(nodes), PackageNodes(h)) && edges == PutEdges(old(edges), PackageEdges(h))
    {
      ghost var ns, es := PackageNodes(h), PackageEdges(h);
      NothingPut(nodes, edges);
      hide PutNodes, PutEdges, PackageId, AssetNodeId;
      for i := 0 to |h.packages|
        invariant nodes == PutNodes(old(nodes), ns[..i]) && edges == PutEdges(old(edges), es[..i])
      {
        var n := Node(PackageId(h, i), "Package", GetOr(h.packages[i], "unknown"), HOST, 1.0);
        var e := Link(AssetNodeId(h.asset), "HAS_PACKAGE", n.id, HOST, 1.0);
        nodes := nodes.Put(n.id, n);
        edges := edges.Put(e.key, e);
        PutOneNode(old(nodes), ns[..i], n);
        PutOneEdge(old(edges), es[..i], e);
        assert ns[..i + 1] == ns[..i] + [n] && es[..i + 1] == es[..i] + [e];
      }
      assert ns[..|h.packages|] == ns && es[..|h.packages|] == es;
    }

    method ProjectHost(h: HostPayload, digest: string -> string)
      modifies this
      ensures nodes == PutNodes(old(nodes), HostNodes(h, digest)) && edges == PutEdges(old(edges), HostEdges(h, digest))
      ensures old(SoundGraph(nodes, edges)) ==> SoundGraph(nodes, edges)
    {
      ghost var ns, es: seq<SnapshotEdge> := [Node(AssetNodeId(h.asset), "Asset", GetOr(h.asset.name, "unknown"), HOST, 1.0)], [];
      nodes := nodes.Put(AssetNodeId(h.asset), Node(AssetNodeId(h.asset), "Asset", GetOr(h.asset.name, "unknown"), HOST, 1.0));
      PutOneNode(old(nodes), [], ns[0]);
      assert [] + ns == ns;
      ProjectPackages(h);
      PutNodesSplits(old(nodes), ns, PackageNodes(h));
      ns, es := ns + PackageNodes(h), PackageEdges(h);
      ProjectFiles(h, "certificate_file", h.certificateFiles, digest);
      PutNodesSplits(old(nodes), ns, ConfigNodes(h, "certificate_file", h.certificateFiles, digest));
      PutEdgesSplits(old(edges), es, ConfigEdges(h, h.certificateFiles, digest));
      ns, es := ns + ConfigNodes(h, "certificate_file", h.certificateFiles, digest), es + ConfigEdges(h, h.certificateFiles, digest);
      ProjectFiles(h, "config_file", h.configFiles, digest);
      PutNodesSplits(old(nodes), ns, ConfigNodes(h, "config_file", h.configFiles, digest));
      PutEdgesSplits(old(edges), es, ConfigEdges(h, h.configFiles, digest));
      ns, es := ns + ConfigNodes(h, "config_file", h.configFiles, digest), es + ConfigEdges(h, h.configFiles, digest);
      if h.privateKeyFiles > 0 {
        var n := Node(KeyFindingId(h), "CryptoFinding", "private_key_indicator", HOST, 1.0);
        var e := Link(AssetNodeId(h.asset), "HAS_FINDING", n.id, HOST, 1.0);
        nodes := nodes.Put(n.id, n);
        edges := edges.Put(e.key, e);
        PutOneNode(old(nodes), ns, n);
        PutOneEdge(old(edges), es, e);
      } else {
        assert ns + [] == ns && es + [] == es;
      }
      HostStaysSound(old(nodes), old(edges), h, digest);
    }

    method AddFinding(p: NetworkPayload, n: Node)
      modifies this
      ensures nodes == old(nodes).Put(n.id, n) && edges == old(edges).Put(FindingEdge(p, n).key, FindingEdge(p, n))
    {
      nodes := nodes.Put(n.id, n);
      var e := FindingEdge(p, n);
      edges := edges.Put(e.key, e);
    }

    method ProjectFindings(p: NetworkPayload)
      modifies this
      ensures nodes == PutNodes(old(nodes), FindingNodes(p)) && edges == PutEdges(old(edges), FindingEdges(p))
    {
      ghost var ns: seq<Node>, es: seq<SnapshotEdge> := [], [];
      if QuantumVulnerable(p.certificate) {
        AddFinding(p, VulnerableKeyNode(p));
        PutOneNode(old(nodes), ns, VulnerableKeyNode(p));
        PutOneEdge(old(edges), es, FindingEdge(p, VulnerableKeyNode(p)));
        ns, es := ns + [VulnerableKeyNode(p)], es + [FindingEdge(p, VulnerableKeyNode(p))];
      }
      if WeakKey(p.certificate) {
        AddFinding(p, WeakKeyNode(p));
        PutOneNode(old(nodes), ns, WeakKeyNode(p));
        PutOneEdge(old(edges), es, FindingEdge(p, WeakKeyNode(p)));
        ns, es := ns + [WeakKeyNode(p)], es + [FindingEdge(p, WeakKeyNode(p))];
      }
      assert ns == FindingNodes(p) && es == FindingEdges(p);
    }

    method ProjectService(p: NetworkPayload)
      modifies this
      ensures nodes == PutNodes(old(nodes), ServiceNodes(p)) && edges == PutEdges(old(edges), ServiceEdges(p))
    {
      ghost var ns: seq<Node>, es: seq<SnapshotEdge> := [], [];
      if Truthy(p.asset.name) {
        var n := Node(AssetNodeId(p.asset), "Asset", p.asset.name.value, NETWORK, 1.0);
        nodes := nodes.Put(n.id, n);
        PutOneNode(old(nodes), ns, n);
        ns := ns + [n];
      }
      nodes := nodes.Put(ServiceId(p), ServiceNode(p));
      PutOneNode(old(nodes), ns, ServiceNode(p));
      ns := ns + [ServiceNode(p)];
      if Truthy(p.asset.name) {
        var e := Link(AssetNodeId(p.asset), "RUNS", ServiceId(p), NETWORK, 1.0);
        edges := edges.Put(e.key, e);
        PutOneEdge(old(edges), es, e);
        es := es + [e];
      }
      nodes := nodes.Put(LeafId(p), LeafNode(p));
      PutOneNode(old(nodes), ns, LeafNode(p));
      ns := ns + [LeafNode(p)];
      var uses := Link(ServiceId(p), "USES_CERTIFICATE", LeafId(p), NETWORK, 1.0);
      edges := edges.Put(uses.key, uses);
      PutOneEdge(old(edges), es, uses);
      es := es + [uses];
      assert ns == ServiceNodes(p) && es == ServiceEdges(p);
    }

    method ProjectChainNodes(p: NetworkPayload) returns (chainIds: seq<Id>)
      modifies `nodes
      ensures chainIds == ChainIds(p.chain) && nodes == PutNodes(old(nodes), ChainNodes(p.chain))
    {
      chainIds := [];
      for i := 0 to |p.chain|
        invariant chainIds == ChainIds(p.chain[..i]) && nodes == PutNodes(old(nodes), ChainNodes(p.chain[..i]))
      {
        var c := p.chain[i];
        OneMoreCertificate(p.chain[..i], c);
        assert p.chain[..i + 1] == p.chain[..i] + [c];
        if Truthy(c.fingerprint) {
          var n := ChainNode(c);
          chainIds := chainIds + [n.id];
          nodes := nodes.Put(n.id, n);
          PutOneNode(old(nodes), ChainNodes(p.chain[..i]), n);
        } else {
          assert ChainNodes(p.chain[..i]) + [] == ChainNodes(p.chain[..i]);
        }
      }
      assert p.chain[..|p.chain|] == p.chain;
    }

    /** One entry of the chain: an edge to it unless it repeats the one before. */
    method AddIssuer(cid: Id, previous: Id, ghost start: Dict<EdgeKey, SnapshotEdge>, ghost leaf: Id, ghost before: seq<Id>) returns (last: Id)
      requires Chained(start, edges, leaf, before, previous)
      modifies `edges
      ensures Chained(start, edges, leaf, before + [cid], last)
    {
      IssuerStep(start, leaf, before, cid);
      hide PutEdges, PathEdges, PathFrom;
      last := previous;
      if cid != previous {
        var e := Link(previous, TrustChains.SIGNED_BY, cid, NETWORK, 1.0);
        edges := edges.Put(e.key, e);
        last := cid;
      }
    }

    method ProjectChainEdges(p: NetworkPayload, chainIds: seq<Id>)
      requires chainIds == ChainIds(p.chain)
      modifies `edges
      ensures edges == PutEdges(old(edges), PathEdges(CertificatePath(p)))
    {
      var previous := LeafId(p);
      ghost var start := edges;
      NothingChained(start, previous);
      hide PutEdges, PathFrom, PathEdges, LeafFingerprint, ChainIds, Chained;
      assert chainIds[..0] == [];
      for i := 0 to |chainIds|
        invariant Chained(start, edges, LeafId(p), chainIds[..i], previous)
      {
        previous := AddIssuer(chainIds[i], previous, start, LeafId(p), chainIds[..i]);
        assert chainIds[..i + 1] == chainIds[..i] + [chainIds[i]];
      }
      assert chainIds[..|chainIds|] == chainIds;
      ChainedMeans(start, edges, LeafId(p), chainIds, previous);
    }

    /** The two loops over the certificate chain: first the nodes, then the issuer edges. */
    method ProjectChain(p: NetworkPayload)
      modifies this
      ensures nodes == PutNodes(old(nodes), ChainNodes(p.chain))
      ensures edges == PutEdges(old(edges), PathEdges(CertificatePath(p)))
    {
      var chainIds := ProjectChainNodes(p);
      ProjectChainEdges(p, chainIds);
    }

    method ProjectNetwork(p: NetworkPayload)
      modifies this
      ensures nodes == PutNodes(old(nodes), NetworkNodes(p)) && edges == PutEdges(old(edges), NetworkEdges(p))
      ensures old(SoundGraph(nodes, edges)) ==> SoundGraph(nodes, edges)
    {
      ProjectService(p);
      ProjectFindings(p);
      PutNodesSplits(old(nodes), ServiceNodes(p), FindingNodes(p));
      PutEdgesSplits(old(edges), ServiceEdges(p), FindingEdges(p));
      ProjectChain(p);
      PutNodesSplits(old(nodes), ServiceNodes(p) + FindingNodes(p), ChainNodes(p.chain));
      PutEdgesSplits(old(edges), ServiceEdges(p) + FindingEdges(p), PathEdges(CertificatePath(p)));
      NetworkStaysSound(old(nodes), old(edges), p);
    }
  }

  lemma NoPathYet(leaf: Id)
    ensures PathEdges(PathFrom(leaf, [])) == []
  {
  }

  lemma PathStep(leaf: Id, before: seq<Id>, id: Id)
    ensures var path := PathFrom(leaf, before);
            && PathFrom(leaf, before + [id]) == (if id == path[|path| - 1] then path else path + [id])
            && PathEdges(path + [id]) == PathEdges(path) + [Link(path[|path| - 1], TrustChains.SIGNED_BY, id, NETWORK, 1.0)]
  {
    var path := PathFrom(leaf, before);
    assert (before + [id])[..|before|] == before;
    assert (path + [id])[..|path|] == path;
  }

  /** One more entry of the chain: nothing if it repeats the one before, otherwise an edge to it. */
  lemma IssuerStep(edges: Dict<EdgeKey, SnapshotEdge>, leaf: Id, before: seq<Id>, id: Id)
    ensures var path := PathFrom(leaf, before);
            var previous := path[|path| - 1];
            var e := Link(previous, TrustChains.SIGNED_BY, id, NETWORK, 1.0);
            && PathFrom(leaf, before + [id]) == (if id == previous then path else path + [id])
            && PutEdges(edges, PathEdges(path + [id])) == PutEdges(edges, PathEdges(path)).Put(e.key, e)
  {
    PathStep(leaf, before, id);
    var path := PathFrom(leaf, before);
    PutOneEdge(edges, PathEdges(path), Link(path[|path| - 1], TrustChains.SIGNED_BY, id, NETWORK, 1.0));
    hide PutEdges, PathEdges;
  }

  /** The issuer edges of the entries in `before` have been put, and `previous` is the end of their path. */
  ghost predicate Chained(start: Dict<EdgeKey, SnapshotEdge>, edges: Dict<EdgeKey, SnapshotEdge>, leaf: Id, before: seq<Id>, previous: Id) {
    var path := PathFrom(leaf, before);
    previous == path[|path| - 1] && edges == PutEdges(start, PathEdges(path))
  }

  lemma NothingChained(start: Dict<EdgeKey, SnapshotEdge>, leaf: Id)
    ensures Chained(start, start, leaf, [], leaf)
  {
    NoPathYet(leaf);
    hide PathEdges;
  }

  lemma ChainedMeans(start: Dict<EdgeKey, SnapshotEdge>, edges: Dict<EdgeKey, SnapshotEdge>, leaf: Id, before: seq<Id>, previous: Id)
    requires Chained(start, edges, leaf, before, previous)
    ensures edges == PutEdges(start, PathEdges(PathFrom(leaf, before)))
  {
  }

  lemma NothingPut(nodes: Dict<Id, Node>, edges: Dict<EdgeKey, SnapshotEdge>)
    ensures PutNodes(nodes, []) == nodes && PutEdges(edges, []) == edges
  {
  }

  lemma OneMoreCertificate(before: seq<ChainCertificate>, c: ChainCertificate)
    ensures ChainIds(before + [c]) == ChainIds(before) + (if Truthy(c.fingerprint) then [CertificateId(c.fingerprint.value)] else [])
    ensures ChainNodes(before + [c]) == ChainNodes(before) + (if Truthy(c.fingerprint) then [ChainNode(c)] else [])
  {
    assert (before + [c])[..|before|] == before;
  }

  lemma HostStaysSound(nodes: Dict<Id, Node>, edges: Dict<EdgeKey, SnapshotEdge>, h: HostPayload, digest: string -> string)
    ensures SoundGraph(nodes, edges) ==> SoundGraph(PutNodes(nodes, HostNodes(h, digest)), PutEdges(edges, HostEdges(h, digest)))
  {
    HostEndsAmong(h, digest);
    if SoundGraph(nodes, edges) {
      PuttingKeepsSound(nodes, edges, HostNodes(h, digest), HostEdges(h, digest));
    }
  }

  lemma NetworkStaysSound(nodes: Dict<Id, Node>, edges: Dict<EdgeKey, SnapshotEdge>, p: NetworkPayload)
    ensures SoundGraph(nodes, edges) ==> SoundGraph(PutNodes(nodes, NetworkNodes(p)), PutEdges(edges, NetworkEdges(p)))
  {
    NetworkEndsAmong(p);
    if SoundGraph(nodes, edges) {
      PuttingKeepsSound(nodes, edges, NetworkNodes(p), NetworkEdges(p));
    }
  }

  // ----- validate

  datatype Invalid = DuplicateNodeIds | DuplicateEdgeIds | UnknownNode(edge: EdgeKey) | InvalidConfidence

  function NodeIds(nodes: seq<Node>): seq<Id> {
    seq(|nodes|, i requires 0 <= i < |nodes| => nodes[i].id)
  }

  function EdgeKeys(edges: seq<SnapshotEdge>): seq<EdgeKey> {
    seq(|edges|, i requires 0 <= i < |edges| => edges[i].key)
  }

  ghost predicate EdgesKnown(nodes: seq<Node>, edges: seq<SnapshotEdge>) {
    forall e | e in edges :: e.key.src in NodeIds(nodes) && e.key.dst in NodeIds(nodes)
  }

  ghost predicate ConfidencesValid(nodes: seq<Node>, edges: seq<SnapshotEdge>) {
    (forall n | n in nodes :: ValidConfidence(n.confidence)) && (forall e | e in edges :: ValidConfidence(e.confidence))
  }

  /** `len(xs) == len(set(xs))`. */
  lemma {:induction false} DistinctByLength<T>(xs: seq<T>)
    ensures |xs| == |set x | x in xs| <==> StableSort.Distinct(xs)
    ensures |set x | x in xs| <= |xs|
  {
    if xs != [] {
      var front, last := xs[..|xs| - 1], xs[|xs| - 1];
      DistinctByLength(front);
      var all, before := set x | x in xs, set x | x in front;
      assert xs == front + [last];
      assert all == before + {last};
      if last in before {
        assert all == before;
        assert exists i :: 0 <= i < |front| && xs[i] == last;
      } else {
        assert |all| == |before| + 1;
        assert forall i | 0 <= i < |front| :: front[i] == xs[i] && front[i] in before;
      }
    }
  }

  method Validate(nodes: seq<Node>, edges: seq<SnapshotEdge>) returns (r: Result<(), Invalid>)
    ensures r.Ok? <==> StableSort.Distinct(NodeIds(nodes)) && StableSort.Distinct(EdgeKeys(edges))
                       && EdgesKnown(nodes, edges) && ConfidencesValid(nodes, edges)
    ensures r == Err(DuplicateNodeIds) <==> !StableSort.Distinct(NodeIds(nodes))
    ensures r == Err(InvalidConfidence) ==> EdgesKnown(nodes, edges)
  {
    var nodeIds, edgeIds := NodeIds(nodes), EdgeKeys(edges);
    DistinctByLength(nodeIds);
    DistinctByLength(edgeIds);
    if |nodeIds| != |set x | x in nodeIds| {
      return Err(DuplicateNodeIds);
    }
    if |edgeIds| != |set x | x in edgeIds| {
      return Err(DuplicateEdgeIds);
    }
    for i := 0 to |edges|
      invariant forall j | 0 <= j < i :: edges[j].key.src in nodeIds && edges[j].key.dst in nodeIds
    {
      if edges[i].key.src !in nodeIds || edges[i].key.dst !in nodeIds {
        assert edges[i] in edges;
        return Err(UnknownNode(edges[i].key));
      }
    }
    for i := 0 to |nodes|
      invariant forall j | 0 <= j < i :: ValidConfidence(nodes[j].confidence)
    {
      if nodes[i].confidence < 0.0 || nodes[i].confidence > 1.0 {
        assert nodes[i] in nodes;
        return Err(InvalidConfidence);
      }
    }
    for i := 0 to |edges|
      invariant forall j | 0 <= j < i :: ValidConfidence(edges[j].confidence)
    {
      if edges[i].confidence < 0.0 || edges[i].confidence > 1.0 {
        assert edges[i] in edges;
        return Err(InvalidConfidence);
      }
    }
    r := Ok(());
  }

  // ----- the loader

  /** A JSON field: missing, null, or a string. */
  datatype Field = Absent | Null | Text(text: string)

  datatype RawNode = NotAnObject | RawNode(id: Option<Id>, hasType: bool)

  datatype RawEdge = NotAnObject | RawEdge(typ: Option<string>, fromKey: Field, toKey: Field, sourceKey: Field, targetKey: Field)

  datatype LoadError = MissingKeys | DuplicateNodeId(id: Id) | InvalidEdgeReference

  /** `edge.get(key, edge.get(alias))`: a null under `key` is not replaced. */
  function Either(key: Field, alias: Field): Option<string> {
    var f := if key.Absent? then alias else key;
    if f.Text? then Some(f.text) else None
  }

  predicate GoodNode(n: RawNode) {
    n.RawNode? && n.id.Some? && n.hasType
  }

  predicate GoodEdge(e: RawEdge) {
    e.RawEdge? && e.typ.Some? && Either(e.fromKey, e.sourceKey).Some? && Either(e.toKey, e.targetKey).Some?
  }

  ghost predicate WellFormed(nodes: seq<RawNode>, edges: seq<RawEdge>) {
    && (forall i | 0 <= i < |nodes| :: GoodNode(nodes[i]))
    && (forall i, j | 0 <= i < j < |nodes| :: nodes[i].id != nodes[j].id)
    && (forall i | 0 <= i < |edges| ::
          GoodEdge(edges[i]) && Listed(nodes, Either(edges[i].fromKey, edges[i].sourceKey))
          && Listed(nodes, Either(edges[i].toKey, edges[i].targetKey)))
  }

  ghost predicate Listed(nodes: seq<RawNode>, id: Option<Id>) {
    exists i :: 0 <= i < |nodes| && nodes[i].RawNode? && nodes[i].id == id
  }

  method LoadGraphSnapshot(nodes: seq<RawNode>, edges: seq<RawEdge>) returns (r: Result<(), LoadError>)
    ensures r.Ok? <==> WellFormed(nodes, edges)
    ensures r.Err? && r.error.DuplicateNodeId? ==>
              exists i, j :: 0 <= i < j < |nodes| && nodes[i].RawNode? && nodes[j].RawNode? && nodes[i].id == nodes[j].id == Some(r.error.id)
  {
    var nodeIds: seq<Id> := [];
    for i := 0 to |nodes|
      invariant |nodeIds| == i
      invariant forall j | 0 <= j < i :: GoodNode(nodes[j]) && nodes[j].id == Some(nodeIds[j])
      invariant forall j, k | 0 <= j < k < i :: nodeIds[j] != nodeIds[k]
    {
      var n := nodes[i];
      if !n.RawNode? || n.id == None || !n.hasType {
        return Err(MissingKeys);
      }
      if n.id.value in nodeIds {
        ghost var j :| 0 <= j < i && nodeIds[j] == n.id.value;
        assert nodes[j].id == nodes[i].id;
        return Err(DuplicateNodeId(n.id.value));
      }
      nodeIds := nodeIds + [n.id.value];
    }
    for i := 0 to |edges|
      invariant forall j | 0 <= j < i ::
        GoodEdge(edges[j]) && Listed(nodes, Either(edges[j].fromKey, edges[j].sourceKey))
        && Listed(nodes, Either(edges[j].toKey, edges[j].targetKey))
    {
      var e := edges[i];
      if !e.RawEdge? || e.typ == None {
        return Err(MissingKeys);
      }
      var source, target := Either(e.fromKey, e.sourceKey), Either(e.toKey, e.targetKey);
      if source == None || target == None {
        return Err(MissingKeys);
      }
      ListedIff(nodes, nodeIds, source.value);
      ListedIff(nodes, nodeIds, target.value);
      if source.value !in nodeIds || target.value !in nodeIds {
        return Err(InvalidEdgeReference);
      }
    }
    r := Ok(());
  }

  lemma ListedIff(nodes: seq<RawNode>, nodeIds: seq<Id>, id: Id)
    requires |nodes| == |nodeIds| && forall j | 0 <= j < |nodes| :: GoodNode(nodes[j]) && nodes[j].id == Some(nodeIds[j])
    ensures id in nodeIds <==> Listed(nodes, Some(id))
  {
    if id in nodeIds {
      var j :| 0 <= j < |nodeIds| && nodeIds[j] == id;
      assert nodes[j].id == Some(id);
    }
  }

  /** What the queries see of a loaded edge: they read `from` and `to` only. */
  function QueryEdge(e: RawEdge): Edge
    requires e.RawEdge?
  {
    Edge(e.typ, Either(e.fromKey, Absent), Either(e.toKey, Absent))
  }

  function LoadedEdges(edges: seq<RawEdge>): (r: seq<Edge>)
    requires forall e | e in edges :: e.RawEdge?
    ensures |r| == |edges| && forall i | 0 <= i < |edges| :: r[i] == QueryEdge(edges[i])
  {
    seq(|edges|, i requires 0 <= i < |edges| => QueryEdge(edges[i]))
  }

  ghost predicate Indexed(index: map<Id, seq<Edge>>, e: Edge) {
    exists n :: e in Get(index, n)
  }

  /** The loader lets an edge name its ends `source`/`target`, the index does not look there: an edge of an
      accepted snapshot is in what `build_index` returns for the snapshot iff both `from` and `to` are
      present, and then it is found at both ends, which are nodes of the snapshot. */
  lemma LoadedEdgeIsIndexedIff(nodes: seq<RawNode>, edges: seq<RawEdge>, e: RawEdge, outgoing: map<Id, seq<Edge>>, incoming: map<Id, seq<Edge>>)
    requires WellFormed(nodes, edges) && e in edges
    requires Indexes(outgoing, incoming, LoadedEdges(edges))
    ensures Indexed(outgoing, QueryEdge(e)) <==> !e.fromKey.Absent? && !e.toKey.Absent?
    ensures Indexed(incoming, QueryEdge(e)) <==> !e.fromKey.Absent? && !e.toKey.Absent?
    ensures Indexed(outgoing, QueryEdge(e)) ==>
              && QueryEdge(e) in Get(outgoing, QueryEdge(e).src.value) && Listed(nodes, QueryEdge(e).src)
              && QueryEdge(e) in Get(incoming, QueryEdge(e).dst.value) && Listed(nodes, QueryEdge(e).dst)
  {
    var i :| 0 <= i < |edges| && edges[i] == e;
    var q, qs := QueryEdge(e), LoadedEdges(edges);
    assert GoodEdge(edges[i]) && qs[i] == q;
    assert Usable(q) <==> !e.fromKey.Absent? && !e.toKey.Absent?;
    assert Usable(q) ==> Listed(nodes, q.src) && Listed(nodes, q.dst);
    hide WellFormed, GoodEdge, Listed, LoadedEdges, OutOf, Into, Get;
    forall n ensures q in Get(outgoing, n) <==> Usable(q) && q.src == Some(n) {
      OutOfMembers(qs, n);
    }
    forall n ensures q in Get(incoming, n) <==> Usable(q) && q.dst == Some(n) {
      IntoMembers(qs, n);
    }
  }

  /** Such a snapshot: two nodes and an edge between them given as `source` and `target` load, and the
      queries answer as if there were no edge. */
  lemma LoaderAcceptsIgnoredEdge(a: Id, b: Id, typ: string)
    requires a != b
    ensures var nodes, edges := [RawNode(Some(a), true), RawNode(Some(b), true)], [RawEdge(Some(typ), Absent, Absent, Text(a), Text(b))];
            && WellFormed(nodes, edges) && !Usable(QueryEdge(edges[0]))
            && forall n :: OutOf(LoadedEdges(edges), n) == [] && Into(LoadedEdges(edges), n) == []
  {
    var nodes, edges := [RawNode(Some(a), true), RawNode(Some(b), true)], [RawEdge(Some(typ), Absent, Absent, Text(a), Text(b))];
    assert nodes[0].id == Some(a) && nodes[1].id == Some(b);
    assert Listed(nodes, Some(a)) && Listed(nodes, Some(b));
    var qs := LoadedEdges(edges);
    assert qs == [QueryEdge(edges[0])];
    forall n ensures OutOf(qs, n) == [] && Into(qs, n) == [] {
      OneMoreEdge([], qs[0], n);
      assert [] + [qs[0]] == qs;
    }
  }

  // ----- projected snapshots pass both checks

  function AsRawNode(n: Node): RawNode {
    RawNode(Some(n.id), true)
  }

  /** The projected edge also has a key `source`: the name of the projection that made it. */
  function AsRawEdge(e: SnapshotEdge): RawEdge {
    RawEdge(Some(e.key.typ), Text(e.key.src), Text(e.key.dst), Text(e.source), Absent)
  }

  function RawNodes(ns: seq<Node>): seq<RawNode> {
    seq(|ns|, i requires 0 <= i < |ns| => AsRawNode(ns[i]))
  }

  function RawEdges(es: seq<SnapshotEdge>): seq<RawEdge> {
    seq(|es|, i requires 0 <= i < |es| => AsRawEdge(es[i]))
  }

  lemma SoundNodesPass(nodes: Dict<Id, Node>)
    requires SoundNodes(nodes)
    ensures NodeIds(nodes.Values()) == nodes.keys && forall n | n in nodes.Values() :: ValidConfidence(n.confidence)
  {
    var ns := nodes.Values();
    forall i | 0 <= i < |ns| ensures ns[i].id == nodes.keys[i] && ValidConfidence(ns[i].confidence) {
      assert nodes.keys[i] in nodes.vals;
    }
  }

  lemma SoundEdgesPass(nodes: Dict<Id, Node>, edges: Dict<EdgeKey, SnapshotEdge>)
    requires SoundGraph(nodes, edges)
    ensures EdgeKeys(edges.Values()) == edges.keys
    ensures forall e | e in edges.Values() :: e.key.src in nodes.keys && e.key.dst in nodes.keys && ValidConfidence(e.confidence)
  {
    var es := edges.Values();
    forall i | 0 <= i < |es|
      ensures es[i].key == edges.keys[i] && es[i].key.src in nodes.keys && es[i].key.dst in nodes.keys && ValidConfidence(es[i].confidence)
    {
      assert edges.keys[i] in edges.vals;
    }
  }

  lemma RawNodesLoad(ns: seq<Node>)
    requires StableSort.Distinct(NodeIds(ns))
    ensures var raw := RawNodes(ns);
            && (forall i | 0 <= i < |raw| :: GoodNode(raw[i])) && (forall i, j | 0 <= i < j < |raw| :: raw[i].id != raw[j].id)
            && (forall id | id in NodeIds(ns) :: Listed(raw, Some(id)))
  {
    var raw, ids := RawNodes(ns), NodeIds(ns);
    forall i | 0 <= i < |raw| ensures raw[i].id == Some(ids[i]) {
    }
    forall id | id in ids ensures Listed(raw, Some(id)) {
      var i :| 0 <= i < |ids| && ids[i] == id;
      assert raw[i].id == Some(id);
    }
  }

  lemma RawEdgesLoad(es: seq<SnapshotEdge>)
    ensures var raw := RawEdges(es);
            && |raw| == |es|
            && forall i | 0 <= i < |raw| ::
                 && GoodEdge(raw[i]) && Either(raw[i].fromKey, raw[i].sourceKey) == Some(es[i].key.src)
                 && Either(raw[i].toKey, raw[i].targetKey) == Some(es[i].key.dst)
  {
  }

  lemma SoundGraphPasses(nodes: Dict<Id, Node>, edges: Dict<EdgeKey, SnapshotEdge>)
    requires SoundGraph(nodes, edges)
    ensures var ns, es := nodes.Values(), edges.Values();
            && StableSort.Distinct(NodeIds(ns)) && StableSort.Distinct(EdgeKeys(es))
            && EdgesKnown(ns, es) && ConfidencesValid(ns, es) && WellFormed(RawNodes(ns), RawEdges(es))
  {
    var ns, es := nodes.Values(), edges.Values();
    SoundNodesPass(nodes);
    SoundEdgesPass(nodes, edges);
    assert StableSort.Distinct(nodes.keys) && StableSort.Distinct(edges.keys);
    hide SoundGraph, NodeIds, EdgeKeys, RawNodes, RawEdges, AsRawNode, AsRawEdge, GoodNode, GoodEdge, Either, Listed, ValidConfidence, StableSort.Distinct;
    RawNodesLoad(ns);
    RawEdgesLoad(es);
    forall i | 0 <= i < |es| ensures es[i].key.src in nodes.keys && es[i].key.dst in nodes.keys {
      assert es[i] in es;
    }
  }

  /** Whatever the two payloads hold, the snapshot built from them is accepted. */
  method BuildSnapshot(h: HostPayload, p: NetworkPayload, digest: string -> string)
    returns (nodes: seq<Node>, edges: seq<SnapshotEdge>, checked: Result<(), Invalid>, loaded: Result<(), LoadError>)
    ensures checked.Ok? && loaded.Ok?
    ensures nodes == SnapshotNodes(h, p, digest).Values() && edges == SnapshotEdges(h, p, digest).Values()
  {
    hide PutNodes, PutEdges, HostNodes, HostEdges, NetworkNodes, NetworkEdges, WellFormed, EdgesKnown, ConfidencesValid;
    var projection := new Projection();
    assert SoundGraph(projection.nodes, projection.edges);
    projection.ProjectHost(h, digest);
    assert SoundGraph(projection.nodes, projection.edges);
    projection.ProjectNetwork(p);
    nodes, edges := projection.nodes.Values(), projection.edges.Values();
    SoundGraphPasses(projection.nodes, projection.edges);
    checked := Validate(nodes, edges);
    loaded := LoadGraphSnapshot(RawNodes(nodes), RawEdges(edges));
  }

  ghost function SnapshotNodes(h: HostPayload, p: NetworkPayload, digest: string -> string): (d: Dict<Id, Node>)
    ensures d.Valid()
  {
    HostStaysSound(Dict([], map[]), Dict([], map[]), h, digest);
    hide PutEdges, PutNodes, HostEdges, HostNodes, NetworkEdges, NetworkNodes;
    var nodes := PutNodes(Dict([], map[]), HostNodes(h, digest));
    NetworkStaysSound(nodes, PutEdges(Dict([], map[]), HostEdges(h, digest)), p);
    PutNodes(nodes, NetworkNodes(p))
  }

  ghost function SnapshotEdges(h: HostPayload, p: NetworkPayload, digest: string -> string): (d: Dict<EdgeKey, SnapshotEdge>)
    ensures d.Valid()
  {
    HostStaysSound(Dict([], map[]), Dict([], map[]), h, digest);
    hide PutEdges, PutNodes, HostEdges, HostNodes, NetworkEdges, NetworkNodes;
    var edges := PutEdges(Dict([], map[]), HostEdges(h, digest));
    NetworkStaysSound(PutNodes(Dict([], map[]), HostNodes(h, digest)), edges, p);
    PutEdges(edges, NetworkEdges(p))
  }
}
