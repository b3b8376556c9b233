/** Projection and queries together: what the queries answer on a projected snapshot. */
module GraphComposition {
  import opened Dictionaries
  import opened Wrappers
  import opened GraphEngine
  import opened GraphProjection
  import opened GraphSnapshots
  import opened TrustChains
  import StableSort

  /** The edges of the snapshot as the queries read them. */
  ghost function QueryEdges(h: HostPayload, p: NetworkPayload, digest: string -> string): seq<Edge> {
    var es := SnapshotEdges(h, p, digest).Values();
    seq(|es|, i requires 0 <= i < |es| => AsEdge(es[i]))
  }

  ghost predicate Projected(h: HostPayload, p: NetworkPayload, digest: string -> string, s: SnapshotEdge) {
    s in HostEdges(h, digest) || s in NetworkEdges(p)
  }

  lemma KeysOfTwo(a: seq<SnapshotEdge>, b: seq<SnapshotEdge>)
    requires forall s | s in a || s in b :: ValidConfidence(s.confidence)
    ensures var d := PutEdges(PutEdges(Dict([], map[]), a), b);
            SoundEdges(d) && forall k :: k in d.vals <==> exists s :: (s in a || s in b) && s.key == k
  {
    var d0: Dict<EdgeKey, SnapshotEdge> := Dict([], map[]);
    PutEdgesHolds(d0, a);
    PutEdgesHolds(PutEdges(d0, a), b);
  }

  lemma SnapshotEdgeKeys(h: HostPayload, p: NetworkPayload, digest: string -> string)
    ensures var d := SnapshotEdges(h, p, digest);
            && SoundEdges(d) && forall k :: k in d.vals <==> exists s :: Projected(h, p, digest, s) && s.key == k
  {
    HostEndsAmong(h, digest);
    NetworkEndsAmong(p);
    KeysOfTwo(HostEdges(h, digest), NetworkEdges(p));
    hide HostEdges, NetworkEdges, PutEdges, HostNodes, NetworkNodes;
    assert forall s :: Projected(h, p, digest, s) <==> s in HostEdges(h, digest) || s in NetworkEdges(p);
  }

  /** Which edges the queries see. */
  lemma QueryEdgeIff(h: HostPayload, p: NetworkPayload, digest: string -> string, e: Edge)
    ensures e in QueryEdges(h, p, digest) <==> exists s :: Projected(h, p, digest, s) && AsEdge(s) == e
  {
    SnapshotEdgeKeys(h, p, digest);
    hide SnapshotEdges, Projected;
    var d := SnapshotEdges(h, p, digest);
    if e in QueryEdges(h, p, digest) {
      var i :| 0 <= i < |d.keys| && AsEdge(d.vals[d.keys[i]]) == e;
      assert d.keys[i] in d.vals;
      var s :| Projected(h, p, digest, s) && s.key == d.keys[i];
      assert AsEdge(s) == e;
    }
    if s :| Projected(h, p, digest, s) && AsEdge(s) == e {
      assert s.key in d.vals && s.key in d.keys;
      var i :| 0 <= i < |d.keys| && d.keys[i] == s.key;
      assert QueryEdges(h, p, digest)[i] == AsEdge(d.vals[s.key]);
    }
  }

  // ----- the shape of a projected graph around its certificates

  /** What the queries rely on; `asset` is `None` when the payload names no asset. */
  ghost predicate CertificateShape(edges: seq<Edge>, path: seq<Id>, service: Id, asset: Option<Id>) {
    && path != [] && service !in path && (asset.Some? ==> asset.value !in path && asset.value != service)
    && (forall i | 0 <= i < |path| - 1 :: Signs(path, i) in edges)
    && (forall e | e in edges && e.typ == Some(SIGNED_BY) :: exists i :: 0 <= i < |path| - 1 && e == Signs(path, i))
    && Edge(Some("USES_CERTIFICATE"), Some(service), Some(path[0])) in edges
    && (forall e | e in edges && e.dst.Some? && e.dst.value in path ::
          e.typ == Some(SIGNED_BY) || e == Edge(Some("USES_CERTIFICATE"), Some(service), Some(path[0])))
    && (asset.Some? ==> Edge(Some("RUNS"), asset, Some(service)) in edges)
    && (forall e | e in edges && e.dst == Some(service) :: asset.Some? && e == Edge(Some("RUNS"), asset, Some(service)))
    && (asset.Some? ==> forall e | e in edges :: e.dst != asset)
  }

  ghost function Signs(path: seq<Id>, i: nat): Edge
    requires i < |path| - 1
  {
    Edge(Some(SIGNED_BY), Some(path[i]), Some(path[i + 1]))
  }

  function NamedAsset(p: NetworkPayload): Option<Id> {
    if Truthy(p.asset.name) then Some(AssetNodeId(p.asset)) else None
  }

  /** Ids of different kinds differ in their first two characters. */
  predicate Kind(id: Id, a: char, b: char) {
    |id| >= 2 && id[0] == a && id[1] == b
  }

  lemma HostEdgeKinds(h: HostPayload, digest: string -> string, s: SnapshotEdge)
    requires s in HostEdges(h, digest)
    ensures s.key.typ in {"HAS_PACKAGE", "HAS_CONFIG", "HAS_FINDING"}
    ensures Kind(s.key.dst, 'p', 'a') || Kind(s.key.dst, 'c', 'o') || Kind(s.key.dst, 'f', 'i')
  {
    hide AssetNodeId;
    if s in PackageEdges(h) {
    } else if s in ConfigEdges(h, h.certificateFiles, digest) {
    } else if s in ConfigEdges(h, h.configFiles, digest) {
    } else {
    }
  }

  lemma {:induction false} ChainIdKinds(chain: seq<ChainCertificate>)
    ensures forall id | id in ChainIds(chain) :: Kind(id, 'c', 'e')
  {
    if chain != [] {
      ChainIdKinds(chain[..|chain| - 1]);
    }
  }

  lemma NetworkIdKinds(p: NetworkPayload)
    ensures Kind(ServiceId(p), 's', 'e') && Kind(AssetNodeId(p.asset), 'a', 's')
    ensures Kind(VulnerableKeyNode(p).id, 'f', 'i') && Kind(WeakKeyNode(p).id, 'f', 'i')
    ensures forall id | id in CertificatePath(p) :: Kind(id, 'c', 'e')
  {
    ChainIdKinds(p.chain);
    PathMembers(LeafId(p), ChainIds(p.chain));
  }

  lemma NetworkEdgeCases(p: NetworkPayload, s: SnapshotEdge)
    requires s in NetworkEdges(p)
    ensures s in PathEdges(CertificatePath(p))
            || s == Link(ServiceId(p), "USES_CERTIFICATE", LeafId(p), NETWORK, 1.0)
            || (Truthy(p.asset.name) && s == Link(AssetNodeId(p.asset), "RUNS", ServiceId(p), NETWORK, 1.0))
            || (s.key.typ == "SERVICE_HAS_FINDING" && Kind(s.key.dst, 'f', 'i'))
  {
    NetworkIdKinds(p);
    hide AssetNodeId, ServiceId, LeafId, FindingId, PathEdges, QuantumVulnerable, WeakKey;
  }

  lemma ProjectedEdgesPresent(h: HostPayload, p: NetworkPayload, digest: string -> string, s: SnapshotEdge)
    requires s in NetworkEdges(p)
    ensures AsEdge(s) in QueryEdges(h, p, digest)
  {
    assert Projected(h, p, digest, s);
    hide NetworkEdges, QueryEdges, Projected;
    QueryEdgeIff(h, p, digest, AsEdge(s));
  }

  ghost predicate Fits(p: NetworkPayload, path: seq<Id>, e: Edge) {
    && (e.typ == Some(SIGNED_BY) ==> exists i :: 0 <= i < |path| - 1 && e == Signs(path, i))
    && (e.dst.Some? && e.dst.value in path ==>
          e.typ == Some(SIGNED_BY) || e == Edge(Some("USES_CERTIFICATE"), Some(ServiceId(p)), Some(LeafId(p))))
    && (e.dst == Some(ServiceId(p)) ==>
          NamedAsset(p).Some? && e == Edge(Some("RUNS"), NamedAsset(p), Some(ServiceId(p))))
    && e.dst != Some(AssetNodeId(p.asset))
  }

  lemma HostEdgeFits(h: HostPayload, p: NetworkPayload, digest: string -> string, s: SnapshotEdge)
    requires s in HostEdges(h, digest)
    ensures Fits(p, CertificatePath(p), AsEdge(s))
  {
    HostEdgeKinds(h, digest, s);
    NetworkIdKinds(p);
    hide AssetNodeId, ServiceId, LeafId, CertificatePath, HostEdges;
  }

  lemma PathEdgeFits(p: NetworkPayload, path: seq<Id>, i: nat)
    requires path == CertificatePath(p) && i < |path| - 1
    ensures Fits(p, path, Signs(path, i))
  {
    NetworkIdKinds(p);
    assert path[i + 1] in path;
    hide AssetNodeId, ServiceId, LeafId, CertificatePath;
  }

  lemma OtherEdgesFit(p: NetworkPayload, path: seq<Id>)
    requires path == CertificatePath(p)
    ensures Fits(p, path, Edge(Some("USES_CERTIFICATE"), Some(ServiceId(p)), Some(LeafId(p))))
    ensures NamedAsset(p).Some? ==> Fits(p, path, Edge(Some("RUNS"), NamedAsset(p), Some(ServiceId(p))))
  {
    NetworkIdKinds(p);
    assert path[0] == LeafId(p) && LeafId(p) in path;
    hide AssetNodeId, ServiceId, LeafId, CertificatePath;
    assert "USES_CERTIFICATE" != SIGNED_BY && "RUNS" != SIGNED_BY;
  }

  lemma FindingEdgeFits(p: NetworkPayload, path: seq<Id>, e: Edge)
    requires path == CertificatePath(p) && e.typ == Some("SERVICE_HAS_FINDING") && e.dst.Some? && Kind(e.dst.value, 'f', 'i')
    ensures Fits(p, path, e)
  {
    NetworkIdKinds(p);
    hide AssetNodeId, ServiceId, LeafId, CertificatePath;
    assert "SERVICE_HAS_FINDING" != SIGNED_BY;
  }

  lemma NetworkEdgeFits(p: NetworkPayload, s: SnapshotEdge)
    requires s in NetworkEdges(p)
    ensures Fits(p, CertificatePath(p), AsEdge(s))
  {
    var path := CertificatePath(p);
    NetworkEdgeCases(p, s);
    PathEdgesLink(path);
    OtherEdgesFit(p, path);
    hide AssetNodeId, ServiceId, LeafId, CertificatePath, PathEdges, NetworkEdges, Fits, Kind;
    if s in PathEdges(path) {
      var i :| 0 <= i < |path| - 1 && s == Link(path[i], SIGNED_BY, path[i + 1], NETWORK, 1.0);
      PathEdgeFits(p, path, i);
    } else if s.key.typ == "SERVICE_HAS_FINDING" && Kind(s.key.dst, 'f', 'i') {
      FindingEdgeFits(p, path, AsEdge(s));
    }
  }

  lemma ProjectedEdgeFits(h: HostPayload, p: NetworkPayload, digest: string -> string, e: Edge)
    requires e in QueryEdges(h, p, digest)
    ensures Fits(p, CertificatePath(p), e)
  {
    QueryEdgeIff(h, p, digest, e);
    hide QueryEdges, HostEdges, NetworkEdges, Fits, CertificatePath;
    var s :| Projected(h, p, digest, s) && AsEdge(s) == e;
    if s in HostEdges(h, digest) {
      HostEdgeFits(h, p, digest, s);
    } else {
      NetworkEdgeFits(p, s);
    }
  }

  lemma NetworkEdgesListed(p: NetworkPayload)
    ensures forall i | 0 <= i < |CertificatePath(p)| - 1 ::
              Link(CertificatePath(p)[i], SIGNED_BY, CertificatePath(p)[i + 1], NETWORK, 1.0) in NetworkEdges(p)
    ensures Link(ServiceId(p), "USES_CERTIFICATE", LeafId(p), NETWORK, 1.0) in NetworkEdges(p)
    ensures Truthy(p.asset.name) ==> Link(AssetNodeId(p.asset), "RUNS", ServiceId(p), NETWORK, 1.0) in NetworkEdges(p)
  {
    PathEdgesLink(CertificatePath(p));
    hide AssetNodeId, ServiceId, LeafId, CertificatePath, PathEdges, FindingEdges;
    assert forall s | s in ServiceEdges(p) || s in PathEdges(CertificatePath(p)) :: s in NetworkEdges(p);
  }

  lemma ShapeFromFits(edges: seq<Edge>, p: NetworkPayload, path: seq<Id>)
    requires path != [] && path[0] == LeafId(p)
    requires ServiceId(p) !in path && AssetNodeId(p.asset) !in path && AssetNodeId(p.asset) != ServiceId(p)
    requires forall i | 0 <= i < |path| - 1 :: Signs(path, i) in edges
    requires Edge(Some("USES_CERTIFICATE"), Some(ServiceId(p)), Some(LeafId(p))) in edges
    requires NamedAsset(p).Some? ==> Edge(Some("RUNS"), NamedAsset(p), Some(ServiceId(p))) in edges
    requires forall e | e in edges :: Fits(p, path, e)
    ensures CertificateShape(edges, path, ServiceId(p), NamedAsset(p))
  {
    hide AssetNodeId, ServiceId, LeafId;
  }

  lemma ProjectedShape(h: HostPayload, p: NetworkPayload, digest: string -> string)
    ensures CertificateShape(QueryEdges(h, p, digest), CertificatePath(p), ServiceId(p), NamedAsset(p))
  {
    var edges, path := QueryEdges(h, p, digest), CertificatePath(p);
    NetworkIdKinds(p);
    NetworkEdgesListed(p);
    assert path != [] && path[0] == LeafId(p);
    hide QueryEdges, AssetNodeId, ServiceId, LeafId, CertificatePath, NetworkEdges, Fits, CertificateShape;
    forall i | 0 <= i < |path| - 1 ensures Signs(path, i) in edges {
      ProjectedEdgesPresent(h, p, digest, Link(path[i], SIGNED_BY, path[i + 1], NETWORK, 1.0));
    }
    ProjectedEdgesPresent(h, p, digest, Link(ServiceId(p), "USES_CERTIFICATE", LeafId(p), NETWORK, 1.0));
    if Truthy(p.asset.name) {
      ProjectedEdgesPresent(h, p, digest, Link(AssetNodeId(p.asset), "RUNS", ServiceId(p), NETWORK, 1.0));
    }
    forall e | e in edges ensures Fits(p, path, e) {
      ProjectedEdgeFits(h, p, digest, e);
    }
    ShapeFromFits(edges, p, path);
  }

  // ----- trust_chain on such a graph

  lemma PathIssuers(edges: seq<Edge>, path: seq<Id>, service: Id, asset: Option<Id>, i: nat)
    requires CertificateShape(edges, path, service, asset) && StableSort.Distinct(path) && i < |path|
    ensures Issuer(edges, path[i]) == if i < |path| - 1 then Some(path[i + 1]) else None
  {
    var out := OutOf(edges, path[i]);
    var signedBy := SignedByEdges(out);
    OutOfMembers(edges, path[i]);
    SignedByMembers(out);
    hide OutOf, SignedByEdges;
    assert signedBy != [] ==> signedBy[0] in signedBy;
    forall e | e in signedBy ensures i < |path| - 1 && e == Signs(path, i) {
      assert e in edges && e.typ == Some(SIGNED_BY);
      var j :| 0 <= j < |path| - 1 && e == Signs(path, j);
      assert path[j] == path[i];
    }
    if i < |path| - 1 {
      assert Signs(path, i) in signedBy;
    }
  }

  lemma PathIsChain(edges: seq<Edge>, path: seq<Id>, service: Id, asset: Option<Id>)
    requires CertificateShape(edges, path, service, asset) && StableSort.Distinct(path)
    ensures IsTrustChain(edges, path[0], path)
  {
    hide Issuer;
    forall i | 0 <= i < |path| - 1 ensures Issuer(edges, path[i]) == Some(path[i + 1]) {
      PathIssuers(edges, path, service, asset, i);
    }
    PathIssuers(edges, path, service, asset, |path| - 1);
  }

  /** From the leaf, the issuer walk on the projected graph is the certificate path exactly when that
      path names no certificate twice. */
  lemma TrustChainOfProjection(h: HostPayload, p: NetworkPayload, digest: string -> string, chain: seq<Id>)
    requires IsTrustChain(QueryEdges(h, p, digest), LeafId(p), chain)
    ensures chain == CertificatePath(p) <==> StableSort.Distinct(CertificatePath(p))
  {
    var edges, path := QueryEdges(h, p, digest), CertificatePath(p);
    assert path[0] == LeafId(p);
    hide QueryEdges, LeafId, CertificatePath;
    if StableSort.Distinct(path) {
      ProjectedShape(h, p, digest);
      PathIsChain(edges, path, ServiceId(p), NamedAsset(p));
      TrustChainIsUnique(edges, path[0], chain, path);
    }
  }

  /** In particular when the chain entries are distinct and the leaf comes first in them or not at all. */
  lemma PathOfDistinctChain(leaf: Id, ids: seq<Id>)
    requires StableSort.Distinct(ids) && (ids == [] || leaf !in ids[1..])
    ensures PathFrom(leaf, ids) == if ids != [] && ids[0] == leaf then ids else [leaf] + ids
    ensures StableSort.Distinct(PathFrom(leaf, ids))
  {
    assert forall i | 0 < i < |ids| :: ids[i] == ids[1..][i - 1];
    NothingSkipped(leaf, ids);
  }

  lemma {:induction false} NothingSkipped(leaf: Id, ids: seq<Id>)
    requires forall i | 0 < i < |ids| :: ids[i] != ids[i - 1] && ids[i] != leaf
    ensures PathFrom(leaf, ids) == if ids != [] && ids[0] == leaf then ids else [leaf] + ids
  {
    if ids != [] {
      var front, last := ids[..|ids| - 1], ids[|ids| - 1];
      NothingSkipped(leaf, front);
      assert PathFrom(leaf, front) == [leaf] + front || (front != [] && front[0] == leaf && PathFrom(leaf, front) == front);
      assert PathFrom(leaf, ids) == if last == (if front == [] then leaf else front[|front| - 1]) then PathFrom(leaf, front) else PathFrom(leaf, front) + [last];
      hide PathFrom;
      LastOnTop(leaf, ids, front, last);
    }
  }

  lemma LastOnTop(leaf: Id, ids: seq<Id>, front: seq<Id>, last: Id)
    requires ids != [] && front == ids[..|ids| - 1] && last == ids[|ids| - 1]
    ensures front + [last] == ids && ([leaf] + front) + [last] == [leaf] + ids
    ensures front != [] ==> front[0] == ids[0] && front[|front| - 1] == ids[|ids| - 2]
    ensures front == [] ==> ids == [last] && [leaf] + front == [leaf]
  {
  }

  // ----- blast_radius of the last certificate

  /** Counted from the last certificate: the earlier certificates by their place in the chain, then the
      service, then the asset it runs on. */
  ghost predicate Expected(path: seq<Id>, service: Id, asset: Option<Id>, n: Id, k: nat) {
    || (k < |path| && n == path[|path| - 1 - k])
    || (k == |path| && n == service)
    || (k == |path| + 1 && Some(n) == asset)
  }

  ghost function FromLast(edges: seq<Edge>, path: seq<Id>): Search
    requires path != []
  {
    Search(edges, None, path[|path| - 1], None)
  }

  lemma StepBack(edges: seq<Edge>, path: seq<Id>, service: Id, asset: Option<Id>, e: Edge, k: nat)
    requires CertificateShape(edges, path, service, asset) && StableSort.Distinct(path)
    requires e in edges && Usable(e) && Expected(path, service, asset, e.dst.value, k)
    ensures Expected(path, service, asset, e.src.value, k + 1)
  {
    if k < |path| && e.dst.value == path[|path| - 1 - k] {
      var m := |path| - 1 - k;
      if e.typ == Some(SIGNED_BY) {
        var j :| 0 <= j < |path| - 1 && e == Signs(path, j);
        assert path[j + 1] == path[m];
        assert j + 1 == m;
      } else {
        assert path[0] == path[m];
      }
    }
  }

  lemma {:induction false} ReachIsExpected(edges: seq<Edge>, path: seq<Id>, service: Id, asset: Option<Id>, n: Id, k: nat)
    requires CertificateShape(edges, path, service, asset) && StableSort.Distinct(path)
    ensures FromLast(edges, path).Reach(n, k) <==> Expected(path, service, asset, n, k)
    decreases k
  {
    var q := FromLast(edges, path);
    if k > 0 {
      if q.Reach(n, k) {
        var e :| e in edges && Usable(e) && Allowed(e, None) && e.src.value == n && q.Reach(e.dst.value, k - 1);
        ReachIsExpected(edges, path, service, asset, e.dst.value, k - 1);
        StepBack(edges, path, service, asset, e, k - 1);
      }
      if Expected(path, service, asset, n, k) {
        var e := if k < |path| then Signs(path, |path| - 1 - k)
                 else if k == |path| then Edge(Some("USES_CERTIFICATE"), Some(service), Some(path[0]))
                 else Edge(Some("RUNS"), asset, Some(service));
        assert e in edges && e.src == Some(n);
        ReachIsExpected(edges, path, service, asset, e.dst.value, k - 1);
      }
    }
  }

  /** The distances `blast_radius` reports for the last certificate of a projected chain. */
  lemma BlastRadiusOfProjection(h: HostPayload, p: NetworkPayload, digest: string -> string, n: Id, k: nat)
    requires StableSort.Distinct(CertificatePath(p))
    ensures FromLast(QueryEdges(h, p, digest), CertificatePath(p)).Shortest(n, k) <==>
            Expected(CertificatePath(p), ServiceId(p), NamedAsset(p), n, k)
  {
    var edges, path := QueryEdges(h, p, digest), CertificatePath(p);
    ProjectedShape(h, p, digest);
    hide QueryEdges, CertificatePath, ServiceId, NamedAsset;
    ReachIsExpected(edges, path, ServiceId(p), NamedAsset(p), n, k);
    forall j: nat | j < k ensures FromLast(edges, path).Reach(n, j) ==> !Expected(path, ServiceId(p), NamedAsset(p), n, k) {
      ReachIsExpected(edges, path, ServiceId(p), NamedAsset(p), n, j);
    }
  }
}
