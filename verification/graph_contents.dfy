/** What the nodes and edges of a projected snapshot say, in terms of the fields of the payloads
    (tools/graph_projection/project_stage2_fixtures.py). */
module GraphContents {
  import opened Dictionaries
  import opened Wrappers
  import opened GraphAnswers
  import opened GraphComposition
  import opened GraphEngine
  import opened GraphProjection
  import opened GraphSnapshots

  // ----- nodes

  ghost function OrElse(s: Option<string>, other: string): string {
    match s case Some(v) => v case None => other
  }

  /** The nodes a host payload gives rise to. */
  ghost predicate HostSays(h: HostPayload, digest: string -> string, asset: Id, n: Node) {
    || n == Node(asset, "Asset", OrElse(h.asset.name, "unknown"), "stage2_host_fixture", 1.0)
    || (exists i | 0 <= i < |h.packages| ::
          n == Node("package:" + asset + ":" + h.packageManager + ":" + OrElse(h.packages[i], "unknown"), "Package", OrElse(h.packages[i], "unknown"),
                    "stage2_host_fixture", 1.0))
    || (exists path | path in h.certificateFiles ::
          n == Node("config:" + asset + ":" + digest(path), "ConfigFile", if path == "" then "certificate_file" else path, "stage2_host_fixture", 0.7))
    || (exists path | path in h.configFiles ::
          n == Node("config:" + asset + ":" + digest(path), "ConfigFile", if path == "" then "config_file" else path, "stage2_host_fixture", 0.7))
    || (h.privateKeyFiles > 0
        && n == Node("finding:" + asset + ":private_key_indicator", "CryptoFinding", "private_key_indicator", "stage2_host_fixture", 1.0))
  }

  ghost predicate IsCertificate(n: Node, fingerprint: string, displayDn: Option<string>) {
    n == Node(Cert(fingerprint), "Certificate", OrElse(displayDn, fingerprint), "stage2_network_fixture", 1.0)
  }

  /** The nodes a network payload gives rise to. */
  ghost predicate NetworkSays(p: NetworkPayload, f: string, asset: Id, n: Node) {
    var service := "service:" + asset + ":tls:" + p.port + ":" + p.target;
    || (!Missing(p.asset.name) && n == Node(asset, "Asset", p.asset.name.value, "stage2_network_fixture", 1.0))
    || n == Node(service, "Service", p.target + ":" + p.port, "stage2_network_fixture", 1.0)
    || IsCertificate(n, f, p.certificate.displayDn)
    || (exists c | c in p.chain :: !Missing(c.fingerprint) && IsCertificate(n, c.fingerprint.value, c.displayDn))
    || (exists algorithm | AlgorithmIs(p.certificate, algorithm) ::
          n == Node("finding:" + service + ":quantum_vulnerable_public_key", "CryptoFinding", "quantum-vulnerable public key (" + algorithm + ")",
                    "stage2_network_fixture", 0.9))
    || n == Node("finding:" + service + ":weak_public_key", "CryptoFinding", "weak_public_key", "stage2_network_fixture", 0.9)
  }

  lemma {:induction false} LastPutWins(d: Dict<Id, Node>, ns: seq<Node>, id: Id)
    requires id in PutNodes(d, ns).vals
    ensures GraphProjection.Named(ns, id) ==> PutNodes(d, ns).vals[id] in ns && PutNodes(d, ns).vals[id].id == id
    ensures !GraphProjection.Named(ns, id) ==> id in d.vals && PutNodes(d, ns).vals[id] == d.vals[id]
  {
    if ns != [] {
      var front, last := ns[..|ns| - 1], ns[|ns| - 1];
      assert ns == front + [last];
      NamedJoin(front, [last], id);
      NamedWhen(true, last, id);
      if last.id != id {
        LastPutWins(d, front, id);
      }
    }
  }

  lemma HostNodeSays(h: HostPayload, digest: string -> string, asset: Id, n: Node)
    requires AssetIs(h.asset, asset) && n in HostNodes(h, digest)
    ensures HostSays(h, digest, asset, n)
  {
    AssetNamed(h.asset, asset);
    hide AssetNodeId, AssetIs;
    if n in PackageNodes(h) {
      var i :| 0 <= i < |h.packages| && PackageNodes(h)[i] == n;
      assert n.id == "package:" + asset + ":" + h.packageManager + ":" + OrElse(h.packages[i], "unknown");
    } else if n in ConfigNodes(h, "certificate_file", h.certificateFiles, digest) {
      var i :| 0 <= i < |h.certificateFiles| && ConfigNode(h, "certificate_file", h.certificateFiles[i], digest) == n;
      assert h.certificateFiles[i] in h.certificateFiles;
    } else if n in ConfigNodes(h, "config_file", h.configFiles, digest) {
      var i :| 0 <= i < |h.configFiles| && ConfigNode(h, "config_file", h.configFiles[i], digest) == n;
      assert h.configFiles[i] in h.configFiles;
    } else {
      hide PackageNodes, ConfigNodes;
    }
  }

  lemma {:induction false} ChainNodeSays(chain: seq<ChainCertificate>, n: Node)
    requires n in ChainNodes(chain)
    ensures exists c | c in chain :: !Missing(c.fingerprint) && IsCertificate(n, c.fingerprint.value, c.displayDn)
  {
    var front, last := chain[..|chain| - 1], chain[|chain| - 1];
    assert chain == front + [last];
    if n in ChainNodes(front) {
      ChainNodeSays(front, n);
      var c :| c in front && !Missing(c.fingerprint) && IsCertificate(n, c.fingerprint.value, c.displayDn);
      assert c in chain;
    } else {
      assert n == ChainNode(last) && last in chain;
    }
  }

  lemma ServiceNodeSays(p: NetworkPayload, f: string, asset: Id, n: Node)
    requires LeafIs(p.certificate, f) && AssetIs(p.asset, asset) && n in ServiceNodes(p)
    ensures NetworkSays(p, f, asset, n)
  {
    var at, fps := EntriesExist(p.chain);
    NamesAre(p, f, at, fps, asset);
    assert LeafFingerprint(p.certificate) == f;
    hide AssetNodeId, AssetIs, LeafIs, ServiceId, LeafFingerprint, LeafId;
  }

  lemma FindingNodeSays(p: NetworkPayload, f: string, asset: Id, n: Node)
    requires LeafIs(p.certificate, f) && AssetIs(p.asset, asset) && n in FindingNodes(p)
    ensures NetworkSays(p, f, asset, n)
  {
    var at, fps := EntriesExist(p.chain);
    NamesAre(p, f, at, fps, asset);
    FindingNodesAre(p);
    FindingIds(p);
    var algorithm := GraphProjection.Or(p.certificate.publicKey, GraphProjection.Or(p.certificate.publicKeyAlgorithm, ""));
    assert QuantumVulnerable(p.certificate) ==> AlgorithmIs(p.certificate, algorithm);
    assert VulnerableKeyNode(p) == Node(VulnerableKeyNode(p).id, "CryptoFinding", "quantum-vulnerable public key (" + algorithm + ")", "stage2_network_fixture", 0.9);
    assert WeakKeyNode(p) == Node(WeakKeyNode(p).id, "CryptoFinding", "weak_public_key", "stage2_network_fixture", 0.9);
    hide AssetIs, LeafIs, ServiceId, QuantumVulnerable, WeakKey, AlgorithmIs, VulnerableKeyNode, WeakKeyNode, FindingNodes, IsCertificate;
  }

  lemma NetworkNodeSays(p: NetworkPayload, f: string, asset: Id, n: Node)
    requires LeafIs(p.certificate, f) && AssetIs(p.asset, asset) && n in NetworkNodes(p)
    ensures NetworkSays(p, f, asset, n)
  {
    hide ServiceNodes, FindingNodes, ChainNodes, AssetIs, LeafIs;
    if n in ServiceNodes(p) {
      ServiceNodeSays(p, f, asset, n);
    } else if n in FindingNodes(p) {
      FindingNodeSays(p, f, asset, n);
    } else {
      ChainNodeSays(p.chain, n);
    }
  }

  /** Every node of a snapshot is what its payload says; where both payloads have a node of that id, the network
      payload is the one that counts. */
  lemma SnapshotNodeSays(h: HostPayload, p: NetworkPayload, digest: string -> string, f: string, hostAsset: Id, asset: Id, id: Id)
    requires LeafIs(p.certificate, f) && AssetIs(h.asset, hostAsset) && AssetIs(p.asset, asset)
    requires id in SnapshotNodes(h, p, digest).vals
    ensures var n := SnapshotNodes(h, p, digest).vals[id];
            n.id == id && if NetworkHas(p, f, asset, id) then NetworkSays(p, f, asset, n) else HostSays(h, digest, hostAsset, n)
  {
    var hosts := PutNodes(Dict([], map[]), HostNodes(h, digest));
    var n := SnapshotNodes(h, p, digest).vals[id];
    assert SnapshotNodes(h, p, digest) == PutNodes(hosts, NetworkNodes(p));
    NetworkNodeIff(p, f, asset, id);
    LastPutWins(hosts, NetworkNodes(p), id);
    if GraphProjection.Named(NetworkNodes(p), id) {
      NetworkNodeSays(p, f, asset, n);
    } else {
      LastPutWins(Dict([], map[]), HostNodes(h, digest), id);
      HostNodeSays(h, digest, hostAsset, n);
    }
    hide *;
  }

  // ----- edges

  ghost predicate EdgeSays(e: SnapshotEdge) {
    match e.key.typ
    case "HAS_CONFIG" => e.source == "stage2_host_fixture" && e.confidence == 0.7
    case "HAS_PACKAGE" => e.source == "stage2_host_fixture" && e.confidence == 1.0
    case "HAS_FINDING" => e.source == "stage2_host_fixture" && e.confidence == 1.0
    case "SERVICE_HAS_FINDING" => e.source == "stage2_network_fixture" && e.confidence == 0.9
    case _ => e.source == "stage2_network_fixture" && e.confidence == 1.0
  }

  lemma {:induction false} PutEdgesFrom(d: Dict<EdgeKey, SnapshotEdge>, es: seq<SnapshotEdge>)
    requires forall k | k in d.vals :: EdgeSays(d.vals[k])
    requires forall e | e in es :: EdgeSays(e)
    ensures forall k | k in PutEdges(d, es).vals :: EdgeSays(PutEdges(d, es).vals[k])
  {
    hide EdgeSays;
    if es != [] {
      PutEdgesFrom(d, es[..|es| - 1]);
    }
  }

  lemma HostEdgeSays(h: HostPayload, digest: string -> string, e: SnapshotEdge)
    requires e in HostEdges(h, digest)
    ensures EdgeSays(e)
  {
    hide AssetNodeId, PackageId, ConfigId, KeyFindingId;
    if e in PackageEdges(h) {
    } else if e in ConfigEdges(h, h.certificateFiles, digest) {
    } else if e in ConfigEdges(h, h.configFiles, digest) {
    } else {
    }
  }

  lemma NetworkEdgeSays(p: NetworkPayload, e: SnapshotEdge)
    requires e in NetworkEdges(p)
    ensures EdgeSays(e)
  {
    PathEdgesLink(CertificatePath(p));
    hide AssetNodeId, ServiceId, LeafId, FindingId, CertificatePath, PathEdges, QuantumVulnerable, WeakKey, VulnerableKeyNode, WeakKeyNode;
    if e in ServiceEdges(p) {
    } else if e in FindingEdges(p) {
    } else {
      assert e.key.typ == "SIGNED_BY" && e.source == NETWORK && e.confidence == 1.0;
    }
  }

  /** Relationships inferred from a path have confidence 0.7, findings of a service 0.9, all others are certain. */
  lemma SnapshotEdgeSays(h: HostPayload, p: NetworkPayload, digest: string -> string, k: EdgeKey)
    requires k in SnapshotEdges(h, p, digest).vals
    ensures EdgeSays(SnapshotEdges(h, p, digest).vals[k])
  {
    var d0: Dict<EdgeKey, SnapshotEdge> := Dict([], map[]);
    forall e | e in HostEdges(h, digest) ensures EdgeSays(e) {
      HostEdgeSays(h, digest, e);
    }
    forall e | e in NetworkEdges(p) ensures EdgeSays(e) {
      NetworkEdgeSays(p, e);
    }
    assert SnapshotEdges(h, p, digest) == PutEdges(PutEdges(d0, HostEdges(h, digest)), NetworkEdges(p));
    hide EdgeSays, HostEdges, NetworkEdges, SnapshotEdges, PutEdges;
    PutEdgesFrom(d0, HostEdges(h, digest));
    PutEdgesFrom(PutEdges(d0, HostEdges(h, digest)), NetworkEdges(p));
  }
}
