/** Building a graph snapshot from a host and a network payload, and the two checks a snapshot passes
    before it is queried (tools/graph_projection/project_stage2_fixtures.py). */
module GraphProjection {
  import opened Dictionaries
  import opened Wrappers
  import opened GraphEngine
  import StableSort
  import TrustChains

  // ----- snapshot items

  datatype Node = Node(id: Id, typ: string, caption: string, source: string, confidence: real)

  /** The id of an edge is built from these three strings; it is taken to tell them apart. */
  datatype EdgeKey = EdgeKey(src: Id, typ: string, dst: Id)

  datatype SnapshotEdge = SnapshotEdge(key: EdgeKey, source: string, confidence: real)

  function AsEdge(e: SnapshotEdge): Edge {
    Edge(Some(e.key.typ), Some(e.key.src), Some(e.key.dst))
  }

  function Link(src: Id, typ: string, dst: Id, source: string, confidence: real): SnapshotEdge {
    SnapshotEdge(EdgeKey(src, typ, dst), source, confidence)
  }

  // ----- payloads

  predicate Truthy(s: Option<string>) {
    s.Some? && s.value != ""
  }

  function Or(s: Option<string>, other: string): string {
    if Truthy(s) then s.value else other
  }

  function GetOr(s: Option<string>, other: string): string {
    if s.Some? then s.value else other
  }

  datatype Asset = Asset(name: Option<string>, assetId: Option<string>)

  function AssetNodeId(a: Asset): Id {
    "asset:" + Or(a.assetId, Or(a.name, "unknown-asset"))
  }

  datatype HostPayload = HostPayload(asset: Asset, packageManager: string, packages: seq<Option<string>>,
                                     certificateFiles: seq<string>, configFiles: seq<string>, privateKeyFiles: nat)

  datatype Certificate = Certificate(sha256Fingerprint: Option<string>, fingerprintSha256: Option<string>,
                                     subjectFingerprint: Option<string>, displayDn: Option<string>, jsonHash: string,
                                     publicKey: Option<string>, publicKeyAlgorithm: Option<string>,
                                     sizeBits: Option<int>, publicKeySize: Option<int>)

  datatype ChainCertificate = ChainCertificate(fingerprint: Option<string>, displayDn: Option<string>)

  datatype NetworkPayload = NetworkPayload(asset: Asset, target: string, port: string, certificate: Certificate,
                                           chain: seq<ChainCertificate>)

  const HOST := "stage2_host_fixture"
  const NETWORK := "stage2_network_fixture"

  function ServiceId(p: NetworkPayload): Id {
    "service:" + AssetNodeId(p.asset) + ":tls:" + p.port + ":" + p.target
  }

  function LeafFingerprint(c: Certificate): string {
    Or(c.sha256Fingerprint, Or(c.fingerprintSha256, Or(c.subjectFingerprint, c.jsonHash)))
  }

  function CertificateId(fingerprint: string): Id {
    "certificate:" + fingerprint
  }

  function LeafId(p: NetworkPayload): Id {
    CertificateId(LeafFingerprint(p.certificate))
  }

  function KeySize(c: Certificate): Option<int> {
    if c.sizeBits.Some? && c.sizeBits.value != 0 then c.sizeBits else c.publicKeySize
  }

  predicate Contains(s: string, part: string) {
    exists i | 0 <= i <= |s| :: part <= s[i..]
  }

  function Upper(s: string): string {
    seq(|s|, i requires 0 <= i < |s| => if 'a' <= s[i] <= 'z' then s[i] - 'a' + 'A' else s[i])
  }

  predicate QuantumVulnerable(c: Certificate) {
    var algorithm := Or(c.publicKey, Or(c.publicKeyAlgorithm, ""));
    && algorithm != ""
    && exists token | token in ["RSA", "ECDSA", "ECDH", "DSA", "DH", "ED25519", "EC"] :: Contains(Upper(algorithm), token)
  }

  predicate WeakKey(c: Certificate) {
    KeySize(c).Some? && KeySize(c).value < 2048
  }

  // ----- what each projection puts into the dictionaries, in order

  function PackageId(h: HostPayload, i: nat): Id
    requires i < |h.packages|
  {
    "package:" + AssetNodeId(h.asset) + ":" + h.packageManager + ":" + GetOr(h.packages[i], "unknown")
  }

  function ConfigId(h: HostPayload, path: string, digest: string -> string): Id {
    "config:" + AssetNodeId(h.asset) + ":" + digest(path)
  }

  function KeyFindingId(h: HostPayload): Id {
    "finding:" + AssetNodeId(h.asset) + ":private_key_indicator"
  }

  function FindingId(p: NetworkPayload, indicator: string): Id {
    "finding:" + ServiceId(p) + ":" + indicator
  }

  ghost function PackageNodes(h: HostPayload): seq<Node> {
    seq(|h.packages|, i requires 0 <= i < |h.packages| =>
      Node(PackageId(h, i), "Package", GetOr(h.packages[i], "unknown"), HOST, 1.0))
  }

  ghost function PackageEdges(h: HostPayload): seq<SnapshotEdge> {
    seq(|h.packages|, i requires 0 <= i < |h.packages| => Link(AssetNodeId(h.asset), "HAS_PACKAGE", PackageId(h, i), HOST, 1.0))
  }

  function ConfigNode(h: HostPayload, kind: string, path: string, digest: string -> string): Node {
    Node(ConfigId(h, path, digest), "ConfigFile", if path == "" then kind else path, HOST, 0.7)
  }

  function ConfigEdge(h: HostPayload, path: string, digest: string -> string): SnapshotEdge {
    Link(AssetNodeId(h.asset), "HAS_CONFIG", ConfigId(h, path, digest), HOST, 0.7)
  }

  ghost function ConfigNodes(h: HostPayload, kind: string, files: seq<string>, digest: string -> string): seq<Node> {
    seq(|files|, i requires 0 <= i < |files| => ConfigNode(h, kind, files[i], digest))
  }

  ghost function ConfigEdges(h: HostPayload, files: seq<string>, digest: string -> string): seq<SnapshotEdge> {
    seq(|files|, i requires 0 <= i < |files| => ConfigEdge(h, files[i], digest))
  }

  ghost function HostNodes(h: HostPayload, digest: string -> string): seq<Node> {
    [Node(AssetNodeId(h.asset), "Asset", GetOr(h.asset.name, "unknown"), HOST, 1.0)]
    + PackageNodes(h)
    + ConfigNodes(h, "certificate_file", h.certificateFiles, digest)
    + ConfigNodes(h, "config_file", h.configFiles, digest)
    + (if h.privateKeyFiles > 0 then [Node(KeyFindingId(h), "CryptoFinding", "private_key_indicator", HOST, 1.0)] else [])
  }

  ghost function HostEdges(h: HostPayload, digest: string -> string): seq<SnapshotEdge> {
    PackageEdges(h)
    + ConfigEdges(h, h.certificateFiles, digest)
    + ConfigEdges(h, h.configFiles, digest)
    + (if h.privateKeyFiles > 0 then [Link(AssetNodeId(h.asset), "HAS_FINDING", KeyFindingId(h), HOST, 1.0)] else [])
  }

  function ChainIds(chain: seq<ChainCertificate>): seq<Id> {
    if chain == [] then []
    else
      var last := chain[|chain| - 1];
      ChainIds(chain[..|chain| - 1]) + (if Truthy(last.fingerprint) then [CertificateId(last.fingerprint.value)] else [])
  }

  ghost function ChainNodes(chain: seq<ChainCertificate>): seq<Node> {
    if chain == [] then []
    else
      var last := chain[|chain| - 1];
      ChainNodes(chain[..|chain| - 1]) + (if Truthy(last.fingerprint) then [ChainNode(last)] else [])
  }

  function ChainNode(c: ChainCertificate): Node
    requires Truthy(c.fingerprint)
  {
    Node(CertificateId(c.fingerprint.value), "Certificate", GetOr(c.displayDn, c.fingerprint.value), NETWORK, 1.0)
  }

  /** The leaf and the chain after it, an entry equal to the one before it left out. */
  function PathFrom(leaf: Id, ids: seq<Id>): (p: seq<Id>)
    ensures p != [] && p[0] == leaf && p[|p| - 1] == if ids == [] then leaf else ids[|ids| - 1]
  {
    if ids == [] then [leaf]
    else
      var last := ids[|ids| - 1];
      var p := PathFrom(leaf, ids[..|ids| - 1]);
      if last == p[|p| - 1] then p else p + [last]
  }

  lemma {:induction false} PathMembers(leaf: Id, ids: seq<Id>)
    ensures forall n :: n in PathFrom(leaf, ids) <==> n == leaf || n in ids
  {
    if ids != [] {
      PathMembers(leaf, ids[..|ids| - 1]);
      assert ids == ids[..|ids| - 1] + [ids[|ids| - 1]];
    }
  }

  function CertificatePath(p: NetworkPayload): seq<Id> {
    PathFrom(LeafId(p), ChainIds(p.chain))
  }

  ghost function PathEdges(path: seq<Id>): seq<SnapshotEdge> {
    if |path| <= 1 then []
    else PathEdges(path[..|path| - 1]) + [Link(path[|path| - 2], TrustChains.SIGNED_BY, path[|path| - 1], NETWORK, 1.0)]
  }

  function ServiceNode(p: NetworkPayload): Node {
    Node(ServiceId(p), "Service", p.target + ":" + p.port, NETWORK, 1.0)
  }

  function LeafNode(p: NetworkPayload): Node {
    Node(LeafId(p), "Certificate", GetOr(p.certificate.displayDn, LeafFingerprint(p.certificate)), NETWORK, 1.0)
  }

  function VulnerableKeyNode(p: NetworkPayload): Node {
    Node(FindingId(p, "quantum_vulnerable_public_key"), "CryptoFinding",
         "quantum-vulnerable public key (" + Or(p.certificate.publicKey, Or(p.certificate.publicKeyAlgorithm, "")) + ")",
         NETWORK, 0.9)
  }

  function WeakKeyNode(p: NetworkPayload): Node {
    Node(FindingId(p, "weak_public_key"), "CryptoFinding", "weak_public_key", NETWORK, 0.9)
  }

  function FindingEdge(p: NetworkPayload, n: Node): SnapshotEdge {
    Link(ServiceId(p), "SERVICE_HAS_FINDING", n.id, NETWORK, 0.9)
  }

  ghost function ServiceNodes(p: NetworkPayload): seq<Node> {
    (if Truthy(p.asset.name) then [Node(AssetNodeId(p.asset), "Asset", p.asset.name.value, NETWORK, 1.0)] else [])
    + [ServiceNode(p)] + [LeafNode(p)]
  }

  ghost function ServiceEdges(p: NetworkPayload): seq<SnapshotEdge> {
    (if Truthy(p.asset.name) then [Link(AssetNodeId(p.asset), "RUNS", ServiceId(p), NETWORK, 1.0)] else [])
    + [Link(ServiceId(p), "USES_CERTIFICATE", LeafId(p), NETWORK, 1.0)]
  }

  ghost function FindingNodes(p: NetworkPayload): seq<Node> {
    (if QuantumVulnerable(p.certificate) then [VulnerableKeyNode(p)] else [])
    + (if WeakKey(p.certificate) then [WeakKeyNode(p)] else [])
  }

  ghost function FindingEdges(p: NetworkPayload): seq<SnapshotEdge> {
    (if QuantumVulnerable(p.certificate) then [FindingEdge(p, VulnerableKeyNode(p))] else [])
    + (if WeakKey(p.certificate) then [FindingEdge(p, WeakKeyNode(p))] else [])
  }

  ghost function NetworkNodes(p: NetworkPayload): seq<Node> {
    ServiceNodes(p) + FindingNodes(p) + ChainNodes(p.chain)
  }

  ghost function NetworkEdges(p: NetworkPayload): seq<SnapshotEdge> {
    ServiceEdges(p) + FindingEdges(p) + PathEdges(CertificatePath(p))
  }

  ghost function PutNodes(d: Dict<Id, Node>, ns: seq<Node>): Dict<Id, Node> {
    if ns == [] then d
    else var last := ns[|ns| - 1]; PutNodes(d, ns[..|ns| - 1]).Put(last.id, last)
  }

  ghost function PutEdges(d: Dict<EdgeKey, SnapshotEdge>, es: seq<SnapshotEdge>): Dict<EdgeKey, SnapshotEdge> {
    if es == [] then d
    else var last := es[|es| - 1]; PutEdges(d, es[..|es| - 1]).Put(last.key, last)
  }

  lemma {:induction false} PutNodesSplits(d: Dict<Id, Node>, a: seq<Node>, b: seq<Node>)
    ensures PutNodes(d, a + b) == PutNodes(PutNodes(d, a), b)
  {
    if b == [] {
      assert a + b == a;
    } else {
      PutNodesSplits(d, a, b[..|b| - 1]);
      assert (a + b)[..|a + b| - 1] == a + b[..|b| - 1];
    }
  }

  lemma {:induction false} PutEdgesSplits(d: Dict<EdgeKey, SnapshotEdge>, a: seq<SnapshotEdge>, b: seq<SnapshotEdge>)
    ensures PutEdges(d, a + b) == PutEdges(PutEdges(d, a), b)
  {
    if b == [] {
      assert a + b == a;
    } else {
      PutEdgesSplits(d, a, b[..|b| - 1]);
      assert (a + b)[..|a + b| - 1] == a + b[..|b| - 1];
    }
  }

  lemma PutOneNode(d: Dict<Id, Node>, a: seq<Node>, n: Node)
    ensures PutNodes(d, a + [n]) == PutNodes(d, a).Put(n.id, n)
  {
    assert (a + [n])[..|a|] == a;
  }

  lemma PutOneEdge(d: Dict<EdgeKey, SnapshotEdge>, a: seq<SnapshotEdge>, e: SnapshotEdge)
    ensures PutEdges(d, a + [e]) == PutEdges(d, a).Put(e.key, e)
  {
    assert (a + [e])[..|a|] == a;
  }

  // ----- what the dictionaries hold afterwards

  predicate ValidConfidence(c: real) {
    0.0 <= c <= 1.0
  }

  ghost predicate SoundNodes(d: Dict<Id, Node>) {
    d.Valid() && forall id | id in d.vals :: d.vals[id].id == id && ValidConfidence(d.vals[id].confidence)
  }

  ghost predicate SoundEdges(d: Dict<EdgeKey, SnapshotEdge>) {
    d.Valid() && forall k | k in d.vals :: d.vals[k].key == k && ValidConfidence(d.vals[k].confidence)
  }

  /** Ids are the keys, every edge ends in known nodes, and confidences are probabilities. */
  ghost predicate SoundGraph(nodes: Dict<Id, Node>, edges: Dict<EdgeKey, SnapshotEdge>) {
    && SoundNodes(nodes) && SoundEdges(edges)
    && (forall k | k in edges.vals :: k.src in nodes.vals && k.dst in nodes.vals)
  }

  lemma PutKeepsSoundNodes(d: Dict<Id, Node>, n: Node)
    requires SoundNodes(d) && ValidConfidence(n.confidence)
    ensures SoundNodes(d.Put(n.id, n))
  {
  }

  lemma PutKeepsSoundEdges(d: Dict<EdgeKey, SnapshotEdge>, e: SnapshotEdge)
    requires SoundEdges(d) && ValidConfidence(e.confidence)
    ensures SoundEdges(d.Put(e.key, e))
  {
  }

  lemma {:induction false} PutNodesHolds(d: Dict<Id, Node>, ns: seq<Node>)
    requires SoundNodes(d) && forall n | n in ns :: ValidConfidence(n.confidence)
    ensures SoundNodes(PutNodes(d, ns))
    ensures forall id :: id in PutNodes(d, ns).vals <==> id in d.vals || exists n :: n in ns && n.id == id
  {
    hide SoundNodes;
    if ns != [] {
      var front, last := ns[..|ns| - 1], ns[|ns| - 1];
      assert ns == front + [last];
      PutNodesHolds(d, front);
      PutKeepsSoundNodes(PutNodes(d, front), last);
    }
  }

  lemma {:induction false} PutEdgesHolds(d: Dict<EdgeKey, SnapshotEdge>, es: seq<SnapshotEdge>)
    requires SoundEdges(d) && forall e | e in es :: ValidConfidence(e.confidence)
    ensures SoundEdges(PutEdges(d, es))
    ensures forall k :: k in PutEdges(d, es).vals <==> k in d.vals || exists e :: e in es && e.key == k
  {
    hide SoundEdges;
    if es != [] {
      var front, last := es[..|es| - 1], es[|es| - 1];
      assert es == front + [last];
      PutEdgesHolds(d, front);
      PutKeepsSoundEdges(PutEdges(d, front), last);
    }
  }

  /** A list of edges whose ends are among the listed nodes. */
  ghost predicate EndsAmong(es: seq<SnapshotEdge>, ns: seq<Node>) {
    forall e | e in es :: ValidConfidence(e.confidence) && Named(ns, e.key.src) && Named(ns, e.key.dst)
  }

  ghost predicate Named(ns: seq<Node>, id: Id) {
    exists n :: n in ns && n.id == id
  }

  ghost predicate ConfidentNodes(ns: seq<Node>) {
    forall n | n in ns :: ValidConfidence(n.confidence)
  }

  lemma EndsAmongBoth(a: seq<SnapshotEdge>, b: seq<SnapshotEdge>, ns: seq<Node>)
    requires EndsAmong(a, ns) && EndsAmong(b, ns)
    ensures EndsAmong(a + b, ns)
  {
  }

  lemma PuttingKeepsSound(nodes: Dict<Id, Node>, edges: Dict<EdgeKey, SnapshotEdge>, ns: seq<Node>, es: seq<SnapshotEdge>)
    requires SoundGraph(nodes, edges) && EndsAmong(es, ns) && ConfidentNodes(ns)
    ensures SoundGraph(PutNodes(nodes, ns), PutEdges(edges, es))
  {
    PutNodesHolds(nodes, ns);
    PutEdgesHolds(edges, es);
  }

  lemma PackagesAmong(h: HostPayload, ns: seq<Node>)
    requires Named(ns, AssetNodeId(h.asset)) && forall n | n in PackageNodes(h) :: n in ns
    ensures EndsAmong(PackageEdges(h), ns)
  {
    forall e | e in PackageEdges(h) ensures Named(ns, e.key.dst) {
      var i :| 0 <= i < |h.packages| && e == PackageEdges(h)[i];
      assert PackageNodes(h)[i] in ns;
    }
  }

  lemma ConfigsAmong(h: HostPayload, kind: string, files: seq<string>, digest: string -> string, ns: seq<Node>)
    requires Named(ns, AssetNodeId(h.asset)) && forall n | n in ConfigNodes(h, kind, files, digest) :: n in ns
    ensures EndsAmong(ConfigEdges(h, files, digest), ns)
  {
    forall e | e in ConfigEdges(h, files, digest) ensures Named(ns, e.key.dst) {
      var i :| 0 <= i < |files| && e == ConfigEdges(h, files, digest)[i];
      assert ConfigNodes(h, kind, files, digest)[i] in ns;
    }
  }

  lemma HostNodesListed(h: HostPayload, digest: string -> string)
    ensures var ns := HostNodes(h, digest);
            && Named(ns, AssetNodeId(h.asset)) && ConfidentNodes(ns)
            && (forall n | n in PackageNodes(h) :: n in ns)
            && (forall n | n in ConfigNodes(h, "certificate_file", h.certificateFiles, digest) :: n in ns)
            && (forall n | n in ConfigNodes(h, "config_file", h.configFiles, digest) :: n in ns)
            && (h.privateKeyFiles > 0 ==> Named(ns, KeyFindingId(h)))
  {
    hide AssetNodeId, KeyFindingId, PackageId, ConfigId;
    var ns := HostNodes(h, digest);
    assert ns[0] in ns;
    assert h.privateKeyFiles > 0 ==> ns[|ns| - 1] in ns;
  }

  lemma HostEndsAmong(h: HostPayload, digest: string -> string)
    ensures EndsAmong(HostEdges(h, digest), HostNodes(h, digest)) && ConfidentNodes(HostNodes(h, digest))
  {
    hide AssetNodeId, KeyFindingId, HostNodes, PackageEdges, ConfigEdges, PackageNodes, ConfigNodes;
    var ns := HostNodes(h, digest);
    HostNodesListed(h, digest);
    PackagesAmong(h, ns);
    ConfigsAmong(h, "certificate_file", h.certificateFiles, digest, ns);
    ConfigsAmong(h, "config_file", h.configFiles, digest, ns);
    EndsAmongBoth(PackageEdges(h), ConfigEdges(h, h.certificateFiles, digest), ns);
    EndsAmongBoth(PackageEdges(h) + ConfigEdges(h, h.certificateFiles, digest), ConfigEdges(h, h.configFiles, digest), ns);
    var rest := if h.privateKeyFiles > 0 then [Link(AssetNodeId(h.asset), "HAS_FINDING", KeyFindingId(h), HOST, 1.0)] else [];
    assert EndsAmong(rest, ns);
    EndsAmongBoth(PackageEdges(h) + ConfigEdges(h, h.certificateFiles, digest) + ConfigEdges(h, h.configFiles, digest), rest, ns);
  }

  lemma {:induction false} ChainNodesHaveIds(chain: seq<ChainCertificate>)
    ensures forall id | id in ChainIds(chain) :: Named(ChainNodes(chain), id)
    ensures forall n | n in ChainNodes(chain) :: n.confidence == 1.0
  {
    if chain != [] {
      var before, last := chain[..|chain| - 1], chain[|chain| - 1];
      ChainNodesHaveIds(before);
      forall id | id in ChainIds(chain) ensures Named(ChainNodes(chain), id) {
        if id in ChainIds(before) {
          assert Named(ChainNodes(before), id);
          var n :| n in ChainNodes(before) && n.id == id;
          assert n in ChainNodes(chain);
        } else {
          assert ChainNode(last) in ChainNodes(chain);
        }
      }
    }
  }

  lemma {:induction false} PathEdgesLink(path: seq<Id>)
    ensures forall e :: e in PathEdges(path) <==>
              exists i :: 0 <= i < |path| - 1 && e == Link(path[i], TrustChains.SIGNED_BY, path[i + 1], NETWORK, 1.0)
  {
    if |path| > 1 {
      var front := path[..|path| - 1];
      PathEdgesLink(front);
      forall e | e in PathEdges(path)
        ensures exists i :: 0 <= i < |path| - 1 && e == Link(path[i], TrustChains.SIGNED_BY, path[i + 1], NETWORK, 1.0)
      {
        if e in PathEdges(front) {
          var i :| 0 <= i < |front| - 1 && e == Link(front[i], TrustChains.SIGNED_BY, front[i + 1], NETWORK, 1.0);
          assert e == Link(path[i], TrustChains.SIGNED_BY, path[i + 1], NETWORK, 1.0);
        } else {
          assert e == Link(path[|path| - 2], TrustChains.SIGNED_BY, path[|path| - 2 + 1], NETWORK, 1.0);
        }
      }
      forall i | 0 <= i < |path| - 1
        ensures Link(path[i], TrustChains.SIGNED_BY, path[i + 1], NETWORK, 1.0) in PathEdges(path)
      {
        if i < |front| - 1 {
          assert Link(front[i], TrustChains.SIGNED_BY, front[i + 1], NETWORK, 1.0) in PathEdges(front);
        }
      }
    }
  }

  lemma NetworkNodesListed(p: NetworkPayload)
    ensures var ns := NetworkNodes(p);
            && ConfidentNodes(ns)
            && (Truthy(p.asset.name) ==> Named(ns, AssetNodeId(p.asset)))
            && ServiceNode(p) in ns && LeafNode(p) in ns
            && (QuantumVulnerable(p.certificate) ==> VulnerableKeyNode(p) in ns)
            && (WeakKey(p.certificate) ==> WeakKeyNode(p) in ns)
            && forall id | id in CertificatePath(p) :: Named(ns, id)
  {
    var ns := NetworkNodes(p);
    ChainNodesHaveIds(p.chain);
    PathMembers(LeafId(p), ChainIds(p.chain));
    hide AssetNodeId, ServiceId, FindingId, QuantumVulnerable, WeakKey, LeafFingerprint;
    assert ns[0] in ns;
    assert LeafNode(p) in ServiceNodes(p);
    forall id | id in CertificatePath(p) ensures Named(ns, id) {
      if id == LeafId(p) {
        assert LeafNode(p) in ns;
      } else {
        assert Named(ChainNodes(p.chain), id);
        var n :| n in ChainNodes(p.chain) && n.id == id;
        assert n in ns;
      }
    }
  }

  lemma NetworkEndsAmong(p: NetworkPayload)
    ensures EndsAmong(NetworkEdges(p), NetworkNodes(p)) && ConfidentNodes(NetworkNodes(p))
  {
    hide AssetNodeId, ServiceId, LeafId, FindingId, NetworkNodes, QuantumVulnerable, WeakKey, PathEdges;
    var ns, path := NetworkNodes(p), CertificatePath(p);
    NetworkNodesListed(p);
    PathEdgesLink(path);
    forall e | e in PathEdges(path)
      ensures ValidConfidence(e.confidence) && Named(ns, e.key.src) && Named(ns, e.key.dst)
    {
      assert e.key.src in path && e.key.dst in path;
    }
    assert ServiceNode(p).id == ServiceId(p) && LeafNode(p).id == LeafId(p);
    assert EndsAmong(ServiceEdges(p), ns);
    assert EndsAmong(FindingEdges(p), ns);
    EndsAmongBoth(ServiceEdges(p), FindingEdges(p), ns);
    EndsAmongBoth(ServiceEdges(p) + FindingEdges(p), PathEdges(path), ns);
  }
}
