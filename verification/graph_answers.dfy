/** The answers of the queries on a projected graph, and the nodes and findings of its snapshot, in terms of
    the fields of the payloads (tools/graph_projection/project_stage2_fixtures.py). */
module GraphAnswers {
  import opened Dictionaries
  import opened Wrappers
  import opened GraphComposition
  import opened GraphEngine
  import opened GraphProjection
  import opened GraphSnapshots
  import opened TrustChains
  import StableSort

  // ----- names, on the fields

  ghost function Cert(f: string): Id {
    "certificate:" + f
  }

  /** Python treats a missing string and an empty one alike. */
  ghost predicate Missing(s: Option<string>) {
    s == None || s == Some("")
  }

  /** The fingerprint of the leaf is the first of four that is there. */
  ghost predicate LeafIs(c: Certificate, f: string) {
    if !Missing(c.sha256Fingerprint) then c.sha256Fingerprint == Some(f)
    else if !Missing(c.fingerprintSha256) then c.fingerprintSha256 == Some(f)
    else if !Missing(c.subjectFingerprint) then c.subjectFingerprint == Some(f)
    else c.jsonHash == f
  }

  /** An asset is named by its id, otherwise by its name. */
  ghost predicate AssetIs(a: Asset, id: Id) {
    if !Missing(a.assetId) then id == "asset:" + a.assetId.value
    else if !Missing(a.name) then id == "asset:" + a.name.value
    else id == "asset:unknown-asset"
  }

  /** `fps` are the fingerprints of the chain entries that have one, and `at` their places. */
  ghost predicate EntriesAre(chain: seq<ChainCertificate>, at: seq<nat>, fps: seq<string>) {
    && |at| == |fps|
    && (forall k | 0 <= k < |at| :: at[k] < |chain| && fps[k] != "" && chain[at[k]].fingerprint == Some(fps[k]))
    && (forall j, k | 0 <= j < k < |at| :: at[j] < at[k])
    && (forall i: nat | i < |chain| && !Missing(chain[i].fingerprint) :: i in at)
  }

  ghost predicate Names(p: NetworkPayload, f: string, at: seq<nat>, fps: seq<string>, asset: Id) {
    LeafIs(p.certificate, f) && EntriesAre(p.chain, at, fps) && AssetIs(p.asset, asset)
  }

  /** Every chain has such a list. */
  lemma {:induction false} EntriesExist(chain: seq<ChainCertificate>) returns (at: seq<nat>, fps: seq<string>)
    ensures EntriesAre(chain, at, fps)
  {
    if chain == [] {
      at, fps := [], [];
    } else {
      var front, last := chain[..|chain| - 1], chain[|chain| - 1];
      at, fps := EntriesExist(front);
      assert forall i | 0 <= i < |front| :: chain[i] == front[i];
      if !Missing(last.fingerprint) {
        MoreEntries(chain, at, fps);
        at, fps := at + [|front|], fps + [last.fingerprint.value];
      }
    }
  }

  lemma MoreEntries(chain: seq<ChainCertificate>, at: seq<nat>, fps: seq<string>)
    requires chain != [] && EntriesAre(chain[..|chain| - 1], at, fps) && !Missing(chain[|chain| - 1].fingerprint)
    ensures EntriesAre(chain, at + [|chain| - 1], fps + [chain[|chain| - 1].fingerprint.value])
  {
    var front, more := chain[..|chain| - 1], at + [|chain| - 1];
    forall i: nat | i < |chain| && !Missing(chain[i].fingerprint) ensures i in more {
      if i < |front| {
        assert front[i] == chain[i];
        var j :| 0 <= j < |at| && at[j] == i;
        assert more[j] == i;
      } else {
        assert more[|at|] == i;
      }
    }
  }

  ghost function Certificates(fps: seq<string>): (ids: seq<Id>)
    ensures |ids| == |fps| && forall k | 0 <= k < |fps| :: ids[k] == Cert(fps[k])
  {
    seq(|fps|, k requires 0 <= k < |fps| => Cert(fps[k]))
  }

  lemma EntriesWithoutLast(chain: seq<ChainCertificate>, at: seq<nat>, fps: seq<string>)
    requires EntriesAre(chain, at, fps) && chain != []
    ensures var front, last := chain[..|chain| - 1], chain[|chain| - 1];
            && (Missing(last.fingerprint) ==> EntriesAre(front, at, fps))
            && (!Missing(last.fingerprint) ==> fps != [] && last.fingerprint.value == fps[|fps| - 1] && EntriesAre(front, at[..|at| - 1], fps[..|fps| - 1]))
  {
    var front, last := chain[..|chain| - 1], chain[|chain| - 1];
    if Missing(last.fingerprint) {
      assert forall k | 0 <= k < |at| :: at[k] != |front|;
    } else {
      assert forall j | 0 <= j < |at| - 1 :: at[j] < at[|at| - 1] < |chain|;
      var k :| 0 <= k < |at| && at[k] == |front|;
      assert k == |at| - 1;
      var at' := at[..k];
      forall i: nat | i < |front| && !Missing(front[i].fingerprint) ensures i in at' {
        assert chain[i] == front[i];
        var j :| 0 <= j < |at| && at[j] == i;
        assert at'[j] == i;
      }
    }
  }

  lemma {:induction false} ChainIdsAreEntries(chain: seq<ChainCertificate>, at: seq<nat>, fps: seq<string>)
    requires EntriesAre(chain, at, fps)
    ensures ChainIds(chain) == Certificates(fps)
  {
    if chain == [] {
      assert at == [];
    } else {
      var front, last := chain[..|chain| - 1], chain[|chain| - 1];
      EntriesWithoutLast(chain, at, fps);
      hide EntriesAre;
      if Missing(last.fingerprint) {
        ChainIdsAreEntries(front, at, fps);
      } else {
        ChainIdsAreEntries(front, at[..|at| - 1], fps[..|fps| - 1]);
        assert CertificateId(last.fingerprint.value) == Cert(last.fingerprint.value);
        hide Cert, CertificateId;
        assert Certificates(fps) == Certificates(fps[..|fps| - 1]) + [Cert(last.fingerprint.value)];
      }
    }
  }

  lemma NamesAre(p: NetworkPayload, f: string, at: seq<nat>, fps: seq<string>, asset: Id)
    requires Names(p, f, at, fps, asset)
    ensures LeafId(p) == Cert(f) && ChainIds(p.chain) == Certificates(fps) && AssetNodeId(p.asset) == asset
    ensures ServiceId(p) == "service:" + asset + ":tls:" + p.port + ":" + p.target
    ensures NamedAsset(p) == if Missing(p.asset.name) then None else Some(asset)
  {
    ChainIdsAreEntries(p.chain, at, fps);
    AssetNamed(p.asset, asset);
    hide EntriesAre, ChainIds, AssetNodeId, AssetIs, Certificates;
  }

  lemma AssetNamed(a: Asset, id: Id)
    requires AssetIs(a, id)
    ensures AssetNodeId(a) == id
  {
  }

  lemma SameCertificate(a: string, b: string)
    requires Cert(a) == Cert(b)
    ensures a == b
  {
    assert ("certificate:" + a)[12..] == a && ("certificate:" + b)[12..] == b;
  }

  lemma DistinctCertificates(fps: seq<string>, f: string)
    requires StableSort.Distinct(fps) && (fps == [] || f !in fps[1..])
    ensures var ids, leaf := Certificates(fps), Cert(f);
            StableSort.Distinct(ids) && (ids == [] || leaf !in ids[1..]) && (ids != [] ==> (ids[0] == leaf <==> fps[0] == f))
  {
    var ids := Certificates(fps);
    hide Cert;
    forall i, j | 0 <= i < j < |ids| ensures ids[i] != ids[j] {
      if ids[i] == ids[j] { SameCertificate(fps[i], fps[j]); }
    }
    forall i | 1 <= i < |ids| ensures ids[i] != Cert(f) {
      assert fps[i] == fps[1..][i - 1];
      if ids[i] == Cert(f) { SameCertificate(fps[i], f); }
    }
    if ids != [] && ids[0] == Cert(f) { SameCertificate(fps[0], f); }
  }

  // ----- the answers

  ghost predicate ChainAnswer(certs: seq<string>, chain: seq<Id>) {
    |chain| == |certs| && forall k | 0 <= k < |certs| :: chain[k] == Cert(certs[k])
  }

  /** How far `n` is from the last certificate: the earlier ones by their place, then the service, then the
      asset if the payload names one. */
  ghost predicate DistanceAnswer(p: NetworkPayload, certs: seq<string>, asset: Id, n: Id, k: nat) {
    || (k < |certs| && n == Cert(certs[|certs| - 1 - k]))
    || (k == |certs| && n == "service:" + asset + ":tls:" + p.port + ":" + p.target)
    || (k == |certs| + 1 && !Missing(p.asset.name) && n == asset)
  }

  ghost predicate Answers(p: NetworkPayload, certs: seq<string>, asset: Id, chain: seq<Id>, affected: seq<Affected>) {
    && ChainAnswer(certs, chain)
    && forall a :: a in affected <==> 1 <= a.depth && DistanceAnswer(p, certs, asset, a.nodeId, a.depth)
  }

  lemma PathOfNames(p: NetworkPayload, f: string, at: seq<nat>, fps: seq<string>, asset: Id)
    requires Names(p, f, at, fps, asset) && StableSort.Distinct(fps) && (fps == [] || f !in fps[1..])
    ensures StableSort.Distinct(CertificatePath(p))
    ensures CertificatePath(p) == Certificates(if fps != [] && fps[0] == f then fps else [f] + fps)
  {
    var leaf, ids := LeafId(p), ChainIds(p.chain);
    assert CertificatePath(p) == PathFrom(leaf, ids);
    hide *;
    NamesAre(p, f, at, fps, asset);
    DistinctCertificates(fps, f);
    PathOfDistinctChain(leaf, ids);
    CertificatesCons(f, fps);
  }

  lemma CertificatesCons(f: string, fps: seq<string>)
    ensures Certificates([f] + fps) == [Cert(f)] + Certificates(fps)
    ensures fps == [] <==> Certificates(fps) == []
  {
    var all, ids, first := Certificates([f] + fps), Certificates(fps), Cert(f);
    assert |ids| == |fps|;
    hide Certificates, Cert;
    assert forall k | 0 <= k < |fps| :: ([f] + fps)[k + 1] == fps[k];
    assert all[0] == first;
    assert forall k | 0 <= k < |fps| :: all[k + 1] == ids[k];
    IsCons(all, first, ids);
  }

  lemma IsCons<T>(all: seq<T>, first: T, rest: seq<T>)
    requires |all| == |rest| + 1 && all[0] == first && forall k | 0 <= k < |rest| :: all[k + 1] == rest[k]
    ensures all == [first] + rest
  {
  }

  lemma ExpectedOnFields(p: NetworkPayload, certs: seq<string>, asset: Id, n: Id, k: nat)
    requires certs != [] && ServiceId(p) == "service:" + asset + ":tls:" + p.port + ":" + p.target
    requires NamedAsset(p) == if Missing(p.asset.name) then None else Some(asset)
    ensures Expected(Certificates(certs), ServiceId(p), NamedAsset(p), n, k) <==> DistanceAnswer(p, certs, asset, n, k)
  {
    hide ServiceId, NamedAsset, Missing;
  }

  lemma AnswersOnFields(p: NetworkPayload, f: string, at: seq<nat>, fps: seq<string>, asset: Id, chain: seq<Id>, affected: seq<Affected>)
    requires Names(p, f, at, fps, asset) && StableSort.Distinct(fps) && (fps == [] || f !in fps[1..])
    requires StableSort.Distinct(CertificatePath(p)) ==> chain == CertificatePath(p)
    requires StableSort.Distinct(CertificatePath(p)) ==>
               forall a :: a in affected <==>
                 1 <= a.depth && Expected(CertificatePath(p), ServiceId(p), NamedAsset(p), a.nodeId, a.depth)
    ensures Answers(p, if fps != [] && fps[0] == f then fps else [f] + fps, asset, chain, affected)
  {
    var certs := if fps != [] && fps[0] == f then fps else [f] + fps;
    assert certs != [];
    hide *;
    PathOfNames(p, f, at, fps, asset);
    NamesAre(p, f, at, fps, asset);
    AnswersFrom(p, certs, asset, chain, affected);
  }

  lemma AnswersFrom(p: NetworkPayload, certs: seq<string>, asset: Id, chain: seq<Id>, affected: seq<Affected>)
    requires certs != [] && ServiceId(p) == "service:" + asset + ":tls:" + p.port + ":" + p.target
    requires NamedAsset(p) == if Missing(p.asset.name) then None else Some(asset)
    requires chain == Certificates(certs)
    requires forall a :: a in affected <==> 1 <= a.depth && Expected(Certificates(certs), ServiceId(p), NamedAsset(p), a.nodeId, a.depth)
    ensures Answers(p, certs, asset, chain, affected)
  {
    assert ChainAnswer(certs, chain);
    hide ServiceId, NamedAsset, Expected, DistanceAnswer, Missing, Certificates, ChainAnswer;
    forall a ensures a in affected <==> 1 <= a.depth && DistanceAnswer(p, certs, asset, a.nodeId, a.depth) {
      ExpectedOnFields(p, certs, asset, a.nodeId, a.depth);
    }
  }

  /** The whole pipeline: project, check, and ask both questions. */
  method ProjectAndQuery(h: HostPayload, p: NetworkPayload, digest: string -> string)
    returns (chain: seq<Id>, affected: seq<Affected>)
    ensures chain == CertificatePath(p) <==> StableSort.Distinct(CertificatePath(p))
    ensures StableSort.Distinct(CertificatePath(p)) ==>
              forall a :: a in affected <==>
                1 <= a.depth && Expected(CertificatePath(p), ServiceId(p), NamedAsset(p), a.nodeId, a.depth)
    ensures forall f, at, fps, asset | Names(p, f, at, fps, asset) && StableSort.Distinct(fps) && (fps == [] || f !in fps[1..]) ::
              Answers(p, if fps != [] && fps[0] == f then fps else [f] + fps, asset, chain, affected)
  {
    var _, snapshotEdges, _, _ := BuildSnapshot(h, p, digest);
    var edges := seq(|snapshotEdges|, i requires 0 <= i < |snapshotEdges| => AsEdge(snapshotEdges[i]));
    assert edges == QueryEdges(h, p, digest);
    chain := TrustChain(edges, LeafId(p));
    TrustChainOfProjection(h, p, digest, chain);
    var path := CertificatePath(p);
    hide QueryEdges, CertificatePath, ServiceId, NamedAsset;
    var reported, _ := BlastRadius(edges, path[|path| - 1], None, None);
    affected := reported;
    if StableSort.Distinct(path) {
      forall a ensures a in affected <==>
          1 <= a.depth && Expected(path, ServiceId(p), NamedAsset(p), a.nodeId, a.depth)
      {
        BlastRadiusOfProjection(h, p, digest, a.nodeId, a.depth);
        assert Search(edges, Wanted(None), path[|path| - 1], None) == FromLast(edges, path);
      }
    }
    forall f, at, fps, asset | Names(p, f, at, fps, asset) && StableSort.Distinct(fps) && (fps == [] || f !in fps[1..])
      ensures Answers(p, if fps != [] && fps[0] == f then fps else [f] + fps, asset, chain, affected)
    {
      AnswersOnFields(p, f, at, fps, asset, chain, affected);
    }
  }
  // ----- which nodes a snapshot has

  /** The size of the key, as far as it is known: a zero in the first place counts as missing. */
  ghost predicate KnownSize(c: Certificate, size: int) {
    if c.sizeBits == None || c.sizeBits == Some(0) then c.publicKeySize == Some(size) else c.sizeBits == Some(size)
  }

  ghost predicate SmallKey(c: Certificate) {
    exists size :: KnownSize(c, size) && size < 2048
  }

  /** The algorithm as it is written in one of two places. */
  ghost predicate AlgorithmIs(c: Certificate, name: string) {
    if !Missing(c.publicKey) then c.publicKey == Some(name) else !Missing(c.publicKeyAlgorithm) && c.publicKeyAlgorithm == Some(name)
  }

  /** `token` stands somewhere in `name`, lower and upper case letters being the same. */
  ghost predicate Mentions(name: string, token: string) {
    exists i: nat :: MentionsAt(name, token, i)
  }

  ghost predicate MentionsAt(name: string, token: string, i: nat) {
    i + |token| <= |name| && forall k | 0 <= k < |token| :: SameLetter(name[i + k], token[k])
  }

  ghost predicate SameLetter(c: char, upper: char) {
    if 'a' <= c <= 'z' then c as int - 32 == upper as int else c == upper
  }

  /** A longer token that contains one of these, such as ECDSA, need not be asked for. */
  ghost predicate BreakableKey(c: Certificate) {
    exists name :: AlgorithmIs(c, name)
      && (Mentions(name, "RSA") || Mentions(name, "DSA") || Mentions(name, "DH") || Mentions(name, "EC") || Mentions(name, "ED25519"))
  }

  ghost predicate HostHas(h: HostPayload, digest: string -> string, asset: Id, id: Id) {
    || id == asset
    || (exists i | 0 <= i < |h.packages| ::
          id == "package:" + asset + ":" + h.packageManager + ":" + (if h.packages[i] == None then "unknown" else h.packages[i].value))
    || (exists path | path in h.certificateFiles + h.configFiles :: id == "config:" + asset + ":" + digest(path))
    || (h.privateKeyFiles > 0 && id == "finding:" + asset + ":private_key_indicator")
  }

  ghost predicate NetworkHas(p: NetworkPayload, f: string, asset: Id, id: Id) {
    var service := "service:" + asset + ":tls:" + p.port + ":" + p.target;
    || (!Missing(p.asset.name) && id == asset)
    || id == service || id == Cert(f)
    || (BreakableKey(p.certificate) && id == "finding:" + service + ":quantum_vulnerable_public_key")
    || (SmallKey(p.certificate) && id == "finding:" + service + ":weak_public_key")
    || (exists c | c in p.chain :: !Missing(c.fingerprint) && id == Cert(c.fingerprint.value))
  }

  lemma WeakKeyIff(c: Certificate)
    ensures WeakKey(c) <==> SmallKey(c)
  {
    if WeakKey(c) {
      assert KnownSize(c, KeySize(c).value);
    }
  }

  lemma MentionsIff(name: string, token: string)
    ensures Contains(Upper(name), token) <==> Mentions(name, token)
  {
    var u := Upper(name);
    assert forall k | 0 <= k < |name| :: forall t: char :: SameLetter(name[k], t) <==> u[k] == t;
    hide Upper, SameLetter;
    if Contains(u, token) {
      var i: nat :| i <= |u| && token <= u[i..];
      assert forall k | 0 <= k < |token| :: token[k] == u[i..][k];
      assert MentionsAt(name, token, i);
    }
    if i: nat :| MentionsAt(name, token, i) {
      assert forall k | 0 <= k < |token| :: u[i..][k] == token[k];
      assert token <= u[i..];
    }
  }

  lemma MentionsPrefix(name: string, token: string, part: string)
    requires part <= token && Mentions(name, token)
    ensures Mentions(name, part)
  {
    var i: nat :| MentionsAt(name, token, i);
    hide SameLetter;
    assert forall k | 0 <= k < |part| :: part[k] == token[k];
    assert MentionsAt(name, part, i);
  }

  lemma TokensMentioned(name: string)
    ensures (exists token | token in ["RSA", "ECDSA", "ECDH", "DSA", "DH", "ED25519", "EC"] :: Contains(Upper(name), token)) <==>
            Mentions(name, "RSA") || Mentions(name, "DSA") || Mentions(name, "DH") || Mentions(name, "EC") || Mentions(name, "ED25519")
  {
    forall token | token in ["RSA", "ECDSA", "ECDH", "DSA", "DH", "ED25519", "EC"] ensures Contains(Upper(name), token) <==> Mentions(name, token) {
      MentionsIff(name, token);
    }
    hide Contains, Upper, Mentions;
    if Mentions(name, "ECDSA") {
      MentionsPrefix(name, "ECDSA", "EC");
    }
    if Mentions(name, "ECDH") {
      MentionsPrefix(name, "ECDH", "EC");
    }
    assert "RSA" in ["RSA", "ECDSA", "ECDH", "DSA", "DH", "ED25519", "EC"];
  }

  lemma BreakableIff(c: Certificate)
    ensures QuantumVulnerable(c) <==> BreakableKey(c)
  {
    var name := GraphProjection.Or(c.publicKey, GraphProjection.Or(c.publicKeyAlgorithm, ""));
    TokensMentioned(name);
    assert forall other :: AlgorithmIs(c, other) <==> name != "" && other == name;
    assert QuantumVulnerable(c) <==> name != "" && exists token | token in ["RSA", "ECDSA", "ECDH", "DSA", "DH", "ED25519", "EC"] :: Contains(Upper(name), token);
    hide QuantumVulnerable, Contains, Upper, Mentions, AlgorithmIs;
    assert name != "" ==> AlgorithmIs(c, name);
  }

  lemma NamedJoin(a: seq<Node>, b: seq<Node>, id: Id)
    ensures GraphProjection.Named(a + b, id) <==> GraphProjection.Named(a, id) || GraphProjection.Named(b, id)
  {
    if GraphProjection.Named(a, id) || GraphProjection.Named(b, id) {
      var n :| (n in a || n in b) && n.id == id;
      assert n in a + b;
    }
  }

  lemma NamedWhen(on: bool, n: Node, id: Id)
    ensures GraphProjection.Named(if on then [n] else [], id) <==> on && n.id == id
  {
    assert n in [n];
  }

  lemma NamedPackages(h: HostPayload, id: Id)
    ensures GraphProjection.Named(PackageNodes(h), id) <==>
            exists i | 0 <= i < |h.packages| :: id == "package:" + AssetNodeId(h.asset) + ":" + h.packageManager + ":" + (if h.packages[i] == None then "unknown" else h.packages[i].value)
  {
    var ns := PackageNodes(h);
    hide AssetNodeId;
    assert forall i | 0 <= i < |h.packages| :: ns[i].id == "package:" + AssetNodeId(h.asset) + ":" + h.packageManager + ":" + (if h.packages[i] == None then "unknown" else h.packages[i].value);
    hide PackageNodes;
    forall i | 0 <= i < |ns| ensures ns[i] in ns {
    }
  }

  lemma NamedConfigs(h: HostPayload, kind: string, files: seq<string>, digest: string -> string, id: Id)
    ensures GraphProjection.Named(ConfigNodes(h, kind, files, digest), id) <==>
            exists path | path in files :: id == "config:" + AssetNodeId(h.asset) + ":" + digest(path)
  {
    var ns := ConfigNodes(h, kind, files, digest);
    hide AssetNodeId;
    assert forall i | 0 <= i < |files| :: ns[i].id == "config:" + AssetNodeId(h.asset) + ":" + digest(files[i]);
    hide ConfigNodes;
    forall i | 0 <= i < |ns| ensures ns[i] in ns {
    }
  }

  lemma HostNodeIff(h: HostPayload, digest: string -> string, asset: Id, id: Id)
    requires AssetIs(h.asset, asset)
    ensures GraphProjection.Named(HostNodes(h, digest), id) <==> HostHas(h, digest, asset, id)
  {
    AssetNamed(h.asset, asset);
    var first := Node(AssetNodeId(h.asset), "Asset", GetOr(h.asset.name, "unknown"), HOST, 1.0);
    var key := Node(KeyFindingId(h), "CryptoFinding", "private_key_indicator", HOST, 1.0);
    var a, b := PackageNodes(h), ConfigNodes(h, "certificate_file", h.certificateFiles, digest);
    var c := ConfigNodes(h, "config_file", h.configFiles, digest);
    var last := if h.privateKeyFiles > 0 then [key] else [];
    assert HostNodes(h, digest) == [first] + a + b + c + last;
    assert first.id == asset && key.id == "finding:" + asset + ":private_key_indicator";
    NamedWhen(true, first, id);
    NamedWhen(h.privateKeyFiles > 0, key, id);
    NamedPackages(h, id);
    NamedConfigs(h, "certificate_file", h.certificateFiles, digest, id);
    NamedConfigs(h, "config_file", h.configFiles, digest, id);
    hide HostNodes, PackageNodes, ConfigNodes, AssetIs, AssetNodeId, KeyFindingId, GraphProjection.Named;
    NamedJoin([first] + a + b + c, last, id);
    NamedJoin([first] + a + b, c, id);
    NamedJoin([first] + a, b, id);
    NamedJoin([first], a, id);
    ConfigPaths(h, digest, asset, id);
  }

  lemma ConfigPaths(h: HostPayload, digest: string -> string, asset: Id, id: Id)
    ensures (exists path | path in h.certificateFiles + h.configFiles :: id == "config:" + asset + ":" + digest(path)) <==>
            (exists path | path in h.certificateFiles :: id == "config:" + asset + ":" + digest(path))
            || (exists path | path in h.configFiles :: id == "config:" + asset + ":" + digest(path))
  {
    var files := h.certificateFiles + h.configFiles;
    assert forall path | path in h.certificateFiles || path in h.configFiles :: path in files;
    assert forall path | path in files :: path in h.certificateFiles || path in h.configFiles;
  }

  lemma {:induction false} NamedChain(chain: seq<ChainCertificate>, id: Id)
    ensures GraphProjection.Named(ChainNodes(chain), id) <==> exists c | c in chain :: !Missing(c.fingerprint) && id == Cert(c.fingerprint.value)
  {
    if chain != [] {
      var front, last := chain[..|chain| - 1], chain[|chain| - 1];
      NamedChain(front, id);
      assert chain == front + [last];
      assert forall c :: c in chain <==> c in front || c == last;
      if !Missing(last.fingerprint) {
        assert ChainNodes(chain) == ChainNodes(front) + [ChainNode(last)];
        NamedJoin(ChainNodes(front), [ChainNode(last)], id);
        NamedWhen(true, ChainNode(last), id);
      } else {
        assert ChainNodes(chain) == ChainNodes(front);
      }
    }
  }

  lemma NetworkNodeIff(p: NetworkPayload, f: string, asset: Id, id: Id)
    requires LeafIs(p.certificate, f) && AssetIs(p.asset, asset)
    ensures GraphProjection.Named(NetworkNodes(p), id) <==> NetworkHas(p, f, asset, id)
  {
    var at, fps := EntriesExist(p.chain);
    NamesAre(p, f, at, fps, asset);
    WeakKeyIff(p.certificate);
    BreakableIff(p.certificate);
    NamedServices(p, id);
    NamedFindings(p, id);
    NamedChain(p.chain, id);
    var a, b, c := ServiceNodes(p), FindingNodes(p), ChainNodes(p.chain);
    assert NetworkNodes(p) == a + b + c;
    hide NetworkNodes, ServiceNodes, FindingNodes, ChainNodes, AssetIs, LeafIs, AssetNodeId, LeafId, ServiceId, QuantumVulnerable, WeakKey, BreakableKey, SmallKey, GraphProjection.Named;
    NamedJoin(a + b, c, id);
    NamedJoin(a, b, id);
  }

  lemma NamedServices(p: NetworkPayload, id: Id)
    ensures GraphProjection.Named(ServiceNodes(p), id) <==> (!Missing(p.asset.name) && id == AssetNodeId(p.asset)) || id == ServiceId(p) || id == LeafId(p)
  {
    hide AssetNodeId, ServiceId, LeafId, LeafFingerprint;
    if !Missing(p.asset.name) {
      assert ServiceNodes(p)[0].id == AssetNodeId(p.asset);
    }
    assert ServiceNode(p) in ServiceNodes(p) && LeafNode(p) in ServiceNodes(p);
  }

  lemma NamedFindings(p: NetworkPayload, id: Id)
    ensures GraphProjection.Named(FindingNodes(p), id) <==>
            || (QuantumVulnerable(p.certificate) && id == "finding:" + ServiceId(p) + ":quantum_vulnerable_public_key")
            || (WeakKey(p.certificate) && id == "finding:" + ServiceId(p) + ":weak_public_key")
  {
    FindingNodesAre(p);
    FindingIds(p);
    var breakable, weak := VulnerableKeyNode(p), WeakKeyNode(p);
    hide *;
    NamedTwo(QuantumVulnerable(p.certificate), breakable, WeakKey(p.certificate), weak, id);
  }

  lemma FindingNodesAre(p: NetworkPayload)
    ensures FindingNodes(p) == (if QuantumVulnerable(p.certificate) then [VulnerableKeyNode(p)] else []) + (if WeakKey(p.certificate) then [WeakKeyNode(p)] else [])
  {
    hide VulnerableKeyNode, WeakKeyNode, QuantumVulnerable, WeakKey;
  }

  lemma FindingIds(p: NetworkPayload)
    ensures VulnerableKeyNode(p).id == "finding:" + ServiceId(p) + ":quantum_vulnerable_public_key"
    ensures WeakKeyNode(p).id == "finding:" + ServiceId(p) + ":weak_public_key"
  {
    hide ServiceId;
    Regroup("finding:" + ServiceId(p), ":", "quantum_vulnerable_public_key");
    assert ":" + "quantum_vulnerable_public_key" == ":quantum_vulnerable_public_key";
    WeakFindingId(p);
  }

  lemma WeakFindingId(p: NetworkPayload)
    ensures WeakKeyNode(p).id == "finding:" + ServiceId(p) + ":weak_public_key"
  {
    hide ServiceId;
    Regroup("finding:" + ServiceId(p), ":", "weak_public_key");
    assert ":" + "weak_public_key" == ":weak_public_key";
  }

  lemma Regroup(a: string, b: string, c: string)
    ensures a + b + c == a + (b + c)
  {
  }

  lemma NamedTwo(onA: bool, a: Node, onB: bool, b: Node, id: Id)
    ensures GraphProjection.Named((if onA then [a] else []) + (if onB then [b] else []), id) <==> (onA && a.id == id) || (onB && b.id == id)
  {
    NamedWhen(onA, a, id);
    NamedWhen(onB, b, id);
    NamedJoin(if onA then [a] else [], if onB then [b] else [], id);
  }

  lemma NodesOfTwo(a: seq<Node>, b: seq<Node>, id: Id)
    requires ConfidentNodes(a) && ConfidentNodes(b)
    ensures id in PutNodes(PutNodes(Dict([], map[]), a), b).vals <==> GraphProjection.Named(a, id) || GraphProjection.Named(b, id)
  {
    var d0: Dict<Id, Node> := Dict([], map[]);
    PutNodesHolds(d0, a);
    PutNodesHolds(PutNodes(d0, a), b);
    hide PutNodes;
  }

  /** The snapshot of two payloads has exactly these nodes. */
  lemma SnapshotNodeIff(h: HostPayload, p: NetworkPayload, digest: string -> string, f: string, hostAsset: Id, asset: Id, id: Id)
    requires LeafIs(p.certificate, f) && AssetIs(h.asset, hostAsset) && AssetIs(p.asset, asset)
    ensures id in SnapshotNodes(h, p, digest).vals <==> HostHas(h, digest, hostAsset, id) || NetworkHas(p, f, asset, id)
  {
    HostEndsAmong(h, digest);
    NetworkEndsAmong(p);
    assert SnapshotNodes(h, p, digest) == PutNodes(PutNodes(Dict([], map[]), HostNodes(h, digest)), NetworkNodes(p));
    hide *;
    NodesOfTwo(HostNodes(h, digest), NetworkNodes(p), id);
    HostNodeIff(h, digest, hostAsset, id);
    NetworkNodeIff(p, f, asset, id);
  }

  lemma TooLong(s: string, short: string, long: string)
    requires |short| != |long|
    ensures s + short != s + long
  {
    assert |s + short| != |s + long|;
  }

  lemma WeakFindingElsewhere(h: HostPayload, digest: string -> string, hostAsset: Id, service: Id)
    requires Kind(hostAsset, 'a', 's')
    ensures !HostHas(h, digest, hostAsset, "finding:" + service + ":weak_public_key")
  {
    var id := "finding:" + service + ":weak_public_key";
    assert id[0] == 'f' && id[|id| - 1] == 'y';
    var other := "finding:" + hostAsset + ":private_key_indicator";
    assert other[|other| - 1] == 'r';
  }

  /** So there is a weak-key finding exactly for a known key size below 2048. */
  lemma WeakFindingIff(h: HostPayload, p: NetworkPayload, digest: string -> string, asset: Id)
    requires AssetIs(p.asset, asset)
    ensures "finding:" + ("service:" + asset + ":tls:" + p.port + ":" + p.target) + ":weak_public_key" in SnapshotNodes(h, p, digest).vals
            <==> SmallKey(p.certificate)
  {
    var service := "service:" + asset + ":tls:" + p.port + ":" + p.target;
    var id, f, hostAsset := "finding:" + service + ":weak_public_key", LeafFingerprint(p.certificate), AssetNodeId(h.asset);
    assert LeafIs(p.certificate, f) && AssetIs(h.asset, hostAsset) && Kind(hostAsset, 'a', 's') && Kind(asset, 'a', 's');
    SnapshotNodeIff(h, p, digest, f, hostAsset, asset, id);
    hide *;
    WeakFindingElsewhere(h, digest, hostAsset, service);
    OnlyWeakFinding(p, f, asset);
  }

  lemma OnlyWeakFinding(p: NetworkPayload, f: string, asset: Id)
    requires Kind(asset, 'a', 's')
    ensures NetworkHas(p, f, asset, "finding:" + ("service:" + asset + ":tls:" + p.port + ":" + p.target) + ":weak_public_key") <==> SmallKey(p.certificate)
  {
    var service := "service:" + asset + ":tls:" + p.port + ":" + p.target;
    TooLong("finding:" + service, ":weak_public_key", ":quantum_vulnerable_public_key");
    assert service[0] == 's' && forall g :: Cert(g)[0] == 'c';
    hide Cert, SmallKey, BreakableKey, Missing;
  }

  // ----- which edges a snapshot has

  ghost predicate HostLinks(h: HostPayload, digest: string -> string, asset: Id, k: EdgeKey) {
    && k.src == asset
    && (|| (k.typ == "HAS_PACKAGE" && exists i | 0 <= i < |h.packages| ::
              k.dst == "package:" + asset + ":" + h.packageManager + ":" + (if h.packages[i] == None then "unknown" else h.packages[i].value))
        || (k.typ == "HAS_CONFIG" && exists path | path in h.certificateFiles + h.configFiles :: k.dst == "config:" + asset + ":" + digest(path))
        || (k.typ == "HAS_FINDING" && h.privateKeyFiles > 0 && k.dst == "finding:" + asset + ":private_key_indicator"))
  }

  /** The issuer edges link neighbours of the certificate path. */
  ghost predicate NetworkLinks(p: NetworkPayload, f: string, asset: Id, k: EdgeKey) {
    var service := "service:" + asset + ":tls:" + p.port + ":" + p.target;
    || (k.src == service && k.typ == "USES_CERTIFICATE" && k.dst == Cert(f))
    || (!Missing(p.asset.name) && k.src == asset && k.typ == "RUNS" && k.dst == service)
    || (BreakableKey(p.certificate) && k.src == service && k.typ == "SERVICE_HAS_FINDING" && k.dst == "finding:" + service + ":quantum_vulnerable_public_key")
    || (SmallKey(p.certificate) && k.src == service && k.typ == "SERVICE_HAS_FINDING" && k.dst == "finding:" + service + ":weak_public_key")
    || (k.typ == "SIGNED_BY" && Neighbours(CertificatePath(p), k.src, k.dst))
  }

  ghost predicate Neighbours(path: seq<Id>, a: Id, b: Id) {
    exists i | 0 <= i < |path| - 1 :: path[i] == a && path[i + 1] == b
  }

  ghost predicate Keyed(es: seq<SnapshotEdge>, k: EdgeKey) {
    exists e :: e in es && e.key == k
  }

  lemma KeyedJoin(a: seq<SnapshotEdge>, b: seq<SnapshotEdge>, k: EdgeKey)
    ensures Keyed(a + b, k) <==> Keyed(a, k) || Keyed(b, k)
  {
    if Keyed(a, k) || Keyed(b, k) {
      var e :| (e in a || e in b) && e.key == k;
      assert e in a + b;
    }
  }

  lemma KeyedWhen(on: bool, e: SnapshotEdge, k: EdgeKey)
    ensures Keyed(if on then [e] else [], k) <==> on && e.key == k
  {
    assert e in [e];
  }

  lemma KeyedPackages(h: HostPayload, asset: Id, k: EdgeKey)
    requires AssetNodeId(h.asset) == asset
    ensures Keyed(PackageEdges(h), k) <==> k.src == asset && k.typ == "HAS_PACKAGE" && GraphProjection.Named(PackageNodes(h), k.dst)
  {
    var ns, es := PackageNodes(h), PackageEdges(h);
    hide AssetNodeId, PackageId;
    assert forall i | 0 <= i < |ns| :: es[i].key == EdgeKey(asset, "HAS_PACKAGE", ns[i].id);
    assert |es| == |ns|;
    hide PackageEdges, PackageNodes;
    KeyedLikeNamed(es, ns, asset, "HAS_PACKAGE", k);
  }

  lemma KeyedConfigs(h: HostPayload, kind: string, files: seq<string>, digest: string -> string, asset: Id, k: EdgeKey)
    requires AssetNodeId(h.asset) == asset
    ensures Keyed(ConfigEdges(h, files, digest), k) <==> k.src == asset && k.typ == "HAS_CONFIG" && GraphProjection.Named(ConfigNodes(h, kind, files, digest), k.dst)
  {
    var ns, es := ConfigNodes(h, kind, files, digest), ConfigEdges(h, files, digest);
    hide AssetNodeId, ConfigId;
    assert forall i | 0 <= i < |ns| :: es[i].key == EdgeKey(asset, "HAS_CONFIG", ns[i].id);
    assert |es| == |ns|;
    hide ConfigEdges, ConfigNodes;
    KeyedLikeNamed(es, ns, asset, "HAS_CONFIG", k);
  }

  lemma KeyedLikeNamed(es: seq<SnapshotEdge>, ns: seq<Node>, src: Id, typ: string, k: EdgeKey)
    requires |es| == |ns| && forall i | 0 <= i < |ns| :: es[i].key == EdgeKey(src, typ, ns[i].id)
    ensures Keyed(es, k) <==> k.src == src && k.typ == typ && GraphProjection.Named(ns, k.dst)
  {
    if GraphProjection.Named(ns, k.dst) {
      var i :| 0 <= i < |ns| && ns[i].id == k.dst;
      assert es[i] in es;
    }
    if e :| e in es && e.key == k {
      var i :| 0 <= i < |es| && es[i] == e;
      assert ns[i] in ns;
    }
  }

  lemma HostEdgeIff(h: HostPayload, digest: string -> string, asset: Id, k: EdgeKey)
    requires AssetIs(h.asset, asset)
    ensures Keyed(HostEdges(h, digest), k) <==> HostLinks(h, digest, asset, k)
  {
    AssetNamed(h.asset, asset);
    var key := Link(AssetNodeId(h.asset), "HAS_FINDING", KeyFindingId(h), HOST, 1.0);
    var a, b, c := PackageEdges(h), ConfigEdges(h, h.certificateFiles, digest), ConfigEdges(h, h.configFiles, digest);
    var last := if h.privateKeyFiles > 0 then [key] else [];
    assert HostEdges(h, digest) == a + b + c + last;
    assert key.key == EdgeKey(asset, "HAS_FINDING", "finding:" + asset + ":private_key_indicator");
    KeyedWhen(h.privateKeyFiles > 0, key, k);
    KeyedPackages(h, asset, k);
    NamedPackages(h, k.dst);
    KeyedConfigs(h, "certificate_file", h.certificateFiles, digest, asset, k);
    NamedConfigs(h, "certificate_file", h.certificateFiles, digest, k.dst);
    KeyedConfigs(h, "config_file", h.configFiles, digest, asset, k);
    NamedConfigs(h, "config_file", h.configFiles, digest, k.dst);
    hide HostEdges, PackageEdges, ConfigEdges, PackageNodes, ConfigNodes, AssetIs, AssetNodeId, KeyFindingId, GraphProjection.Named, Keyed;
    KeyedJoin(a + b + c, last, k);
    KeyedJoin(a + b, c, k);
    KeyedJoin(a, b, k);
    ConfigPaths(h, digest, asset, k.dst);
  }

  lemma KeyedPath(path: seq<Id>, k: EdgeKey)
    ensures Keyed(PathEdges(path), k) <==> k.typ == "SIGNED_BY" && Neighbours(path, k.src, k.dst)
  {
    PathEdgesLink(path);
    hide PathEdges;
    if k.typ == "SIGNED_BY" && Neighbours(path, k.src, k.dst) {
      var i :| 0 <= i < |path| - 1 && path[i] == k.src && path[i + 1] == k.dst;
      var e := Link(path[i], SIGNED_BY, path[i + 1], NETWORK, 1.0);
      assert e in PathEdges(path) && e.key == k;
    }
  }

  lemma KeyedServices(p: NetworkPayload, k: EdgeKey)
    ensures Keyed(ServiceEdges(p), k) <==>
            (Truthy(p.asset.name) && k == EdgeKey(AssetNodeId(p.asset), "RUNS", ServiceId(p))) || k == EdgeKey(ServiceId(p), "USES_CERTIFICATE", LeafId(p))
  {
    var runs, uses := Link(AssetNodeId(p.asset), "RUNS", ServiceId(p), NETWORK, 1.0), Link(ServiceId(p), "USES_CERTIFICATE", LeafId(p), NETWORK, 1.0);
    KeyedWhen(Truthy(p.asset.name), runs, k);
    KeyedWhen(true, uses, k);
    assert ServiceEdges(p) == (if Truthy(p.asset.name) then [runs] else []) + [uses];
    hide AssetNodeId, ServiceId, LeafId, ServiceEdges, Keyed, Truthy;
    KeyedJoin(if Truthy(p.asset.name) then [runs] else [], [uses], k);
  }

  lemma KeyedFindings(p: NetworkPayload, k: EdgeKey)
    ensures Keyed(FindingEdges(p), k) <==>
            k.src == ServiceId(p) && k.typ == "SERVICE_HAS_FINDING" && GraphProjection.Named(FindingNodes(p), k.dst)
  {
    var ns, es := FindingNodes(p), FindingEdges(p);
    assert |ns| == |es| && forall i | 0 <= i < |ns| :: es[i].key == EdgeKey(ServiceId(p), "SERVICE_HAS_FINDING", ns[i].id) by {
      hide ServiceId, QuantumVulnerable, WeakKey, VulnerableKeyNode, WeakKeyNode;
    }
    hide *;
    KeyedLikeNamed(es, ns, ServiceId(p), "SERVICE_HAS_FINDING", k);
  }

  lemma NetworkEdgeIff(p: NetworkPayload, f: string, asset: Id, k: EdgeKey)
    requires LeafIs(p.certificate, f) && AssetIs(p.asset, asset)
    ensures Keyed(NetworkEdges(p), k) <==> NetworkLinks(p, f, asset, k)
  {
    var at, fps := EntriesExist(p.chain);
    NamesAre(p, f, at, fps, asset);
    WeakKeyIff(p.certificate);
    BreakableIff(p.certificate);
    KeyedServices(p, k);
    KeyedFindings(p, k);
    NamedFindings(p, k.dst);
    KeyedPath(CertificatePath(p), k);
    var a, b, c := ServiceEdges(p), FindingEdges(p), PathEdges(CertificatePath(p));
    assert NetworkEdges(p) == a + b + c;
    hide NetworkEdges, ServiceEdges, FindingEdges, FindingNodes, PathEdges, AssetIs, LeafIs, AssetNodeId, LeafId, ServiceId,
      QuantumVulnerable, WeakKey, BreakableKey, SmallKey, GraphProjection.Named, Keyed, CertificatePath, Neighbours;
    KeyedJoin(a + b, c, k);
    KeyedJoin(a, b, k);
  }

  /** The snapshot of two payloads has exactly these edges. */
  lemma SnapshotEdgeIff(h: HostPayload, p: NetworkPayload, digest: string -> string, f: string, hostAsset: Id, asset: Id, k: EdgeKey)
    requires LeafIs(p.certificate, f) && AssetIs(h.asset, hostAsset) && AssetIs(p.asset, asset)
    ensures k in SnapshotEdges(h, p, digest).vals <==> HostLinks(h, digest, hostAsset, k) || NetworkLinks(p, f, asset, k)
  {
    SnapshotEdgeKeys(h, p, digest);
    assert k in SnapshotEdges(h, p, digest).vals <==> Keyed(HostEdges(h, digest), k) || Keyed(NetworkEdges(p), k) by {
      hide SnapshotEdges, HostEdges, NetworkEdges;
    }
    hide *;
    HostEdgeIff(h, digest, hostAsset, k);
    NetworkEdgeIff(p, f, asset, k);
  }
}
