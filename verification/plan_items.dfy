/** What a planned item says about its asset, in terms of the fields of the asset and of the risk it stands
    for (`build_plan` and its helpers in services/planner-service/app/planner.py). */
module PlanItems {
  import opened Planner
  import opened RiskEngine
  import opened Wrappers

  function AssetMap(assets: seq<Asset>): map<string, Asset> {
    if assets == [] then map[]
    else
      var last := assets[|assets| - 1];
      AssetMap(assets[..|assets| - 1])[last.name := last]
  }

  function AssetFor(m: map<string, Asset>, r: Risk): Asset {
    if NameOf(r) in m then m[NameOf(r)] else Asset(NameOf(r), None, None)
  }

  function ItemOf(m: map<string, Asset>, r: Risk): Item {
    ItemFor(AssetFor(m, r), r)
  }

  function ItemFor(a: Asset, r: Risk): Item {
    Item(NameOf(r), r, PriorityScore(a, r), VendorBlocked(a, r), DependencyCount(a, r), PlanningReasons(r))
  }

  // ----- the asset

  /** The asset found for a name: the last one that has it, if any has. */
  ghost predicate Finds(assets: seq<Asset>, name: string, found: Option<Asset>) {
    match found
    case None => forall a | a in assets :: a.name != name
    case Some(a) => a.name == name && exists i | 0 <= i < |assets| :: assets[i] == a && forall j | i < j < |assets| :: assets[j].name != name
  }

  lemma FoundBefore(front: seq<Asset>, last: Asset, name: string, found: Option<Asset>)
    requires Finds(front, name, found) && last.name != name
    ensures Finds(front + [last], name, found)
  {
    var assets := front + [last];
    if found.Some? {
      var i :| 0 <= i < |front| && front[i] == found.value && forall j | i < j < |front| :: front[j].name != name;
      assert assets[i] == found.value;
    }
  }

  lemma FoundLast(front: seq<Asset>, last: Asset)
    ensures Finds(front + [last], last.name, Some(last))
  {
    var assets := front + [last];
    assert assets[|front|] == last;
  }

  lemma {:induction false} MapFinds(assets: seq<Asset>, name: string)
    ensures Finds(assets, name, if name in AssetMap(assets) then Some(AssetMap(assets)[name]) else None)
  {
    if assets != [] {
      var front, last := assets[..|assets| - 1], assets[|assets| - 1];
      MapFinds(front, name);
      assert assets == front + [last];
      assert AssetMap(assets) == AssetMap(front)[last.name := last];
      hide Finds, AssetMap;
      if name == last.name {
        FoundLast(front, last);
      } else {
        FoundBefore(front, last, name, if name in AssetMap(front) then Some(AssetMap(front)[name]) else None);
      }
    }
  }

  // ----- vendor flag and dependency count

  /** The vendor flag is the asset's if it carries one, otherwise the risk's, otherwise off. */
  ghost predicate SaysVendor(found: Option<Asset>, item: Item) {
    if found.Some? && found.value.vendorBlocked.Some? then item.vendorBlocked == found.value.vendorBlocked.value
    else if item.risk.vendorBlocked.Some? then item.vendorBlocked == item.risk.vendorBlocked.value
    else !item.vendorBlocked
  }

  /** A count as found in a record: what is no number, or negative, counts as zero. */
  ghost predicate ReadAs(raw: Option<int>, count: nat) {
    if raw == None || raw.value <= 0 then count == 0 else count == raw.value
  }

  /** The count is the asset's if it carries one, even one that is no number; otherwise the risk's. */
  ghost predicate SaysCount(found: Option<Asset>, item: Item) {
    if found.Some? && found.value.dependencyCount.Some? then ReadAs(found.value.dependencyCount.value, item.dependencyCount)
    else if item.risk.dependencyCount.Some? then ReadAs(item.risk.dependencyCount.value, item.dependencyCount)
    else item.dependencyCount == 0
  }

  // ----- the priority

  /** The priority before it is limited to 0 to 100. */
  ghost function Unlimited(item: Item): real {
    BaseOf(item.risk) + DimensionShare(item.risk.dimensions)
    + (match item.risk.confidenceScore
       case None => 0.0
       case Some(c) => if c >= 80.0 then 5.0 else if c < 50.0 then -5.0 else 0.0)
    + 1.5 * (if item.dependencyCount > 10 then 10 else item.dependencyCount) as real
    + (if item.vendorBlocked then 8.0 else 0.0)
    + SignalShare(item.risk)
  }

  /** The first of three scores that is given. */
  ghost function BaseOf(r: Risk): real {
    match (r.normalizedScore100, r.finalScore, r.score)
    case (Some(s), _, _) => s
    case (None, Some(s), _) => s
    case (None, None, Some(s)) => s
    case _ => 0.0
  }

  ghost function DimensionShare(dims: Option<RiskDims>): real {
    match dims
    case None => 0.0
    case Some(d) =>
      (match d.urgency case Some(u) => u / 10.0 case None => 0.0)
      + (match d.exposure case Some(e) => e / 20.0 case None => 0.0)
      + (match d.impact case Some(i) => i / 20.0 case None => 0.0)
  }

  ghost function SignalShare(r: Risk): real {
    (if r.evidence !! {PrivateKeyFiles, WeakPublicKey, ExpiringCertificate} then 0.0 else 15.0)
    + (if r.evidence !! {CertificateFiles, TlsConfig, SshConfig, TlsDetected, CryptoPackages} then 0.0 else 5.0)
    + (if r.rationale !! {DomainController, ExpiredCertificates, WeakSignatureCertificates} then 0.0 else 15.0)
    + (if LargeCertificateEstate in r.rationale then 5.0 else 0.0)
  }

  ghost predicate SaysPriority(item: Item) {
    var sum := Unlimited(item);
    if sum <= 0.0 then item.priority == 0.0 else if sum >= 100.0 then item.priority == 100.0 else item.priority == sum
  }

  // ----- the reasons

  ghost predicate Applies(reason: Reason, r: Risk) {
    match reason
    case PriorityScoreComputed => true
    case FromNormalizedScore => r.normalizedScore100.Some?
    case FromFinalScore => r.normalizedScore100.None? && r.finalScore.Some?
    case FromScoreField => r.normalizedScore100.None? && r.finalScore.None? && r.score.Some?
    case FromUrgency => r.dimensions.Some? && r.dimensions.value.urgency.Some? && r.dimensions.value.urgency.value > 0.0
    case FromExposure => r.dimensions.Some? && r.dimensions.value.exposure.Some? && r.dimensions.value.exposure.value > 0.0
    case FromImpact => r.dimensions.Some? && r.dimensions.value.impact.Some? && r.dimensions.value.impact.value > 0.0
    case FromHighConfidence => r.confidenceScore.Some? && r.confidenceScore.value >= 80.0
    case ReducedLowConfidence => r.confidenceScore.Some? && r.confidenceScore.value < 50.0
    case Stage2PrivateKeyFiles => PrivateKeyFiles in r.evidence
    case WaveCapFromPrivateKeyFiles => PrivateKeyFiles in r.evidence
    case Stage2WeakPublicKey => WeakPublicKey in r.evidence
    case WaveCapFromWeakPublicKey => WeakPublicKey in r.evidence
    case Stage2ExpiringCertificate => ExpiringCertificate in r.evidence
    case WaveReasonExpiringCertificate => ExpiringCertificate in r.evidence
    case Stage2CertificateFiles => CertificateFiles in r.evidence
    case Stage2TlsConfig => TlsConfig in r.evidence
    case Stage2SshConfig => SshConfig in r.evidence
    case Stage2TlsDetected => TlsDetected in r.evidence
    case Stage2CryptoPackages => CryptoPackages in r.evidence
    case WindowsDomainController => DomainController in r.rationale
    case WindowsExpiredCertificates => ExpiredCertificates in r.rationale
    case WindowsWeakSignatures => WeakSignatureCertificates in r.rationale
    case WindowsLargeEstate => LargeCertificateEstate in r.rationale
    case WaveCapFromWindowsHighSignal => !(r.rationale !! {DomainController, ExpiredCertificates, WeakSignatureCertificates})
  }

  ghost predicate SaysReasons(item: Item) {
    forall reason :: reason in item.reasons <==> Applies(reason, item.risk)
  }

  lemma WhenHolds(on: bool, reasons: seq<Reason>, reason: Reason)
    ensures reason in When(on, reasons) <==> on && reason in reasons
  {
  }

  lemma JoinHolds(a: seq<Reason>, b: seq<Reason>, c: seq<Reason>, d: seq<Reason>, reason: Reason)
    ensures reason in a + b + c + d <==> reason in a || reason in b || reason in c || reason in d
  {
  }

  lemma EvidenceReasonsAre(e: set<EvidenceSignal>, reason: Reason)
    ensures reason in EvidenceReasons(e) <==>
            || (PrivateKeyFiles in e && reason in [Stage2PrivateKeyFiles, WaveCapFromPrivateKeyFiles])
            || (WeakPublicKey in e && reason in [Stage2WeakPublicKey, WaveCapFromWeakPublicKey])
            || (ExpiringCertificate in e && reason in [Stage2ExpiringCertificate, WaveReasonExpiringCertificate])
            || (CertificateFiles in e && reason == Stage2CertificateFiles) || (TlsConfig in e && reason == Stage2TlsConfig)
            || (SshConfig in e && reason == Stage2SshConfig) || (TlsDetected in e && reason == Stage2TlsDetected)
            || (CryptoPackages in e && reason == Stage2CryptoPackages)
  {
    var a := When(PrivateKeyFiles in e, [Stage2PrivateKeyFiles, WaveCapFromPrivateKeyFiles]);
    var b := When(WeakPublicKey in e, [Stage2WeakPublicKey, WaveCapFromWeakPublicKey]);
    var c := When(ExpiringCertificate in e, [Stage2ExpiringCertificate, WaveReasonExpiringCertificate]);
    var d, f := When(CertificateFiles in e, [Stage2CertificateFiles]), When(TlsConfig in e, [Stage2TlsConfig]);
    var g, h := When(SshConfig in e, [Stage2SshConfig]), When(TlsDetected in e, [Stage2TlsDetected]);
    var k := When(CryptoPackages in e, [Stage2CryptoPackages]);
    assert EvidenceReasons(e) == a + b + c + d + f + g + h + k;
    hide EvidenceReasons, When;
    JoinHolds(a + b + c + d + f, g, h, k, reason);
    JoinHolds(a + b, c, d, f, reason);
    JoinHolds([], [], a, b, reason);
    assert [] + [] + a + b == a + b;
    WhenHolds(PrivateKeyFiles in e, [Stage2PrivateKeyFiles, WaveCapFromPrivateKeyFiles], reason);
    WhenHolds(WeakPublicKey in e, [Stage2WeakPublicKey, WaveCapFromWeakPublicKey], reason);
    WhenHolds(ExpiringCertificate in e, [Stage2ExpiringCertificate, WaveReasonExpiringCertificate], reason);
    WhenHolds(CertificateFiles in e, [Stage2CertificateFiles], reason);
    WhenHolds(TlsConfig in e, [Stage2TlsConfig], reason);
    WhenHolds(SshConfig in e, [Stage2SshConfig], reason);
    WhenHolds(TlsDetected in e, [Stage2TlsDetected], reason);
    WhenHolds(CryptoPackages in e, [Stage2CryptoPackages], reason);
  }

  lemma EvidenceReasonsApply(r: Risk, reason: Reason)
    ensures reason in EvidenceReasons(r.evidence) <==>
            (reason.Stage2PrivateKeyFiles? || reason.WaveCapFromPrivateKeyFiles? || reason.Stage2WeakPublicKey? || reason.WaveCapFromWeakPublicKey?
             || reason.Stage2ExpiringCertificate? || reason.WaveReasonExpiringCertificate? || reason.Stage2CertificateFiles?
             || reason.Stage2TlsConfig? || reason.Stage2SshConfig? || reason.Stage2TlsDetected? || reason.Stage2CryptoPackages?)
            && Applies(reason, r)
  {
    EvidenceReasonsAre(r.evidence, reason);
    hide EvidenceReasons;
  }

  lemma WindowsReasonsApply(r: Risk, reason: Reason)
    ensures reason in WindowsReasons(r.rationale) <==>
            (reason.WindowsDomainController? || reason.WindowsExpiredCertificates? || reason.WindowsWeakSignatures?
             || reason.WindowsLargeEstate? || reason.WaveCapFromWindowsHighSignal?) && Applies(reason, r)
  {
    var w := r.rationale;
    WhenHolds(DomainController in w, [WindowsDomainController, WaveCapFromWindowsHighSignal], reason);
    WhenHolds(ExpiredCertificates in w, [WindowsExpiredCertificates, WaveCapFromWindowsHighSignal], reason);
    WhenHolds(WeakSignatureCertificates in w, [WindowsWeakSignatures, WaveCapFromWindowsHighSignal], reason);
    WhenHolds(LargeCertificateEstate in w, [WindowsLargeEstate], reason);
    hide When;
  }

  lemma ScoreReasonsApply(r: Risk, reason: Reason)
    ensures reason in ScoreReasons(r) <==>
            (reason.PriorityScoreComputed? || reason.FromNormalizedScore? || reason.FromFinalScore? || reason.FromScoreField?) && Applies(reason, r)
    ensures reason in DimensionReasons(Or(r.dimensions, RiskDims(None, None, None))) <==>
            (reason.FromUrgency? || reason.FromExposure? || reason.FromImpact?) && Applies(reason, r)
    ensures reason in ConfidenceReasons(r.confidenceScore) <==>
            (reason.FromHighConfidence? || reason.ReducedLowConfidence?) && Applies(reason, r)
  {
  }

  lemma ReasonsApply(r: Risk, reason: Reason)
    ensures reason in PlanningReasons(r) <==> Applies(reason, r)
  {
    ScoreReasonsApply(r, reason);
    EvidenceReasonsApply(r, reason);
    WindowsReasonsApply(r, reason);
    hide ScoreReasons, DimensionReasons, ConfidenceReasons, EvidenceReasons, WindowsReasons;
  }

  // ----- the item

  /** The item is about the asset its risk names, and flag, count, priority and reasons are what the asset
      found and the risk say. */
  ghost predicate Faithful(assets: seq<Asset>, item: Item) {
    && item.assetName == (if item.risk.assetName.Some? then item.risk.assetName.value else "unknown")
    && (exists found :: Finds(assets, item.assetName, found) && SaysVendor(found, item) && SaysCount(found, item))
    && SaysPriority(item) && SaysReasons(item)
  }

  lemma PriorityIsTheSum(a: Asset, r: Risk)
    ensures SaysPriority(ItemFor(a, r))
  {
    SignalsShare(r);
    hide DependencyCount, VendorBlocked, Stage2Boost, WindowsBoost, SignalShare, PlanningReasons;
  }

  lemma SignalsShare(r: Risk)
    ensures Stage2Boost(r.evidence) + WindowsBoost(r.rationale) == SignalShare(r)
  {
    assert HighEvidence(r.evidence) <==> !(r.evidence !! {PrivateKeyFiles, WeakPublicKey, ExpiringCertificate});
    assert MediumEvidence(r.evidence) <==> !(r.evidence !! {CertificateFiles, TlsConfig, SshConfig, TlsDetected, CryptoPackages});
    assert HighWindows(r.rationale) <==> !(r.rationale !! {DomainController, ExpiredCertificates, WeakSignatureCertificates});
    hide HighEvidence, MediumEvidence, HighWindows;
  }

  lemma OverridesAreUsed(m: map<string, Asset>, r: Risk)
    ensures var found := if NameOf(r) in m then Some(m[NameOf(r)]) else None;
            SaysVendor(found, ItemOf(m, r)) && SaysCount(found, ItemOf(m, r))
  {
    hide PriorityScore, PlanningReasons;
  }

  lemma ReasonsAreListed(a: Asset, r: Risk)
    ensures SaysReasons(ItemFor(a, r))
  {
    var item := ItemFor(a, r);
    assert item.reasons == PlanningReasons(r) && item.risk == r;
    hide PlanningReasons, Applies, ItemFor;
    forall reason ensures reason in item.reasons <==> Applies(reason, r) {
      ReasonsApply(r, reason);
    }
  }

  lemma ItemIsFaithful(assets: seq<Asset>, r: Risk)
    ensures Faithful(assets, ItemOf(AssetMap(assets), r))
  {
    var m, item := AssetMap(assets), ItemOf(AssetMap(assets), r);
    assert item == ItemFor(AssetFor(m, r), r) && item.assetName == NameOf(r) && item.risk == r;
    hide ItemFor, AssetMap, SaysVendor, SaysCount, SaysPriority, SaysReasons, Finds;
    MapFinds(assets, NameOf(r));
    OverridesAreUsed(m, r);
    PriorityIsTheSum(AssetFor(m, r), r);
    ReasonsAreListed(AssetFor(m, r), r);
  }

  // ----- the risk

  ghost predicate SameAsset(r: Risk, q: Risk) {
    match (r.assetName, q.assetName)
    case (Some(a), Some(b)) => a == b
    case (Some(a), None) => a == "unknown"
    case (None, Some(b)) => b == "unknown"
    case (None, None) => true
  }

  ghost function ShownScore(r: Risk): real {
    match r.normalizedScore100 case Some(s) => s case None => 0.0
  }

  /** No risk of the same asset has a higher normalized score, a missing one counting as zero, and none before
      it has the same. */
  ghost predicate Outscores(risks: seq<Risk>, r: Risk) {
    exists i | 0 <= i < |risks| :: risks[i] == r
      && (forall j | 0 <= j < |risks| && SameAsset(risks[j], r) :: ShownScore(risks[j]) <= ShownScore(r))
      && (forall j | 0 <= j < i && SameAsset(risks[j], r) :: ShownScore(risks[j]) < ShownScore(r))
  }

  lemma BestOutscores(risks: seq<Risk>, name: string, r: Risk)
    requires BestFor(risks, name, r)
    ensures Outscores(risks, r)
  {
    var i: nat :| i < |risks| && risks[i] == r && NameOf(r) == name && IsBest(risks, i);
    assert forall q: Risk :: SameAsset(q, r) <==> NameOf(q) == NameOf(r);
    assert forall q: Risk :: ShownScore(q) == Comparable(q);
    assert risks[i] == r;
  }

  // ----- what vendor and dependencies are worth

  /** Two items whose risks differ in nothing else: each dependency up to the tenth is worth 1.5 points, a
      blocked vendor 8, before the priority is limited to 0 to 100. */
  lemma VendorAndDependencies(item: Item, item': Item)
    requires item'.risk == item.risk.(vendorBlocked := item'.risk.vendorBlocked, dependencyCount := item'.risk.dependencyCount)
    ensures item.vendorBlocked && !item'.vendorBlocked && item.dependencyCount == item'.dependencyCount ==>
              Unlimited(item) == Unlimited(item') + 8.0
    ensures item.vendorBlocked == item'.vendorBlocked && item'.dependencyCount <= item.dependencyCount <= 10 ==>
              Unlimited(item) == Unlimited(item') + 1.5 * (item.dependencyCount - item'.dependencyCount) as real
    ensures item.vendorBlocked == item'.vendorBlocked && item'.dependencyCount >= 10 && item.dependencyCount >= 10 ==>
              Unlimited(item) == Unlimited(item')
  {
    assert BaseOf(item'.risk) == BaseOf(item.risk) && SignalShare(item'.risk) == SignalShare(item.risk);
    hide BaseOf, DimensionShare, SignalShare;
  }

  /** So on planned items a blocked vendor means eight points more, as far as the limits leave room. */
  lemma BlockedVendorAddsEight(assets: seq<Asset>, item: Item, assets': seq<Asset>, item': Item)
    requires Faithful(assets, item) && Faithful(assets', item')
    requires item'.risk == item.risk.(vendorBlocked := item'.risk.vendorBlocked, dependencyCount := item'.risk.dependencyCount)
    requires item.vendorBlocked && !item'.vendorBlocked && item.dependencyCount == item'.dependencyCount
    ensures item'.priority <= item.priority <= item'.priority + 8.0
    ensures item'.priority > 0.0 && item.priority < 100.0 ==> item.priority == item'.priority + 8.0
  {
    VendorAndDependencies(item, item');
    hide Unlimited, SaysVendor, SaysCount, SaysReasons, Finds;
  }
}
