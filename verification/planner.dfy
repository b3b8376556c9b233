/** Migration planning (services/planner-service/app/planner.py): one risk per asset, ordered, in three
    waves. */
module Planner {
  import opened Dictionaries
  import opened RiskEngine
  import opened Wrappers
  import StableSort

  // ----- records as the planner reads them; a missing key is `None`

  /** A dependency count as found: `Some(None)` is a value that is no number. */
  type RawCount = Option<Option<int>>

  datatype Asset = Asset(name: string, dependencyCount: RawCount, vendorBlocked: Option<bool>)

  datatype RiskDims = RiskDims(urgency: Option<real>, exposure: Option<real>, impact: Option<real>)

  datatype Risk = Risk(assetName: Option<string>, normalizedScore100: Option<real>, finalScore: Option<real>, score: Option<real>,
                       dimensions: Option<RiskDims>, confidenceScore: Option<real>, dependencyCount: RawCount,
                       vendorBlocked: Option<bool>, evidence: set<EvidenceSignal>, rationale: set<WindowsSignal>)

  datatype Reason =
    | PriorityScoreComputed | FromNormalizedScore | FromFinalScore | FromScoreField
    | FromUrgency | FromExposure | FromImpact | FromHighConfidence | ReducedLowConfidence
    | Stage2PrivateKeyFiles | Stage2WeakPublicKey | Stage2ExpiringCertificate
    | WaveCapFromPrivateKeyFiles | WaveCapFromWeakPublicKey | WaveReasonExpiringCertificate
    | Stage2CertificateFiles | Stage2TlsConfig | Stage2SshConfig | Stage2TlsDetected | Stage2CryptoPackages
    | WindowsDomainController | WindowsExpiredCertificates | WindowsWeakSignatures | WindowsLargeEstate
    | WaveCapFromWindowsHighSignal

  datatype Item = Item(assetName: string, risk: Risk, priority: real, vendorBlocked: bool, dependencyCount: nat, reasons: seq<Reason>)

  // ----- the score of one risk

  function Or<T>(x: Option<T>, other: T): T {
    if x.Some? then x.value else other
  }

  function NameOf(r: Risk): string {
    Or(r.assetName, "unknown")
  }

  function DependencyCount(a: Asset, r: Risk): nat {
    var raw := Or(Or(a.dependencyCount, Or(r.dependencyCount, Some(0))), 0);
    if raw < 0 then 0 else raw
  }

  function VendorBlocked(a: Asset, r: Risk): bool {
    Or(a.vendorBlocked, Or(r.vendorBlocked, false))
  }

  function PlanBase(r: Risk): real {
    if r.normalizedScore100.Some? then r.normalizedScore100.value
    else if r.finalScore.Some? then r.finalScore.value
    else Or(r.score, 0.0)
  }

  function DimensionBoost(dims: Option<RiskDims>): real {
    if dims.None? then 0.0
    else Or(dims.value.urgency, 0.0) * 0.10 + Or(dims.value.exposure, 0.0) * 0.05 + Or(dims.value.impact, 0.0) * 0.05
  }

  function ConfidenceAdjustment(confidence: Option<real>): real {
    if confidence.None? then 0.0
    else if confidence.value >= 80.0 then 5.0
    else if confidence.value < 50.0 then -5.0
    else 0.0
  }

  function DependencyBoost(count: nat): real {
    (if count < 10 then count else 10) as real * 1.5
  }

  predicate HighEvidence(e: set<EvidenceSignal>) {
    PrivateKeyFiles in e || WeakPublicKey in e || ExpiringCertificate in e
  }

  predicate MediumEvidence(e: set<EvidenceSignal>) {
    CertificateFiles in e || TlsConfig in e || SshConfig in e || TlsDetected in e || CryptoPackages in e
  }

  predicate HighWindows(w: set<WindowsSignal>) {
    DomainController in w || ExpiredCertificates in w || WeakSignatureCertificates in w
  }

  function Stage2Boost(e: set<EvidenceSignal>): real {
    (if HighEvidence(e) then 15.0 else 0.0) + (if MediumEvidence(e) then 5.0 else 0.0)
  }

  function WindowsBoost(w: set<WindowsSignal>): real {
    (if HighWindows(w) then 15.0 else 0.0) + (if LargeCertificateEstate in w then 5.0 else 0.0)
  }

  function Clamp(x: real): (r: real)
    ensures 0.0 <= r <= 100.0
  {
    if x < 0.0 then 0.0 else if x > 100.0 then 100.0 else x
  }

  function PriorityScore(a: Asset, r: Risk): (score: real)
    ensures 0.0 <= score <= 100.0
  {
    Clamp(PlanBase(r) + DimensionBoost(r.dimensions) + ConfidenceAdjustment(r.confidenceScore) + DependencyBoost(DependencyCount(a, r))
          + (if VendorBlocked(a, r) then 8.0 else 0.0) + Stage2Boost(r.evidence) + WindowsBoost(r.rationale))
  }

  // ----- reasons and wave caps

  function When(on: bool, reasons: seq<Reason>): seq<Reason> {
    if on then reasons else []
  }

  function ScoreReasons(r: Risk): seq<Reason> {
    [PriorityScoreComputed]
    + (if r.normalizedScore100.Some? then [FromNormalizedScore]
       else if r.finalScore.Some? then [FromFinalScore]
       else When(r.score.Some?, [FromScoreField]))
  }

  function DimensionReasons(dims: RiskDims): seq<Reason> {
    When(Or(dims.urgency, 0.0) > 0.0, [FromUrgency]) + When(Or(dims.exposure, 0.0) > 0.0, [FromExposure])
    + When(Or(dims.impact, 0.0) > 0.0, [FromImpact])
  }

  function ConfidenceReasons(confidence: Option<real>): seq<Reason> {
    When(confidence.Some? && confidence.value >= 80.0, [FromHighConfidence])
    + When(confidence.Some? && confidence.value < 50.0, [ReducedLowConfidence])
  }

  function PlanningReasons(r: Risk): seq<Reason> {
    ScoreReasons(r) + DimensionReasons(Or(r.dimensions, RiskDims(None, None, None))) + ConfidenceReasons(r.confidenceScore)
    + EvidenceReasons(r.evidence) + WindowsReasons(r.rationale)
  }

  function EvidenceReasons(e: set<EvidenceSignal>): seq<Reason> {
    When(PrivateKeyFiles in e, [Stage2PrivateKeyFiles, WaveCapFromPrivateKeyFiles])
    + When(WeakPublicKey in e, [Stage2WeakPublicKey, WaveCapFromWeakPublicKey])
    + When(ExpiringCertificate in e, [Stage2ExpiringCertificate, WaveReasonExpiringCertificate])
    + When(CertificateFiles in e, [Stage2CertificateFiles]) + When(TlsConfig in e, [Stage2TlsConfig])
    + When(SshConfig in e, [Stage2SshConfig]) + When(TlsDetected in e, [Stage2TlsDetected])
    + When(CryptoPackages in e, [Stage2CryptoPackages])
  }

  function WindowsReasons(w: set<WindowsSignal>): seq<Reason> {
    When(DomainController in w, [WindowsDomainController, WaveCapFromWindowsHighSignal])
    + When(ExpiredCertificates in w, [WindowsExpiredCertificates, WaveCapFromWindowsHighSignal])
    + When(WeakSignatureCertificates in w, [WindowsWeakSignatures, WaveCapFromWindowsHighSignal])
    + When(LargeCertificateEstate in w, [WindowsLargeEstate])
  }

  const CAP_REASONS: set<Reason> := {Stage2PrivateKeyFiles, Stage2WeakPublicKey, WaveCapFromWindowsHighSignal}

  predicate HasCapReason(reasons: seq<Reason>) {
    exists reason | reason in reasons :: reason in CAP_REASONS
  }

  lemma EvidenceCapReasons(e: set<EvidenceSignal>)
    ensures HasCapReason(EvidenceReasons(e)) <==> PrivateKeyFiles in e || WeakPublicKey in e
  {
    assert PrivateKeyFiles in e ==> Stage2PrivateKeyFiles in EvidenceReasons(e);
    assert WeakPublicKey in e ==> Stage2WeakPublicKey in EvidenceReasons(e);
  }

  lemma WindowsCapReasons(w: set<WindowsSignal>)
    ensures HasCapReason(WindowsReasons(w)) <==> HighWindows(w)
  {
    assert HighWindows(w) ==> WaveCapFromWindowsHighSignal in WindowsReasons(w);
  }

  lemma CapReasonOfJoin(a: seq<Reason>, b: seq<Reason>)
    ensures HasCapReason(a + b) <==> HasCapReason(a) || HasCapReason(b)
  {
    if HasCapReason(a) || HasCapReason(b) {
      var reason :| (reason in a || reason in b) && reason in CAP_REASONS;
      assert reason in a + b;
    }
  }

  /** The caps are read off the reasons; this is what they mean in terms of the signals. */
  lemma CapReasonIff(r: Risk)
    ensures HasCapReason(PlanningReasons(r)) <==> PrivateKeyFiles in r.evidence || WeakPublicKey in r.evidence || HighWindows(r.rationale)
  {
    var a, b, c := ScoreReasons(r), DimensionReasons(Or(r.dimensions, RiskDims(None, None, None))), ConfidenceReasons(r.confidenceScore);
    var d, e := EvidenceReasons(r.evidence), WindowsReasons(r.rationale);
    assert !HasCapReason(a) && !HasCapReason(b) && !HasCapReason(c);
    assert PlanningReasons(r) == a + b + c + d + e;
    hide *;
    CapReasonOfJoin(a + b + c + d, e);
    CapReasonOfJoin(a + b + c, d);
    CapReasonOfJoin(a + b, c);
    CapReasonOfJoin(a, b);
    EvidenceCapReasons(r.evidence);
    WindowsCapReasons(r.rationale);
  }

  // ----- one risk per asset name

  function Comparable(r: Risk): real {
    Or(r.normalizedScore100, 0.0)
  }

  /** The dictionary the loop over the risks leaves behind. */
  function Deduped(risks: seq<Risk>): Dict<string, Risk> {
    if risks == [] then Dict([], map[])
    else
      var before, risk := Deduped(risks[..|risks| - 1]), risks[|risks| - 1];
      var name := NameOf(risk);
      if name !in before.vals || Comparable(risk) > Comparable(before.vals[name]) then before.Put(name, risk) else before
  }

  /** The risk at `i` has the highest score of its asset, and is the first that has it. */
  ghost predicate IsBest(risks: seq<Risk>, i: nat)
    requires i < |risks|
  {
    && (forall j | 0 <= j < |risks| && NameOf(risks[j]) == NameOf(risks[i]) :: Comparable(risks[j]) <= Comparable(risks[i]))
    && (forall j | 0 <= j < i && NameOf(risks[j]) == NameOf(risks[i]) :: Comparable(risks[j]) < Comparable(risks[i]))
  }

  ghost predicate BestFor(risks: seq<Risk>, name: string, risk: Risk) {
    exists i: nat | i < |risks| :: risks[i] == risk && NameOf(risk) == name && IsBest(risks, i)
  }

  lemma BestAfterOther(before: seq<Risk>, risk: Risk, name: string, best: Risk)
    requires BestFor(before, name, best) && (NameOf(risk) != name || Comparable(risk) <= Comparable(best))
    ensures BestFor(before + [risk], name, best)
  {
    var i: nat :| i < |before| && before[i] == best && NameOf(best) == name && IsBest(before, i);
    var all := before + [risk];
    assert all[i] == best && IsBest(all, i);
  }

  lemma BestAfterBetter(before: seq<Risk>, risk: Risk)
    requires forall j | 0 <= j < |before| && NameOf(before[j]) == NameOf(risk) :: Comparable(before[j]) < Comparable(risk)
    ensures BestFor(before + [risk], NameOf(risk), risk)
  {
    var all := before + [risk];
    assert all[|before|] == risk && IsBest(all, |before|);
  }

  ghost predicate HoldsTheBest(risks: seq<Risk>, d: Dict<string, Risk>) {
    && d.Valid()
    && (forall name :: name in d.vals <==> Named(risks, name))
    && (forall name | name in d.vals :: BestFor(risks, name, d.vals[name]))
  }

  /** Deduplication keeps, for every asset name that occurs, the first of its highest-scoring risks. */
  lemma {:induction false} DedupedHoldsTheBest(risks: seq<Risk>)
    ensures HoldsTheBest(risks, Deduped(risks))
  {
    if risks == [] {
    } else {
      var before, risk := risks[..|risks| - 1], risks[|risks| - 1];
      DedupedHoldsTheBest(before);
      assert risks == before + [risk];
      DedupedStep(before, risk, Deduped(before));
    }
  }

  lemma DedupedStep(before: seq<Risk>, risk: Risk, d: Dict<string, Risk>)
    requires HoldsTheBest(before, d)
    ensures var name := NameOf(risk);
            HoldsTheBest(before + [risk], if name !in d.vals || Comparable(risk) > Comparable(d.vals[name]) then d.Put(name, risk) else d)
  {
    if NameOf(risk) !in d.vals || Comparable(risk) > Comparable(d.vals[NameOf(risk)]) {
      BetterReplaces(before, risk, d);
    } else {
      WorseChangesNothing(before, risk, d);
    }
  }

  lemma BetterReplaces(before: seq<Risk>, risk: Risk, d: Dict<string, Risk>)
    requires HoldsTheBest(before, d)
    requires NameOf(risk) !in d.vals || Comparable(risk) > Comparable(d.vals[NameOf(risk)])
    ensures HoldsTheBest(before + [risk], d.Put(NameOf(risk), risk))
  {
    var name := NameOf(risk);
    forall j | 0 <= j < |before| && NameOf(before[j]) == name ensures Comparable(before[j]) < Comparable(risk) {
      NoneBetter(before, d, j);
    }
    BestAfterBetter(before, risk);
    hide BestFor, Comparable, NameOf;
    forall n | n in d.vals && n != name ensures BestFor(before + [risk], n, d.vals[n]) {
      BestAfterOther(before, risk, n, d.vals[n]);
    }
    NamesAfter(before, risk, d, d.Put(name, risk));
    PutKeepsValid(d, name, risk);
    hide *;
    HoldsFrom(before + [risk], d.Put(name, risk));
  }

  lemma HoldsFrom(risks: seq<Risk>, d: Dict<string, Risk>)
    requires d.Valid() && forall name :: name in d.vals <==> Named(risks, name)
    requires forall name | name in d.vals :: BestFor(risks, name, d.vals[name])
    ensures HoldsTheBest(risks, d)
  {
    hide BestFor, Named;
  }

  lemma WorseChangesNothing(before: seq<Risk>, risk: Risk, d: Dict<string, Risk>)
    requires HoldsTheBest(before, d)
    requires NameOf(risk) in d.vals && Comparable(risk) <= Comparable(d.vals[NameOf(risk)])
    ensures HoldsTheBest(before + [risk], d)
  {
    hide BestFor, Comparable, NameOf;
    forall n | n in d.vals ensures BestFor(before + [risk], n, d.vals[n]) {
      BestAfterOther(before, risk, n, d.vals[n]);
    }
    NamesAfter(before, risk, d, d);
    hide Named;
  }

  ghost predicate Named(risks: seq<Risk>, name: string) {
    exists risk | risk in risks :: NameOf(risk) == name
  }

  lemma NamesAfter(before: seq<Risk>, risk: Risk, d: Dict<string, Risk>, d': Dict<string, Risk>)
    requires forall name :: name in d.vals <==> Named(before, name)
    requires forall name :: name in d'.vals <==> name in d.vals || name == NameOf(risk)
    ensures forall name :: name in d'.vals <==> Named(before + [risk], name)
  {
    var all := before + [risk];
    forall name ensures name in d'.vals <==> Named(all, name) {
      if Named(before, name) {
        var r :| r in before && NameOf(r) == name;
        assert r in all;
      }
      assert risk in all;
    }
  }

  lemma NoneBetter(before: seq<Risk>, d: Dict<string, Risk>, j: nat)
    requires HoldsTheBest(before, d) && j < |before|
    ensures var name := NameOf(before[j]); name in d.vals && Comparable(before[j]) <= Comparable(d.vals[name])
  {
    var name := NameOf(before[j]);
    assert before[j] in before;
    assert BestFor(before, name, d.vals[name]);
    var i: nat :| i < |before| && before[i] == d.vals[name] && IsBest(before, i);
  }
}
