/** Risk scoring (services/risk-engine/app/main.py). Signals that the service reads out of raw payloads are
    given here as the sets of those that are on. */
module RiskEngine {
  import opened Wrappers

  // ----- signals and their weights

  datatype EvidenceSignal =
    | CryptoPackages | CertificateFiles | PrivateKeyFiles | TlsConfig | SshConfig | TlsDetected
    | WeakPublicKey | ExpiringCertificate | CertificateChainAvailable
    | WeakSshKex | LegacySshHostKey | WeakSshCipher | WeakSshMac
    | EmbeddedPrivateKeyInRepo | CiSigningCommand
    | WeakIpsecEncryption | WeakIpsecIntegrity | WeakIpsecPrf | LegacyIpsecDhGroup
    | AdWeakCertificateTemplate | AdCaCertificateExpiring | AdLargeCertificateEstate

  datatype WindowsSignal =
    | ExpiredCertificates | WeakSignatureCertificates | DomainController | LargeCertificateEstate | CryptoServicesPresent

  const EVIDENCE_SIGNAL_WEIGHTS: seq<(EvidenceSignal, real)> := [
    (CryptoPackages, 3.0), (CertificateFiles, 5.0), (PrivateKeyFiles, 10.0), (TlsConfig, 4.0), (SshConfig, 3.0),
    (TlsDetected, 4.0), (WeakPublicKey, 15.0), (ExpiringCertificate, 8.0), (CertificateChainAvailable, 2.0),
    (WeakSshKex, 6.0), (LegacySshHostKey, 8.0), (WeakSshCipher, 4.0), (WeakSshMac, 3.0),
    (EmbeddedPrivateKeyInRepo, 12.0), (CiSigningCommand, 3.0), (WeakIpsecEncryption, 6.0), (WeakIpsecIntegrity, 3.0),
    (WeakIpsecPrf, 4.0), (LegacyIpsecDhGroup, 8.0), (AdWeakCertificateTemplate, 10.0), (AdCaCertificateExpiring, 8.0),
    (AdLargeCertificateEstate, 3.0)]

  const WINDOWS_SIGNAL_WEIGHTS: seq<(WindowsSignal, real)> := [
    (ExpiredCertificates, 8.0), (WeakSignatureCertificates, 6.0), (DomainController, 5.0), (LargeCertificateEstate, 3.0),
    (CryptoServicesPresent, 2.0)]

  datatype Scenario =
    | PublicTimeline | EarlyBreak | HiddenCapability | HndlActiveNow | PartialBreak | VendorLag | CompliancePressure

  function Multiplier(s: Scenario): (m: real)
    ensures 1.0 <= m <= 1.4
  {
    match s
    case PublicTimeline => 1.00
    case EarlyBreak => 1.20
    case HiddenCapability => 1.35
    case HndlActiveNow => 1.40
    case PartialBreak => 1.10
    case VendorLag => 1.15
    case CompliancePressure => 1.18
  }

  // ----- input and output records

  datatype Factors = Factors(criticality: real, confidentialityLifetime: real, quantumExposure: real, blastRadius: real,
                             vendorLockIn: real, migrationDifficulty: real)

  ghost predicate InRange(f: Factors) {
    Between(f, 0.0, 5.0)
  }

  datatype Signals = Signals(evidence: set<EvidenceSignal>, windows: set<WindowsSignal>, windowsEvidencePresent: bool,
                             cryptoEvidencePresent: bool)

  /** The rest of a request: the environment is blank, something, or "production"; the notes may mention
      harvest-now-decrypt-later or a migration plan. */
  datatype Environment = Blank | Named | Production

  datatype RiskInput = RiskInput(assetName: string, factors: Factors, dependencyCount: nat, environment: Environment,
                                 vendorBlocked: bool, scenario: Scenario, notesGiven: bool, hndlNoted: bool, pqcPlanNoted: bool,
                                 signals: Signals)

  datatype Rating = Minimal | Low | Medium | High | Critical

  datatype Dimensions = Dimensions(exposure: real, impact: real, urgency: real, migrationComplexity: real)

  datatype RiskOutput = RiskOutput(assetName: string, baseScore: real, finalScore: real, normalizedScore100: real, rating: Rating,
                                   dependencyCount: nat, vendorBlocked: bool, signals: Signals, confidenceScore: real,
                                   dimensions: Dimensions)

  // ----- scoring

  function BaseScore(f: Factors): real {
    f.criticality * 0.25 + f.confidentialityLifetime * 0.20 + f.quantumExposure * 0.20 + f.blastRadius * 0.15
    + f.vendorLockIn * 0.10 + f.migrationDifficulty * 0.10
  }

  /** The weights of those signals of a table that are on. */
  function WeightOn<T(==)>(table: seq<(T, real)>, on: set<T>): real {
    if table == [] then 0.0
    else
      var (signal, weight) := table[|table| - 1];
      WeightOn(table[..|table| - 1], on) + (if signal in on then weight else 0.0)
  }

  function CircumstanceWeight(d: RiskInput): real {
    (if d.vendorBlocked then 0.20 else 0.0) + (if d.dependencyCount >= 10 then 0.15 else 0.0)
    + (if d.hndlNoted then 0.10 else 0.0) - (if d.pqcPlanNoted then 0.10 else 0.0)
  }

  function Stage2Adjustment(d: RiskInput): real {
    var sum := CircumstanceWeight(d) + WeightOn(EVIDENCE_SIGNAL_WEIGHTS, d.signals.evidence)
               + WeightOn(WINDOWS_SIGNAL_WEIGHTS, d.signals.windows);
    if sum < 0.0 then 0.0 else sum
  }

  lemma WeightOnStep<T>(table: seq<(T, real)>, i: nat, on: set<T>)
    requires i < |table|
    ensures WeightOn(table[..i + 1], on) == WeightOn(table[..i], on) + (if table[i].0 in on then table[i].1 else 0.0)
  {
    assert table[..i + 1][..i] == table[..i];
  }

  method AddWeights<T(==)>(start: real, table: seq<(T, real)>, on: set<T>) returns (adjustment: real)
    ensures adjustment == start + WeightOn(table, on)
  {
    adjustment := start;
    for i := 0 to |table|
      invariant adjustment == start + WeightOn(table[..i], on)
    {
      WeightOnStep(table, i, on);
      if table[i].0 in on {
        adjustment := adjustment + table[i].1;
      }
    }
    assert table[..|table|] == table;
  }

  method CalculateStage2Adjustment(d: RiskInput) returns (adjustment: real)
    ensures adjustment == Stage2Adjustment(d)
  {
    adjustment := 0.0;
    if d.vendorBlocked {
      adjustment := adjustment + 0.20;
    }
    if d.dependencyCount >= 10 {
      adjustment := adjustment + 0.15;
    }
    if d.hndlNoted {
      adjustment := adjustment + 0.10;
    }
    if d.pqcPlanNoted {
      adjustment := adjustment - 0.10;
    }
    hide WeightOn;
    adjustment := AddWeights(adjustment, EVIDENCE_SIGNAL_WEIGHTS, d.signals.evidence);
    adjustment := AddWeights(adjustment, WINDOWS_SIGNAL_WEIGHTS, d.signals.windows);
    if adjustment < 0.0 {
      adjustment := 0.0;
    }
  }

  function CapScore(value: real): (r: real)
    ensures 0.0 <= r <= 100.0
    ensures 0.0 <= value <= 100.0 ==> r == value
  {
    if value < 0.0 then 0.0 else if value > 100.0 then 100.0 else value
  }

  ghost predicate Percent(x: real) {
    0.0 <= x <= 100.0
  }

  ghost predicate PercentDimensions(dims: Dimensions) {
    Percent(dims.exposure) && Percent(dims.impact) && Percent(dims.urgency) && Percent(dims.migrationComplexity)
  }

  function Points(on: bool, points: real): real {
    if on then points else 0.0
  }

  function ConfidenceScore(d: RiskInput): real {
    var s := d.signals;
    CapScore(50.0 + Points(d.factors.criticality > 0.0, 10.0) + Points(!d.environment.Blank?, 10.0) + Points(s.evidence != {}, 10.0)
             + Points(TlsDetected in s.evidence, 10.0) + Points(s.cryptoEvidencePresent, 10.0)
             + Points(s.windowsEvidencePresent, 10.0) + Points(CertificateChainAvailable in s.evidence, 5.0) + Points(d.notesGiven, 5.0))
  }

  method CalculateConfidenceScore(d: RiskInput) returns (confidenceScore: real)
    ensures confidenceScore == ConfidenceScore(d) && 50.0 <= confidenceScore <= 100.0
  {
    confidenceScore := 50.0;
    confidenceScore := confidenceScore + Points(d.factors.criticality > 0.0, 10.0);
    confidenceScore := confidenceScore + Points(!d.environment.Blank?, 10.0);
    confidenceScore := confidenceScore + Points(d.signals.evidence != {}, 10.0);
    confidenceScore := confidenceScore + Points(TlsDetected in d.signals.evidence, 10.0);
    confidenceScore := confidenceScore + Points(d.signals.cryptoEvidencePresent, 10.0);
    confidenceScore := confidenceScore + Points(d.signals.windowsEvidencePresent, 10.0);
    confidenceScore := confidenceScore + Points(CertificateChainAvailable in d.signals.evidence, 5.0);
    confidenceScore := confidenceScore + Points(d.notesGiven, 5.0);
    confidenceScore := CapScore(confidenceScore);
  }

  function Exposure(d: RiskInput): real {
    var e, w := d.signals.evidence, d.signals.windows;
    CapScore(d.factors.quantumExposure / 5.0 * 100.0
             + Points(TlsDetected in e, 10.0) + Points(TlsConfig in e, 8.0) + Points(SshConfig in e, 6.0) + Points(WeakSshKex in e, 8.0)
             + Points(LegacySshHostKey in e, 8.0) + Points(LegacyIpsecDhGroup in e, 8.0) + Points(AdWeakCertificateTemplate in e, 8.0)
             + Points(DomainController in w, 10.0))
  }

  function Impact(d: RiskInput): real {
    CapScore(d.factors.criticality / 5.0 * 100.0 + Points(d.environment.Production?, 10.0)
             + Points(DomainController in d.signals.windows, 10.0))
  }

  function Urgency(d: RiskInput): real {
    var e, w := d.signals.evidence, d.signals.windows;
    CapScore(Points(ExpiringCertificate in e, 45.0) + Points(WeakPublicKey in e, 30.0) + Points(PrivateKeyFiles in e, 25.0)
             + Points(EmbeddedPrivateKeyInRepo in e, 25.0) + Points(AdWeakCertificateTemplate in e, 25.0)
             + Points(AdCaCertificateExpiring in e, 40.0) + Points(ExpiredCertificates in w, 40.0)
             + Points(WeakSignatureCertificates in w, 25.0))
  }

  function MigrationComplexity(d: RiskInput): real {
    var e, w := d.signals.evidence, d.signals.windows;
    var dependencies := d.dependencyCount as real * 4.0;
    CapScore((if dependencies > 70.0 then 70.0 else dependencies)
             + Points(CertificateFiles in e, 10.0) + Points(PrivateKeyFiles in e, 15.0) + Points(EmbeddedPrivateKeyInRepo in e, 15.0)
             + Points(CiSigningCommand in e, 10.0) + Points(AdWeakCertificateTemplate in e, 20.0)
             + Points(AdLargeCertificateEstate in e, 15.0) + Points(d.vendorBlocked, 20.0) + Points(LargeCertificateEstate in w, 15.0)
             + Points(DomainController in w, 10.0))
  }

  function RiskDimensions(d: RiskInput): Dimensions {
    Dimensions(Exposure(d), Impact(d), Urgency(d), MigrationComplexity(d))
  }

  method CalculateExposure(d: RiskInput) returns (exposure: real)
    ensures exposure == Exposure(d) && Percent(exposure)
  {
    exposure := d.factors.quantumExposure / 5.0 * 100.0;
    exposure := exposure + Points(TlsDetected in d.signals.evidence, 10.0);
    exposure := exposure + Points(TlsConfig in d.signals.evidence, 8.0);
    exposure := exposure + Points(SshConfig in d.signals.evidence, 6.0);
    exposure := exposure + Points(WeakSshKex in d.signals.evidence, 8.0);
    exposure := exposure + Points(LegacySshHostKey in d.signals.evidence, 8.0);
    exposure := exposure + Points(LegacyIpsecDhGroup in d.signals.evidence, 8.0);
    exposure := exposure + Points(AdWeakCertificateTemplate in d.signals.evidence, 8.0);
    exposure := exposure + Points(DomainController in d.signals.windows, 10.0);
    exposure := CapScore(exposure);
  }

  method CalculateUrgency(d: RiskInput) returns (urgency: real)
    ensures urgency == Urgency(d) && Percent(urgency)
  {
    urgency := 0.0;
    urgency := urgency + Points(ExpiringCertificate in d.signals.evidence, 45.0);
    urgency := urgency + Points(WeakPublicKey in d.signals.evidence, 30.0);
    urgency := urgency + Points(PrivateKeyFiles in d.signals.evidence, 25.0);
    urgency := urgency + Points(EmbeddedPrivateKeyInRepo in d.signals.evidence, 25.0);
    urgency := urgency + Points(AdWeakCertificateTemplate in d.signals.evidence, 25.0);
    urgency := urgency + Points(AdCaCertificateExpiring in d.signals.evidence, 40.0);
    urgency := urgency + Points(ExpiredCertificates in d.signals.windows, 40.0);
    urgency := urgency + Points(WeakSignatureCertificates in d.signals.windows, 25.0);
    urgency := CapScore(urgency);
  }

  method CalculateMigrationComplexity(d: RiskInput) returns (complexity: real)
    ensures complexity == MigrationComplexity(d) && Percent(complexity)
  {
    complexity := d.dependencyCount as real * 4.0;
    if complexity > 70.0 { complexity := 70.0; }
    complexity := complexity + Points(CertificateFiles in d.signals.evidence, 10.0);
    complexity := complexity + Points(PrivateKeyFiles in d.signals.evidence, 15.0);
    complexity := complexity + Points(EmbeddedPrivateKeyInRepo in d.signals.evidence, 15.0);
    complexity := complexity + Points(CiSigningCommand in d.signals.evidence, 10.0);
    complexity := complexity + Points(AdWeakCertificateTemplate in d.signals.evidence, 20.0);
    complexity := complexity + Points(AdLargeCertificateEstate in d.signals.evidence, 15.0);
    complexity := complexity + Points(d.vendorBlocked, 20.0);
    complexity := complexity + Points(LargeCertificateEstate in d.signals.windows, 15.0);
    complexity := complexity + Points(DomainController in d.signals.windows, 10.0);
    complexity := CapScore(complexity);
  }

  method CalculateRiskDimensions(d: RiskInput) returns (dims: Dimensions)
    ensures dims == RiskDimensions(d) && PercentDimensions(dims)
  {
    var exposure := CalculateExposure(d);
    var impact := d.factors.criticality / 5.0 * 100.0;
    impact := impact + Points(d.environment.Production?, 10.0);
    impact := impact + Points(DomainController in d.signals.windows, 10.0);
    var urgency := CalculateUrgency(d);
    var complexity := CalculateMigrationComplexity(d);
    hide Exposure, Urgency, MigrationComplexity;
    dims := Dimensions(exposure, CapScore(impact), urgency, complexity);
  }

  function ClassifyRating(normalizedScore100: real): Rating {
    if normalizedScore100 >= 80.0 then Critical
    else if normalizedScore100 >= 60.0 then High
    else if normalizedScore100 >= 40.0 then Medium
    else if normalizedScore100 >= 20.0 then Low
    else Minimal
  }

  function ScenarioScore(f: Factors, s: Scenario): real {
    BaseScore(f) * Multiplier(s)
  }

  function FinalScore(d: RiskInput): real {
    ScenarioScore(d.factors, d.scenario) + Stage2Adjustment(d)
  }

  function Normalize(finalScore: real): real {
    var n := finalScore / 5.0 * 100.0;
    if n > 100.0 then 100.0 else n
  }

  function NormalizedScore(d: RiskInput): real {
    Normalize(FinalScore(d))
  }

  /** What is assumed of rounding to two or four decimals. */
  ghost predicate Rounds(round: real -> real) {
    && (forall x, y | x <= y :: round(x) <= round(y))
    && (forall x :: x - 0.005 <= round(x) <= x + 0.005)
    && round(0.0) == 0.0 && round(5.0) == 5.0 && round(50.0) == 50.0 && round(100.0) == 100.0
  }

  function Rounded(dims: Dimensions, round: real -> real): Dimensions {
    Dimensions(round(dims.exposure), round(dims.impact), round(dims.urgency), round(dims.migrationComplexity))
  }

  function Score(d: RiskInput, round: real -> real): RiskOutput {
    RiskOutput(d.assetName, round(BaseScore(d.factors)), round(FinalScore(d)), round(NormalizedScore(d)), ClassifyRating(NormalizedScore(d)),
               d.dependencyCount, d.vendorBlocked, d.signals, round(ConfidenceScore(d)), Rounded(RiskDimensions(d), round))
  }

  // ----- bounds

  ghost predicate Between(f: Factors, low: real, high: real) {
    && low <= f.criticality <= high && low <= f.confidentialityLifetime <= high && low <= f.quantumExposure <= high
    && low <= f.blastRadius <= high && low <= f.vendorLockIn <= high && low <= f.migrationDifficulty <= high
  }

  /** The base score is a mean of the factors: it never leaves the interval they lie in. */
  lemma BaseScoreIsAMean(f: Factors, low: real, high: real)
    requires Between(f, low, high)
    ensures low <= BaseScore(f) <= high
  {
  }

  lemma RoundedPercent(x: real, round: real -> real)
    requires Rounds(round) && Percent(x)
    ensures Percent(round(x))
  {
    assert round(0.0) <= round(x) <= round(100.0);
  }

  lemma NormalizedBounds(d: RiskInput)
    requires InRange(d.factors)
    ensures Percent(NormalizedScore(d))
  {
    ScenarioScoreIsNotNegative(d.factors, d.scenario);
    AdjustmentIsNotNegative(d);
    hide ScenarioScore, Stage2Adjustment;
  }

  lemma ScenarioScoreIsNotNegative(f: Factors, s: Scenario)
    requires InRange(f)
    ensures ScenarioScore(f, s) >= 0.0
  {
    BaseScoreIsAMean(f, 0.0, 5.0);
    hide BaseScore, Multiplier;
  }

  lemma AdjustmentIsNotNegative(d: RiskInput)
    ensures Stage2Adjustment(d) >= 0.0
  {
  }

  /** Every published score lies in its range. */
  lemma ScoresAreInRange(d: RiskInput, round: real -> real)
    requires InRange(d.factors) && Rounds(round)
    ensures var r := Score(d, round);
            0.0 <= r.baseScore <= 5.0 && Percent(r.normalizedScore100) && Percent(r.confidenceScore) && PercentDimensions(r.dimensions)
  {
    BaseScoreIsAMean(d.factors, 0.0, 5.0);
    NormalizedBounds(d);
    var dims := RiskDimensions(d);
    assert Percent(dims.exposure) && Percent(dims.impact) && Percent(dims.urgency) && Percent(dims.migrationComplexity);
    hide BaseScore, NormalizedScore, RiskDimensions, FinalScore;
    assert round(0.0) <= round(BaseScore(d.factors)) <= round(5.0);
    RoundedPercent(NormalizedScore(d), round);
    RoundedPercent(ConfidenceScore(d), round);
    RoundedPercent(dims.exposure, round);
    RoundedPercent(dims.impact, round);
    RoundedPercent(dims.urgency, round);
    RoundedPercent(dims.migrationComplexity, round);
  }

  /** The rating bands on the 0 to 5 scale of the final score. */
  lemma RatingBands(d: RiskInput)
    ensures var rating, final := ClassifyRating(NormalizedScore(d)), FinalScore(d);
            && (rating == Critical <==> final >= 4.0) && (rating == High <==> 3.0 <= final < 4.0) && (rating == Medium <==> 2.0 <= final < 3.0)
            && (rating == Low <==> 1.0 <= final < 2.0) && (rating == Minimal <==> final < 1.0)
  {
    hide FinalScore;
  }

  lemma ScoreFrom(d: RiskInput, round: real -> real, adjustment: real, confidence: real, dims: Dimensions)
    requires adjustment == Stage2Adjustment(d) && confidence == ConfidenceScore(d) && dims == RiskDimensions(d)
    ensures var finalScore := ScenarioScore(d.factors, d.scenario) + adjustment;
            var normalized := Normalize(finalScore);
            Score(d, round) == RiskOutput(d.assetName, round(BaseScore(d.factors)), round(finalScore), round(normalized), ClassifyRating(normalized),
                                          d.dependencyCount, d.vendorBlocked, d.signals, round(confidence), Rounded(dims, round))
  {
    hide ScenarioScore, Stage2Adjustment, ConfidenceScore, RiskDimensions, BaseScore, Normalize, ClassifyRating, Rounded;
  }

  lemma ScoreFields(d: RiskInput, round: real -> real)
    ensures var r := Score(d, round);
            && r.rating == ClassifyRating(NormalizedScore(d))
            && r.assetName == d.assetName && r.dependencyCount == d.dependencyCount && r.vendorBlocked == d.vendorBlocked && r.signals == d.signals
            && r.baseScore == round(BaseScore(d.factors)) && r.finalScore == round(FinalScore(d)) && r.confidenceScore == round(ConfidenceScore(d))
            && r.dimensions.exposure == round(Exposure(d)) && r.dimensions.impact == round(Impact(d))
            && r.dimensions.urgency == round(Urgency(d)) && r.dimensions.migrationComplexity == round(MigrationComplexity(d))
  {
    hide NormalizedScore, FinalScore, ConfidenceScore, BaseScore, ClassifyRating, Exposure, Impact, Urgency, MigrationComplexity;
  }

  /** The whole request: adjustment, confidence and dimensions are calculated one after the other, and every
      published number is in its range. */
  method ScoreRequest(d: RiskInput, round: real -> real) returns (r: RiskOutput)
    ensures r == Score(d, round)
    ensures r.assetName == d.assetName && r.dependencyCount == d.dependencyCount && r.vendorBlocked == d.vendorBlocked && r.signals == d.signals
    ensures r.baseScore == round(BaseScore(d.factors)) && r.finalScore == round(FinalScore(d)) && r.confidenceScore == round(ConfidenceScore(d))
    ensures r.dimensions.exposure == round(Exposure(d)) && r.dimensions.impact == round(Impact(d))
    ensures r.dimensions.urgency == round(Urgency(d)) && r.dimensions.migrationComplexity == round(MigrationComplexity(d))
    ensures InRange(d.factors) && Rounds(round) ==>
              0.0 <= r.baseScore <= 5.0 && Percent(r.normalizedScore100) && Percent(r.confidenceScore) && PercentDimensions(r.dimensions)
    ensures r.rating == (if FinalScore(d) >= 4.0 then Critical else if FinalScore(d) >= 3.0 then High
                         else if FinalScore(d) >= 2.0 then Medium else if FinalScore(d) >= 1.0 then Low else Minimal)
  {
    RatingBands(d);
    ScoreFields(d, round);
    hide *;
    var baseScore := BaseScore(d.factors);
    var stage2Adjustment := CalculateStage2Adjustment(d);
    var finalScore := ScenarioScore(d.factors, d.scenario) + stage2Adjustment;
    var confidenceScore := CalculateConfidenceScore(d);
    var dims := CalculateRiskDimensions(d);
    var normalizedScore100 := Normalize(finalScore);
    var rating := ClassifyRating(normalizedScore100);
    r := RiskOutput(d.assetName, round(baseScore), round(finalScore), round(normalizedScore100), rating, d.dependencyCount,
                    d.vendorBlocked, d.signals, round(confidenceScore), Rounded(dims, round));
    ScoreFrom(d, round, stage2Adjustment, confidenceScore, dims);
    if InRange(d.factors) && Rounds(round) {
      ScoresAreInRange(d, round);
    }
  }

  // ----- more signals, higher scores

  ghost predicate MoreSignals(s: Signals, s': Signals) {
    && s.evidence <= s'.evidence && s.windows <= s'.windows
    && (s.windowsEvidencePresent ==> s'.windowsEvidencePresent) && (s.cryptoEvidencePresent ==> s'.cryptoEvidencePresent)
  }

  /** `d'` differs from `d` only in signals that have been turned on. */
  ghost predicate Escalates(d: RiskInput, d': RiskInput) {
    d' == d.(signals := d'.signals) && MoreSignals(d.signals, d'.signals)
  }

  ghost predicate Weights<T>(table: seq<(T, real)>) {
    forall i | 0 <= i < |table| :: table[i].1 >= 0.0
  }

  lemma {:induction false} WeightGrows<T>(table: seq<(T, real)>, on: set<T>, on': set<T>)
    requires Weights(table) && on <= on'
    ensures 0.0 <= WeightOn(table, on) <= WeightOn(table, on')
  {
    if table != [] {
      WeightGrows(table[..|table| - 1], on, on');
    }
  }

  lemma AdjustmentGrows(d: RiskInput, d': RiskInput)
    requires Escalates(d, d')
    ensures Stage2Adjustment(d) <= Stage2Adjustment(d')
  {
    WeightGrows(EVIDENCE_SIGNAL_WEIGHTS, d.signals.evidence, d'.signals.evidence);
    WeightGrows(WINDOWS_SIGNAL_WEIGHTS, d.signals.windows, d'.signals.windows);
    hide WeightOn;
  }

  lemma FinalGrows(d: RiskInput, d': RiskInput)
    requires Escalates(d, d')
    ensures FinalScore(d) <= FinalScore(d')
  {
    AdjustmentGrows(d, d');
    hide Stage2Adjustment, ScenarioScore;
    assert d'.factors == d.factors && d'.scenario == d.scenario;
  }

  lemma NormalizedGrows(d: RiskInput, d': RiskInput)
    requires Escalates(d, d')
    ensures NormalizedScore(d) <= NormalizedScore(d')
  {
    FinalGrows(d, d');
    hide FinalScore;
  }

  lemma ConfidenceGrows(d: RiskInput, d': RiskInput)
    requires Escalates(d, d')
    ensures 50.0 <= ConfidenceScore(d) <= ConfidenceScore(d')
  {
  }

  ghost predicate DimensionsGrow(a: Dimensions, b: Dimensions) {
    a.exposure <= b.exposure && a.impact <= b.impact && a.urgency <= b.urgency && a.migrationComplexity <= b.migrationComplexity
  }

  lemma ExposureGrows(d: RiskInput, d': RiskInput)
    requires Escalates(d, d')
    ensures Exposure(d) <= Exposure(d')
  {
  }

  lemma UrgencyGrows(d: RiskInput, d': RiskInput)
    requires Escalates(d, d')
    ensures Urgency(d) <= Urgency(d')
  {
  }

  lemma MigrationComplexityGrows(d: RiskInput, d': RiskInput)
    requires Escalates(d, d')
    ensures MigrationComplexity(d) <= MigrationComplexity(d')
  {
    var e, e', w, w' := d.signals.evidence, d'.signals.evidence, d.signals.windows, d'.signals.windows;
    PointsGrow(CertificateFiles in e, CertificateFiles in e', 10.0);
    PointsGrow(PrivateKeyFiles in e, PrivateKeyFiles in e', 15.0);
    PointsGrow(EmbeddedPrivateKeyInRepo in e, EmbeddedPrivateKeyInRepo in e', 15.0);
    PointsGrow(CiSigningCommand in e, CiSigningCommand in e', 10.0);
    PointsGrow(AdWeakCertificateTemplate in e, AdWeakCertificateTemplate in e', 20.0);
    PointsGrow(AdLargeCertificateEstate in e, AdLargeCertificateEstate in e', 15.0);
    PointsGrow(LargeCertificateEstate in w, LargeCertificateEstate in w', 15.0);
    PointsGrow(DomainController in w, DomainController in w', 10.0);
    hide Points;
  }

  lemma PointsGrow(on: bool, on': bool, points: real)
    requires (on ==> on') && points >= 0.0
    ensures Points(on, points) <= Points(on', points)
  {
  }

  lemma RiskDimensionsGrow(d: RiskInput, d': RiskInput)
    requires Escalates(d, d')
    ensures DimensionsGrow(RiskDimensions(d), RiskDimensions(d'))
  {
    ExposureGrows(d, d');
    UrgencyGrows(d, d');
    MigrationComplexityGrows(d, d');
    hide Exposure, Urgency, MigrationComplexity;
  }

  lemma RoundedGrow(a: Dimensions, b: Dimensions, round: real -> real)
    requires DimensionsGrow(a, b) && Rounds(round)
    ensures DimensionsGrow(Rounded(a, round), Rounded(b, round))
  {
  }

  function Rank(r: Rating): nat {
    match r
    case Minimal => 0
    case Low => 1
    case Medium => 2
    case High => 3
    case Critical => 4
  }

  /** Turning signals on never lowers a score, the rating, the confidence or a dimension. */
  lemma ScoringIsMonotone(d: RiskInput, d': RiskInput, round: real -> real)
    requires Escalates(d, d') && Rounds(round)
    ensures var r, r' := Score(d, round), Score(d', round);
            && r.baseScore == r'.baseScore && r.finalScore <= r'.finalScore && r.normalizedScore100 <= r'.normalizedScore100
            && Rank(r.rating) <= Rank(r'.rating) && r.confidenceScore <= r'.confidenceScore
            && DimensionsGrow(r.dimensions, r'.dimensions)
  {
    NormalizedGrows(d, d');
    ConfidenceGrows(d, d');
    RiskDimensionsGrow(d, d');
    FinalGrows(d, d');
    RoundedGrow(RiskDimensions(d), RiskDimensions(d'), round);
    hide FinalScore, NormalizedScore, ConfidenceScore, RiskDimensions, BaseScore, DimensionsGrow, Rounded;
  }

  // ----- one strong finding is enough

  lemma {:induction false} WeightAtLeast<T>(table: seq<(T, real)>, on: set<T>, entry: (T, real))
    requires Weights(table) && entry in table && entry.0 in on
    ensures WeightOn(table, on) >= entry.1
  {
    var front, last := table[..|table| - 1], table[|table| - 1];
    assert table == front + [last];
    WeightGrows(front, on, on);
    if entry != last {
      WeightAtLeast(front, on, entry);
    }
  }

  /** The weights are on the 0 to 5 scale of the base score: any evidence signal that weighs 5.1 or more
      drives the normalized score to 100, whatever the factors, the scenario and the notes say. */
  lemma StrongEvidenceSaturates(d: RiskInput, entry: (EvidenceSignal, real))
    requires InRange(d.factors) && entry in EVIDENCE_SIGNAL_WEIGHTS && entry.1 >= 5.1 && entry.0 in d.signals.evidence
    ensures NormalizedScore(d) == 100.0 && ClassifyRating(NormalizedScore(d)) == Critical
  {
    WeightAtLeast(EVIDENCE_SIGNAL_WEIGHTS, d.signals.evidence, entry);
    WeightGrows(WINDOWS_SIGNAL_WEIGHTS, {}, d.signals.windows);
    ScenarioScoreIsNotNegative(d.factors, d.scenario);
    hide WeightOn, ScenarioScore;
  }

  lemma StrongWindowsSignalScores(d: RiskInput, entry: (WindowsSignal, real))
    requires InRange(d.factors) && entry in WINDOWS_SIGNAL_WEIGHTS && entry.1 >= 5.0 && entry.0 in d.signals.windows
    ensures NormalizedScore(d) >= 98.0
  {
    WeightAtLeast(WINDOWS_SIGNAL_WEIGHTS, d.signals.windows, entry);
    WeightGrows(EVIDENCE_SIGNAL_WEIGHTS, {}, d.signals.evidence);
    ScenarioScoreIsNotNegative(d.factors, d.scenario);
    hide WeightOn, ScenarioScore;
  }
}
