/** What each part of a request is worth to its risk score (services/risk-engine/app/main.py). */
module RiskShares {
  import opened RiskEngine

  // ----- circumstances

  ghost predicate OnlyCircumstances(d: RiskInput, d': RiskInput) {
    d' == d.(vendorBlocked := d'.vendorBlocked, dependencyCount := d'.dependencyCount, hndlNoted := d'.hndlNoted, pqcPlanNoted := d'.pqcPlanNoted)
  }

  /** A blocked vendor, more dependencies or a harvest-now note never lower the final score, and a noted
      migration plan never raises it. */
  lemma CircumstancesMove(d: RiskInput, d': RiskInput)
    requires OnlyCircumstances(d, d') && d.dependencyCount <= d'.dependencyCount
    requires (d.vendorBlocked ==> d'.vendorBlocked) && (d.hndlNoted ==> d'.hndlNoted) && (d'.pqcPlanNoted ==> d.pqcPlanNoted)
    ensures FinalScore(d) <= FinalScore(d')
  {
    hide WeightOn, ScenarioScore;
  }

  /** Without a noted plan each of them is worth exactly this much. */
  lemma CircumstancesAdd(d: RiskInput)
    requires !d.pqcPlanNoted
    ensures FinalScore(d.(vendorBlocked := true)) == FinalScore(d.(vendorBlocked := false)) + 0.20
    ensures FinalScore(d.(dependencyCount := 10)) == FinalScore(d.(dependencyCount := 9)) + 0.15
    ensures FinalScore(d.(hndlNoted := true)) == FinalScore(d.(hndlNoted := false)) + 0.10
    ensures d.dependencyCount <= 9 ==> FinalScore(d) == FinalScore(d.(dependencyCount := 9))
    ensures d.dependencyCount >= 10 ==> FinalScore(d) == FinalScore(d.(dependencyCount := 10))
  {
    AdjustmentWithoutPlan(d);
    hide ScenarioScore, WeightOn;
  }

  lemma AdjustmentWithoutPlan(d: RiskInput)
    ensures WeightOn(EVIDENCE_SIGNAL_WEIGHTS, d.signals.evidence) >= 0.0 && WeightOn(WINDOWS_SIGNAL_WEIGHTS, d.signals.windows) >= 0.0
  {
    WeightGrows(EVIDENCE_SIGNAL_WEIGHTS, d.signals.evidence, d.signals.evidence);
    WeightGrows(WINDOWS_SIGNAL_WEIGHTS, d.signals.windows, d.signals.windows);
    hide WeightOn;
  }

  /** A noted plan is worth a tenth, as far as there is an adjustment to take it from. */
  lemma PlanTakesATenth(d: RiskInput)
    requires !d.pqcPlanNoted
    ensures var scenario := ScenarioScore(d.factors, d.scenario);
            FinalScore(d.(pqcPlanNoted := true)) == if FinalScore(d) - scenario >= 0.10 then FinalScore(d) - 0.10 else scenario
  {
    AdjustmentWithoutPlan(d);
    hide ScenarioScore, WeightOn;
  }

  // ----- factors and scenarios

  /** How much of a change in one factor reaches the base score; together the shares are one. */
  lemma FactorShares(f: Factors, x: real)
    ensures BaseScore(f.(criticality := f.criticality + x)) == BaseScore(f) + x / 4.0
    ensures BaseScore(f.(confidentialityLifetime := f.confidentialityLifetime + x)) == BaseScore(f) + x / 5.0
    ensures BaseScore(f.(quantumExposure := f.quantumExposure + x)) == BaseScore(f) + x / 5.0
    ensures BaseScore(f.(blastRadius := f.blastRadius + x)) == BaseScore(f) + 3.0 * x / 20.0
    ensures BaseScore(f.(vendorLockIn := f.vendorLockIn + x)) == BaseScore(f) + x / 10.0
    ensures BaseScore(f.(migrationDifficulty := f.migrationDifficulty + x)) == BaseScore(f) + x / 10.0
  {
  }

  const SCENARIOS: seq<Scenario> := [PublicTimeline, PartialBreak, VendorLag, CompliancePressure, EarlyBreak, HiddenCapability, HndlActiveNow]

  /** From the public timeline, which leaves the base score as it is, to harvesting under way. */
  lemma ScenariosEscalate(d: RiskInput, i: nat, j: nat)
    requires InRange(d.factors) && i <= j < 7
    ensures FinalScore(d.(scenario := SCENARIOS[i])) <= FinalScore(d.(scenario := SCENARIOS[j]))
    ensures FinalScore(d.(scenario := PublicTimeline)) == BaseScore(d.factors) + Stage2Adjustment(d)
  {
    BaseScoreIsAMean(d.factors, 0.0, 5.0);
    var b := BaseScore(d.factors);
    AdjustmentIgnoresScenario(d, SCENARIOS[i]);
    AdjustmentIgnoresScenario(d, SCENARIOS[j]);
    AdjustmentIgnoresScenario(d, PublicTimeline);
    assert Multiplier(SCENARIOS[i]) <= Multiplier(SCENARIOS[j]) && Multiplier(PublicTimeline) == 1.0;
    hide Stage2Adjustment, BaseScore, Multiplier, SCENARIOS;
    Scaled(b, Multiplier(SCENARIOS[i]), Multiplier(SCENARIOS[j]));
  }

  lemma AdjustmentIgnoresScenario(d: RiskInput, s: Scenario)
    ensures Stage2Adjustment(d.(scenario := s)) == Stage2Adjustment(d)
  {
    hide WeightOn;
  }

  lemma Scaled(b: real, m: real, n: real)
    requires b >= 0.0 && m <= n
    ensures b * m <= b * n
  {
  }

  // ----- signals

  lemma {:induction false} WeightOfMore<T>(table: seq<(T, real)>, on: set<T>, entry: (T, real))
    requires entry in table && entry.0 !in on && forall i, j | 0 <= i < j < |table| :: table[i].0 != table[j].0
    ensures WeightOn(table, on + {entry.0}) == WeightOn(table, on) + entry.1
  {
    var front, last := table[..|table| - 1], table[|table| - 1];
    assert table == front + [last];
    if entry == last {
      WeightWithout(front, on, entry.0);
    } else {
      WeightOfMore(front, on, entry);
      assert last.0 != entry.0;
    }
  }

  lemma {:induction false} WeightWithout<T>(table: seq<(T, real)>, on: set<T>, signal: T)
    requires forall i | 0 <= i < |table| :: table[i].0 != signal
    ensures WeightOn(table, on + {signal}) == WeightOn(table, on)
  {
    if table != [] {
      WeightWithout(table[..|table| - 1], on, signal);
    }
  }

  /** Without a noted plan, turning on a signal adds exactly its weight to the final score. */
  lemma EvidenceAddsItsWeight(d: RiskInput, entry: (EvidenceSignal, real))
    requires !d.pqcPlanNoted && entry in EVIDENCE_SIGNAL_WEIGHTS && entry.0 !in d.signals.evidence
    ensures FinalScore(d.(signals := d.signals.(evidence := d.signals.evidence + {entry.0}))) == FinalScore(d) + entry.1
  {
    WeightOfMore(EVIDENCE_SIGNAL_WEIGHTS, d.signals.evidence, entry);
    AdjustmentWithoutPlan(d);
    WeightsAreListed(EVIDENCE_SIGNAL_WEIGHTS, entry);
    hide WeightOn, ScenarioScore;
  }

  lemma WindowsSignalAddsItsWeight(d: RiskInput, entry: (WindowsSignal, real))
    requires !d.pqcPlanNoted && entry in WINDOWS_SIGNAL_WEIGHTS && entry.0 !in d.signals.windows
    ensures FinalScore(d.(signals := d.signals.(windows := d.signals.windows + {entry.0}))) == FinalScore(d) + entry.1
  {
    WeightOfMore(WINDOWS_SIGNAL_WEIGHTS, d.signals.windows, entry);
    AdjustmentWithoutPlan(d);
    WeightsAreListed(WINDOWS_SIGNAL_WEIGHTS, entry);
    hide WeightOn, ScenarioScore;
  }

  lemma WeightsAreListed<T>(table: seq<(T, real)>, entry: (T, real))
    requires Weights(table) && entry in table
    ensures entry.1 >= 0.0
  {
  }

  // ----- dimensions

  ghost function WithEvidence(d: RiskInput, s: EvidenceSignal): RiskInput {
    d.(signals := d.signals.(evidence := d.signals.evidence + {s}))
  }

  ghost function AtMost100(x: real): real {
    if x > 100.0 then 100.0 else x
  }

  lemma PointsMove<T>(signal: T, s: T, on: set<T>, points: real)
    requires s !in on
    ensures Points(signal in on + {s}, points) == Points(signal in on, points) + (if signal == s then points else 0.0)
  {
  }

  /** One more evidence signal: what it adds to each dimension before the limit of 100. */
  lemma EvidenceMovesExposure(d: RiskInput, s: EvidenceSignal)
    requires InRange(d.factors) && s !in d.signals.evidence
    ensures Exposure(WithEvidence(d, s)) == AtMost100(Exposure(d) + (match s
      case TlsDetected => 10.0
      case TlsConfig => 8.0
      case WeakSshKex => 8.0
      case LegacySshHostKey => 8.0
      case LegacyIpsecDhGroup => 8.0
      case AdWeakCertificateTemplate => 8.0
      case SshConfig => 6.0
      case _ => 0.0))
  {
    var e := d.signals.evidence;
    PointsMove(TlsDetected, s, e, 10.0);
    PointsMove(TlsConfig, s, e, 8.0);
    PointsMove(SshConfig, s, e, 6.0);
    PointsMove(WeakSshKex, s, e, 8.0);
    PointsMove(LegacySshHostKey, s, e, 8.0);
    PointsMove(LegacyIpsecDhGroup, s, e, 8.0);
    PointsMove(AdWeakCertificateTemplate, s, e, 8.0);
  }

  lemma EvidenceMovesUrgency(d: RiskInput, s: EvidenceSignal)
    requires s !in d.signals.evidence
    ensures Urgency(WithEvidence(d, s)) == AtMost100(Urgency(d) + (match s
      case ExpiringCertificate => 45.0
      case AdCaCertificateExpiring => 40.0
      case WeakPublicKey => 30.0
      case PrivateKeyFiles => 25.0
      case EmbeddedPrivateKeyInRepo => 25.0
      case AdWeakCertificateTemplate => 25.0
      case _ => 0.0))
  {
    var e := d.signals.evidence;
    PointsMove(ExpiringCertificate, s, e, 45.0);
    PointsMove(AdCaCertificateExpiring, s, e, 40.0);
    PointsMove(WeakPublicKey, s, e, 30.0);
    PointsMove(PrivateKeyFiles, s, e, 25.0);
    PointsMove(EmbeddedPrivateKeyInRepo, s, e, 25.0);
    PointsMove(AdWeakCertificateTemplate, s, e, 25.0);
  }

  lemma EvidenceMovesComplexity(d: RiskInput, s: EvidenceSignal)
    requires s !in d.signals.evidence
    ensures MigrationComplexity(WithEvidence(d, s)) == AtMost100(MigrationComplexity(d) + (match s
      case AdWeakCertificateTemplate => 20.0
      case PrivateKeyFiles => 15.0
      case EmbeddedPrivateKeyInRepo => 15.0
      case AdLargeCertificateEstate => 15.0
      case CertificateFiles => 10.0
      case CiSigningCommand => 10.0
      case _ => 0.0))
  {
    var e := d.signals.evidence;
    PointsMove(AdWeakCertificateTemplate, s, e, 20.0);
    PointsMove(PrivateKeyFiles, s, e, 15.0);
    PointsMove(EmbeddedPrivateKeyInRepo, s, e, 15.0);
    PointsMove(AdLargeCertificateEstate, s, e, 15.0);
    PointsMove(CertificateFiles, s, e, 10.0);
    PointsMove(CiSigningCommand, s, e, 10.0);
  }

  /** The same for the Windows signals, over all four dimensions. */
  lemma WindowsSignalMoves(d: RiskInput, s: WindowsSignal)
    requires InRange(d.factors) && s !in d.signals.windows
    ensures var d' := d.(signals := d.signals.(windows := d.signals.windows + {s}));
            && Exposure(d') == AtMost100(Exposure(d) + (if s == DomainController then 10.0 else 0.0))
            && Impact(d') == AtMost100(Impact(d) + (if s == DomainController then 10.0 else 0.0))
            && Urgency(d') == AtMost100(Urgency(d) + (if s == ExpiredCertificates then 40.0 else if s == WeakSignatureCertificates then 25.0 else 0.0))
            && MigrationComplexity(d') ==
               AtMost100(MigrationComplexity(d) + (if s == LargeCertificateEstate then 15.0 else if s == DomainController then 10.0 else 0.0))
  {
    var w := d.signals.windows;
    PointsMove(DomainController, s, w, 10.0);
    PointsMove(ExpiredCertificates, s, w, 40.0);
    PointsMove(WeakSignatureCertificates, s, w, 25.0);
    PointsMove(LargeCertificateEstate, s, w, 15.0);
  }

  /** Where the dimensions start from: a request with no signal, no dependency, no block, outside production. */
  lemma DimensionsStart(d: RiskInput)
    requires InRange(d.factors) && d.signals.evidence == {} && d.signals.windows == {}
    ensures Exposure(d) == 20.0 * d.factors.quantumExposure && Urgency(d) == 0.0
    ensures Impact(d) == AtMost100(20.0 * d.factors.criticality + (if d.environment.Production? then 10.0 else 0.0))
    ensures MigrationComplexity(d) ==
            (if d.dependencyCount >= 18 then 70.0 else 4.0 * d.dependencyCount as real) + (if d.vendorBlocked then 20.0 else 0.0)
  {
  }

  /** Confidence starts at 50; every source of evidence adds ten points, a chain and notes five each. */
  lemma ConfidenceShares(d: RiskInput)
    ensures var s := d.signals;
            var tens := (if d.factors.criticality > 0.0 then 1 else 0) + (if d.environment.Blank? then 0 else 1)
                        + (if s.evidence == {} then 0 else 1) + (if TlsDetected in s.evidence then 1 else 0)
                        + (if s.cryptoEvidencePresent then 1 else 0) + (if s.windowsEvidencePresent then 1 else 0);
            var fives := (if CertificateChainAvailable in s.evidence then 1 else 0) + (if d.notesGiven then 1 else 0);
            ConfidenceScore(d) == AtMost100((50 + 10 * tens + 5 * fives) as real)
  {
  }
}
