/** The way of a risk from the scoring service, or from the inventory, into a wave; and the report's second
    wave function (tools/report/build_operator_report.py). */
module PlanPipeline {
  import opened PlanItems
  import opened PlanWaves
  import opened Planner
  import opened RiskEngine
  import opened Wrappers

  // ----- a freshly scored risk

  /** The scoring service's answer as the planner reads it. */
  function FromScore(o: RiskOutput): Risk {
    Risk(Some(o.assetName), Some(o.normalizedScore100), Some(o.finalScore), None,
         Some(RiskDims(Some(o.dimensions.urgency), Some(o.dimensions.exposure), Some(o.dimensions.impact))),
         Some(o.confidenceScore), Some(Some(o.dependencyCount)), Some(o.vendorBlocked), o.signals.evidence, o.signals.windows)
  }

  lemma BoostsGrow(s: Signals, s': Signals)
    requires MoreSignals(s, s')
    ensures Stage2Boost(s.evidence) <= Stage2Boost(s'.evidence) && WindowsBoost(s.windows) <= WindowsBoost(s'.windows)
    ensures PrivateKeyFiles in s.evidence || WeakPublicKey in s.evidence || HighWindows(s.windows) ==>
              PrivateKeyFiles in s'.evidence || WeakPublicKey in s'.evidence || HighWindows(s'.windows)
  {
  }

  lemma EarlierOrSame(item: Item, item': Item)
    requires item.priority <= item'.priority && (HasCapReason(item.reasons) ==> HasCapReason(item'.reasons))
    ensures FinalWave(item') <= FinalWave(item)
  {
    hide HasCapReason;
  }

  lemma PriorityGrows(a: Asset, o: RiskOutput, o': RiskOutput)
    requires o.normalizedScore100 <= o'.normalizedScore100 && o.confidenceScore <= o'.confidenceScore
    requires DimensionsGrow(o.dimensions, o'.dimensions) && MoreSignals(o.signals, o'.signals)
    requires o.dependencyCount == o'.dependencyCount && o.vendorBlocked == o'.vendorBlocked
    ensures PriorityScore(a, FromScore(o)) <= PriorityScore(a, FromScore(o'))
  {
    BoostsGrow(o.signals, o'.signals);
    hide Stage2Boost, WindowsBoost, DependencyBoost;
  }

  /** Turning on any evidence or Windows signal, all else equal, never lowers a score, the priority computed
      from it, or moves the item to a later wave. */
  lemma MoreSignalsNeverLater(a: Asset, d: RiskInput, d': RiskInput, round: real -> real)
    requires Escalates(d, d') && Rounds(round)
    ensures var r, r' := FromScore(Score(d, round)), FromScore(Score(d', round));
            && PriorityScore(a, r) <= PriorityScore(a, r')
            && FinalWave(ItemFor(a, r')) <= FinalWave(ItemFor(a, r))
  {
    var o, o' := Score(d, round), Score(d', round);
    var r, r' := FromScore(o), FromScore(o');
    ScoringIsMonotone(d, d', round);
    assert o.signals == d.signals && o'.signals == d'.signals && o.dependencyCount == o'.dependencyCount && o.vendorBlocked == o'.vendorBlocked;
    PriorityGrows(a, o, o');
    BoostsGrow(d.signals, d'.signals);
    CapReasonIff(r);
    CapReasonIff(r');
    hide Score, PriorityScore, HasCapReason, PlanningReasons, HighWindows;
    EarlierOrSame(ItemFor(a, r), ItemFor(a, r'));
  }

  /** From the scoring answer to the priority: every published number and signal counts as the planner says. */
  lemma FreshPriority(a: Asset, o: RiskOutput)
    requires a.dependencyCount == None && a.vendorBlocked == None
    ensures var item := ItemFor(a, FromScore(o));
            && item.assetName == o.assetName && item.dependencyCount == o.dependencyCount && item.vendorBlocked == o.vendorBlocked
            && SaysPriority(item)
            && Unlimited(item) == o.normalizedScore100 + o.dimensions.urgency / 10.0 + o.dimensions.exposure / 20.0 + o.dimensions.impact / 20.0
                                  + (if o.confidenceScore >= 80.0 then 5.0 else if o.confidenceScore < 50.0 then -5.0 else 0.0)
                                  + (if o.dependencyCount >= 10 then 15.0 else 1.5 * o.dependencyCount as real) + (if o.vendorBlocked then 8.0 else 0.0)
                                  + (if o.signals.evidence !! {PrivateKeyFiles, WeakPublicKey, ExpiringCertificate} then 0.0 else 15.0)
                                  + (if o.signals.evidence !! {CertificateFiles, TlsConfig, SshConfig, TlsDetected, CryptoPackages} then 0.0 else 5.0)
                                  + (if o.signals.windows !! {DomainController, ExpiredCertificates, WeakSignatureCertificates} then 0.0 else 15.0)
                                  + (if LargeCertificateEstate in o.signals.windows then 5.0 else 0.0)
  {
    PriorityIsTheSum(a, FromScore(o));
    hide PriorityScore, PlanningReasons, SaysPriority;
  }

  lemma ScoredPriority(a: Asset, o: RiskOutput, low: real)
    requires o.normalizedScore100 >= low && o.confidenceScore >= 50.0
    requires Percent(o.dimensions.urgency) && Percent(o.dimensions.exposure) && Percent(o.dimensions.impact) && low <= 80.0
    ensures PriorityScore(a, FromScore(o)) >= low
    ensures HighWindows(o.signals.windows) ==> PriorityScore(a, FromScore(o)) >= low + 15.0
  {
    var r := FromScore(o);
    assert DependencyBoost(DependencyCount(a, r)) >= 0.0;
    assert DimensionBoost(r.dimensions) >= 0.0;
    hide DependencyBoost, DependencyCount, DimensionBoost, VendorBlocked, HighWindows;
  }

  lemma ConfidentEnough(d: RiskInput, round: real -> real)
    requires Rounds(round)
    ensures Score(d, round).confidenceScore >= 50.0
  {
    ConfidenceGrows(d, d);
    hide ConfidenceScore;
    assert round(50.0) <= round(ConfidenceScore(d));
  }

  /** The signals behind a cap weigh so much in the score that a risk that comes straight from scoring and
      has a cap reason is in wave 1 already: the caps only ever matter for risks that lost their
      confidence, dimensions or weights on the way, such as persisted ones. */
  lemma FreshRisksNeedNoCap(a: Asset, d: RiskInput, round: real -> real)
    requires InRange(d.factors) && Rounds(round)
    requires HasCapReason(PlanningReasons(FromScore(Score(d, round))))
    ensures PriorityScore(a, FromScore(Score(d, round))) >= 65.0
    ensures FinalWave(ItemFor(a, FromScore(Score(d, round)))) == 1
  {
    var o := Score(d, round);
    var r := FromScore(o);
    CapReasonIff(r);
    ScoresAreInRange(d, round);
    ConfidentEnough(d, round);
    assert o.signals == d.signals && o.normalizedScore100 == round(NormalizedScore(d));
    assert NormalizedScore(d) >= 98.0 by { CapSignalsScore(d); }
    assert round(NormalizedScore(d)) >= NormalizedScore(d) - 0.005;
    hide Score, PriorityScore, HasCapReason, PlanningReasons, NormalizedScore;
    ScoredPriority(a, o, 65.0);
  }

  lemma CapSignalsScore(d: RiskInput)
    requires InRange(d.factors)
    requires PrivateKeyFiles in d.signals.evidence || WeakPublicKey in d.signals.evidence || HighWindows(d.signals.windows)
    ensures NormalizedScore(d) >= 98.0
  {
    hide NormalizedScore;
    assert EVIDENCE_SIGNAL_WEIGHTS[2] == (PrivateKeyFiles, 10.0) && EVIDENCE_SIGNAL_WEIGHTS[6] == (WeakPublicKey, 15.0);
    assert WINDOWS_SIGNAL_WEIGHTS[0] == (ExpiredCertificates, 8.0) && WINDOWS_SIGNAL_WEIGHTS[1] == (WeakSignatureCertificates, 6.0)
           && WINDOWS_SIGNAL_WEIGHTS[2] == (DomainController, 5.0);
    if PrivateKeyFiles in d.signals.evidence {
      StrongEvidenceSaturates(d, (PrivateKeyFiles, 10.0));
    } else if WeakPublicKey in d.signals.evidence {
      StrongEvidenceSaturates(d, (WeakPublicKey, 15.0));
    } else if ExpiredCertificates in d.signals.windows {
      StrongWindowsSignalScores(d, (ExpiredCertificates, 8.0));
    } else if WeakSignatureCertificates in d.signals.windows {
      StrongWindowsSignalScores(d, (WeakSignatureCertificates, 6.0));
    } else {
      StrongWindowsSignalScores(d, (DomainController, 5.0));
    }
  }

  // ----- a persisted risk, planned and reported

  /** What the inventory keeps of a risk: no dimensions, no confidence, no stage 2 signals. */
  datatype PersistedRisk = PersistedRisk(assetName: string, normalizedScore100: real, finalScore: real, dependencyCount: int, vendorBlocked: bool,
                                         rationale: set<WindowsSignal>)

  function FromInventory(p: PersistedRisk): Risk {
    Risk(Some(p.assetName), Some(p.normalizedScore100), Some(p.finalScore), None, None, None, Some(Some(p.dependencyCount)),
         Some(p.vendorBlocked), {}, p.rationale)
  }

  function PlannerWave(p: PersistedRisk): nat {
    FinalWave(ItemFor(Asset(p.assetName, None, None), FromInventory(p)))
  }

  datatype HostView = HostView(assetName: string, highSignals: seq<WindowsSignal>, mediumSignals: seq<WindowsSignal>, priorityScore: Option<real>)

  const HIGH_PRIORITY_WINDOWS_RATIONALE: seq<WindowsSignal> := [DomainController, ExpiredCertificates, WeakSignatureCertificates]
  const MEDIUM_PRIORITY_WINDOWS_RATIONALE: seq<WindowsSignal> := [LargeCertificateEstate]

  function OnIn(signals: seq<WindowsSignal>, rationale: set<WindowsSignal>): seq<WindowsSignal> {
    if signals == [] then []
    else (if signals[0] in rationale then [signals[0]] else []) + OnIn(signals[1..], rationale)
  }

  function WindowsHostView(p: PersistedRisk): HostView {
    HostView(p.assetName, OnIn(HIGH_PRIORITY_WINDOWS_RATIONALE, p.rationale), OnIn(MEDIUM_PRIORITY_WINDOWS_RATIONALE, p.rationale),
             Some(p.normalizedScore100))
  }

  ghost function ReportWave(view: HostView): nat {
    var score := Clamp(Or(view.priorityScore, 0.0) + (if view.highSignals != [] then 15.0 else 0.0) + (if view.mediumSignals != [] then 5.0 else 0.0));
    if ScoreWave(score) == 3 && view.highSignals != [] then 2 else ScoreWave(score)
  }

  method AssignWindowsHostWave(view: HostView) returns (wave: nat)
    ensures wave == ReportWave(view) && 1 <= wave <= 3
  {
    var score := Or(view.priorityScore, 0.0);
    if view.highSignals != [] {
      score := score + 15.0;
    }
    if view.mediumSignals != [] {
      score := score + 5.0;
    }
    score := if score > 100.0 then 100.0 else score;
    score := if score < 0.0 then 0.0 else score;
    if score >= 65.0 {
      wave := 1;
    } else if score >= 45.0 {
      wave := 2;
    } else {
      wave := 3;
    }
    if wave == 3 && view.highSignals != [] {
      wave := 2;
    }
  }

  lemma {:induction false} SomeOnIn(signals: seq<WindowsSignal>, rationale: set<WindowsSignal>)
    ensures OnIn(signals, rationale) != [] <==> exists s | s in signals :: s in rationale
  {
    if signals != [] {
      SomeOnIn(signals[1..], rationale);
      assert signals == [signals[0]] + signals[1..];
    }
  }

  lemma ViewSignals(p: PersistedRisk)
    ensures WindowsHostView(p).highSignals != [] <==> HighWindows(p.rationale)
    ensures WindowsHostView(p).mediumSignals != [] <==> LargeCertificateEstate in p.rationale
    ensures WindowsHostView(p).priorityScore == Some(p.normalizedScore100)
  {
    SomeOnIn(HIGH_PRIORITY_WINDOWS_RATIONALE, p.rationale);
    SomeOnIn(MEDIUM_PRIORITY_WINDOWS_RATIONALE, p.rationale);
    hide OnIn;
    var high := HIGH_PRIORITY_WINDOWS_RATIONALE;
    assert high[0] in high && high[1] in high && high[2] in high;
    assert MEDIUM_PRIORITY_WINDOWS_RATIONALE[0] in MEDIUM_PRIORITY_WINDOWS_RATIONALE;
  }

  lemma PersistedPriority(p: PersistedRisk)
    ensures PriorityScore(Asset(p.assetName, None, None), FromInventory(p)) ==
            Clamp(p.normalizedScore100 + DependencyBoost(if p.dependencyCount < 0 then 0 else p.dependencyCount)
                  + (if p.vendorBlocked then 8.0 else 0.0) + WindowsBoost(p.rationale))
  {
    hide DependencyBoost, WindowsBoost, Clamp;
    assert Stage2Boost({}) == 0.0;
  }

  /** Placing a persisted risk without overrides on its asset, the planner is never later than the report. */
  lemma PlannerNeverLaterThanReport(p: PersistedRisk)
    ensures PlannerWave(p) <= ReportWave(WindowsHostView(p))
    ensures p.dependencyCount <= 0 && !p.vendorBlocked ==> PlannerWave(p) == ReportWave(WindowsHostView(p))
  {
    PersistedPriority(p);
    ViewSignals(p);
    CapReasonIff(FromInventory(p));
    hide PriorityScore, HasCapReason, PlanningReasons, WindowsHostView, HighWindows;
  }

  /** The report does not know about dependencies and vendors, so the two agree on all scores and signals
      exactly when there is nothing of that kind to know. */
  lemma ReportAgreesIff(name: string, finalScore: real, dependencyCount: int, vendorBlocked: bool)
    ensures (forall score, rationale :: var p := PersistedRisk(name, score, finalScore, dependencyCount, vendorBlocked, rationale);
                                        PlannerWave(p) == ReportWave(WindowsHostView(p)))
            <==> dependencyCount <= 0 && !vendorBlocked
  {
    hide PlannerWave, ReportWave, WindowsHostView;
    if dependencyCount <= 0 && !vendorBlocked {
      forall score, rationale
        ensures var p := PersistedRisk(name, score, finalScore, dependencyCount, vendorBlocked, rationale);
                PlannerWave(p) == ReportWave(WindowsHostView(p))
      {
        PlannerNeverLaterThanReport(PersistedRisk(name, score, finalScore, dependencyCount, vendorBlocked, rationale));
      }
    } else {
      ReportIsLater(PersistedRisk(name, 44.0, finalScore, dependencyCount, vendorBlocked, {}));
    }
  }

  /** A quiet host that scores 44: wave 3 in the report, wave 2 in the plan if a single dependency or a vendor
      stands in the way. */
  lemma ReportIsLater(p: PersistedRisk)
    requires p.normalizedScore100 == 44.0 && p.rationale == {} && (p.dependencyCount > 0 || p.vendorBlocked)
    ensures PlannerWave(p) == 2 || PlannerWave(p) == 1
    ensures ReportWave(WindowsHostView(p)) == 3
  {
    PersistedPriority(p);
    ViewSignals(p);
    CapReasonIff(FromInventory(p));
    hide PriorityScore, HasCapReason, PlanningReasons, WindowsHostView;
  }
}
