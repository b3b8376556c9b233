/** A whole plan before and after signals have been turned on in one of its risks. Deduplication keeps a risk
    by its normalized score, while waves go by priority. */
module PlanEscalation {
  import opened PlanItems
  import opened PlanPipeline
  import opened PlanWaves
  import opened Planner
  import opened RiskEngine
  import opened Wrappers

  /** The plan has an item of that name in that wave. */
  ghost predicate InWave(items: seq<Item>, name: string, wave: nat) {
    exists item | item in items :: item.assetName == name && FinalWave(item) == wave
  }

  // ----- the item of a name

  lemma BestIsUnique(risks: seq<Risk>, i: nat, j: nat)
    requires i < |risks| && j < |risks| && NameOf(risks[i]) == NameOf(risks[j])
    requires IsBest(risks, i) && IsBest(risks, j)
    ensures i == j
  {
  }

  lemma PlannedAreItems(assets: seq<Asset>, risks: seq<Risk>)
    ensures forall item | item in PlannedItems(assets, risks) :: item == ItemOf(AssetMap(assets), item.risk)
  {
    hide Ordered, PriorityScore, PlanningReasons, DependencyCount, VendorBlocked, AssetMap;
  }

  /** The plan's only item of a name is the one for its best risk. */
  lemma PlannedForBest(assets: seq<Asset>, risks: seq<Risk>, k: nat, wave: nat)
    requires k < |risks| && IsBest(risks, k)
    ensures InWave(PlannedItems(assets, risks), NameOf(risks[k]), wave) <==> FinalWave(ItemOf(AssetMap(assets), risks[k])) == wave
  {
    var items, name := PlannedItems(assets, risks), NameOf(risks[k]);
    OneRiskPerAsset(assets, risks);
    PlannedAreItems(assets, risks);
    assert risks[k] in risks;
    hide PlannedItems, ItemOf, IsBest, FinalWave, AssetMap, NameOf;
    forall item | item in items && item.assetName == name ensures item.risk == risks[k] {
      var i: nat :| i < |risks| && risks[i] == item.risk && NameOf(item.risk) == name && IsBest(risks, i);
      BestIsUnique(risks, i, k);
    }
  }

  // ----- which risk is kept

  /** At `i` stands a risk that is kept instead of the one at `k`: a higher score, or the same one earlier. */
  predicate Overtakes(risks: seq<Risk>, i: nat, r: Risk, k: nat)
    requires i < |risks| && k < |risks|
  {
    i != k && NameOf(r) == NameOf(risks[k])
    && (Comparable(r) > Comparable(risks[k]) || (Comparable(r) == Comparable(risks[k]) && i < k))
  }

  lemma KeptAfterwards(risks: seq<Risk>, i: nat, r: Risk, k: nat)
    requires i < |risks| && k < |risks| && IsBest(risks, k)
    requires NameOf(r) == NameOf(risks[i]) && Comparable(r) >= Comparable(risks[i])
    ensures IsBest(risks[i := r], if Overtakes(risks, i, r, k) then i else k)
  {
  }

  // ----- escalating the risk at `i`

  /** A scored request as the planner gets it. */
  function Scored(d: RiskInput, round: real -> real): Risk {
    FromScore(Score(d, round))
  }

  /** `r` and `r'` are one scored risk before and after signals have been turned on. */
  ghost predicate Escalated(r: Risk, r': Risk, d: RiskInput, d': RiskInput, round: real -> real) {
    Escalates(d, d') && Rounds(round) && r == Scored(d, round) && r' == Scored(d', round)
  }

  lemma EscalatedScores(a: Asset, r: Risk, r': Risk, d: RiskInput, d': RiskInput, round: real -> real)
    requires Escalated(r, r', d, d', round)
    ensures NameOf(r') == NameOf(r) && Comparable(r') >= Comparable(r)
    ensures FinalWave(ItemFor(a, r')) <= FinalWave(ItemFor(a, r))
  {
    ScoringIsMonotone(d, d', round);
    MoreSignalsNeverLater(a, d, d', round);
    assert d'.assetName == d.assetName;
    hide FinalWave, ItemFor, NormalizedScore, FinalScore, ConfidenceScore, RiskDimensions, BaseScore;
  }

  lemma InPlaceNeverLater(m: map<string, Asset>, risks: seq<Risk>, i: nat, r': Risk, d: RiskInput, d': RiskInput, round: real -> real, k: nat)
    requires i < |risks| && Escalated(risks[i], r', d, d', round) && k < |risks|
    ensures FinalWave(ItemOf(m, risks[i := r'][k])) <= FinalWave(ItemOf(m, risks[k]))
    ensures NameOf(r') == NameOf(risks[i]) && Comparable(r') >= Comparable(risks[i])
  {
    EscalatedScores(AssetFor(m, risks[i]), risks[i], r', d, d', round);
    assert ItemOf(m, r') == ItemFor(AssetFor(m, risks[i]), r') && ItemOf(m, risks[i]) == ItemFor(AssetFor(m, risks[i]), risks[i]);
    hide *;
  }

  /** Which risk stands for the name of `risks[k]` afterwards, and how its wave compares. */
  lemma KeptWaveAfterwards(m: map<string, Asset>, risks: seq<Risk>, i: nat, r': Risk, d: RiskInput, d': RiskInput, round: real -> real, k: nat)
    requires i < |risks| && Escalated(risks[i], r', d, d', round) && k < |risks| && IsBest(risks, k)
    ensures var j, after := if Overtakes(risks, i, r', k) then i else k, risks[i := r'];
            && IsBest(after, j) && NameOf(after[j]) == NameOf(risks[k])
            && (FinalWave(ItemOf(m, after[j])) > FinalWave(ItemOf(m, risks[k]))
                <==> Overtakes(risks, i, r', k) && FinalWave(ItemOf(m, r')) > FinalWave(ItemOf(m, risks[k])))
  {
    OvertakesSameName(risks, i, r', k);
    hide *;
    InPlaceNeverLater(m, risks, i, r', d, d', round, k);
    KeptAfterwards(risks, i, r', k);
  }

  lemma OvertakesSameName(risks: seq<Risk>, i: nat, r: Risk, k: nat)
    requires i < |risks| && k < |risks|
    ensures Overtakes(risks, i, r, k) ==> NameOf(r) == NameOf(risks[k]) && i != k
  {
  }

  /** An asset of the plan moves to a later wave if and only if the escalated risk comes to be kept instead of
      the one kept so far, and is in a later wave than that. */
  lemma AssetMovesLaterIff(assets: seq<Asset>, risks: seq<Risk>, i: nat, r': Risk, d: RiskInput, d': RiskInput, round: real -> real,
                           k: nat, wave: nat, wave': nat)
    requires i < |risks| && Escalated(risks[i], r', d, d', round)
    requires k < |risks| && IsBest(risks, k)
    requires InWave(PlannedItems(assets, risks), NameOf(risks[k]), wave)
    requires InWave(PlannedItems(assets, risks[i := r']), NameOf(risks[k]), wave')
    ensures var m := AssetMap(assets);
            wave' > wave <==> Overtakes(risks, i, r', k) && FinalWave(ItemOf(m, r')) > FinalWave(ItemOf(m, risks[k]))
  {
    hide *;
    KeptWaveAfterwards(AssetMap(assets), risks, i, r', d, d', round, k);
    PlannedForBest(assets, risks, k, wave);
    PlannedForBest(assets, risks[i := r'], if Overtakes(risks, i, r', k) then i else k, wave');
  }

  /** Escalating a risk that is kept already, such as the only one of its name, moves no asset of the plan to
      a later wave. */
  lemma KeptRiskNeverLater(assets: seq<Asset>, risks: seq<Risk>, i: nat, r': Risk, d: RiskInput, d': RiskInput, round: real -> real,
                           name: string, wave: nat, wave': nat)
    requires i < |risks| && Escalated(risks[i], r', d, d', round) && IsBest(risks, i)
    requires InWave(PlannedItems(assets, risks), name, wave) && InWave(PlannedItems(assets, risks[i := r']), name, wave')
    ensures wave' <= wave
  {
    var k := KeptFor(assets, risks, name, wave);
    EscalatedScores(AssetFor(AssetMap(assets), risks[i]), risks[i], r', d, d', round);
    if Overtakes(risks, i, r', k) {
      BestIsUnique(risks, i, k);
    }
    hide Escalated, IsBest, InWave, PlannedItems, FinalWave, ItemFor, AssetFor, AssetMap, Comparable;
    AssetMovesLaterIff(assets, risks, i, r', d, d', round, k, wave, wave');
  }

  lemma KeptFor(assets: seq<Asset>, risks: seq<Risk>, name: string, wave: nat) returns (k: nat)
    requires InWave(PlannedItems(assets, risks), name, wave)
    ensures k < |risks| && NameOf(risks[k]) == name && IsBest(risks, k)
  {
    OneRiskPerAsset(assets, risks);
    hide PlannedItems, IsBest, FinalWave;
    var item :| item in PlannedItems(assets, risks) && item.assetName == name;
    k :| k < |risks| && risks[k] == item.risk && NameOf(item.risk) == name && IsBest(risks, k);
  }

  lemma OnlyOfItsName(risks: seq<Risk>, i: nat)
    requires i < |risks| && forall j | 0 <= j < |risks| && j != i :: NameOf(risks[j]) != NameOf(risks[i])
    ensures IsBest(risks, i)
  {
  }

  // ----- and otherwise an asset can move to a later wave

  function Quiet(name: string, factors: Factors, signals: Signals): RiskInput {
    RiskInput(name, factors, 0, Blank, false, PublicTimeline, false, false, false, signals)
  }

  const NO_SIGNALS := Signals({}, {}, false, false)

  /** Critical and exposed, no signals: it scores 58.8. */
  function Exposed(name: string): RiskInput {
    Quiet(name, Factors(5.0, 0.0, 5.0, 4.6, 0.0, 0.0), NO_SIGNALS)
  }

  /** Long-lived secrets only: it scores 20. */
  function LongLived(name: string): RiskInput {
    Quiet(name, Factors(0.0, 5.0, 0.0, 0.0, 0.0, 0.0), NO_SIGNALS)
  }

  /** The same with a certificate chain to look at: it scores 60. */
  function LongLivedWithChain(name: string): RiskInput {
    LongLived(name).(signals := Signals({CertificateChainAvailable}, {}, false, false))
  }

  lemma NoWeight<T>(table: seq<(T, real)>)
    ensures WeightOn(table, {}) == 0.0
  {
  }

  lemma {:induction false} ChainWeight(table: seq<(EvidenceSignal, real)>, i: nat)
    requires i < |table| && table[i].0 == CertificateChainAvailable
    requires forall j | 0 <= j < |table| && j != i :: table[j].0 != CertificateChainAvailable
    ensures WeightOn(table, {CertificateChainAvailable}) == table[i].1
  {
    var front := table[..|table| - 1];
    if i < |front| {
      ChainWeight(front, i);
    } else {
      WithoutChain(front);
    }
  }

  lemma {:induction false} WithoutChain(table: seq<(EvidenceSignal, real)>)
    requires forall j | 0 <= j < |table| :: table[j].0 != CertificateChainAvailable
    ensures WeightOn(table, {CertificateChainAvailable}) == 0.0
  {
    if table != [] {
      WithoutChain(table[..|table| - 1]);
    }
  }

  lemma NormalizedOfThree(name: string)
    ensures NormalizedScore(Exposed(name)) == 58.8 && NormalizedScore(LongLived(name)) == 20.0
    ensures NormalizedScore(LongLivedWithChain(name)) == 60.0
  {
    NoWeight(EVIDENCE_SIGNAL_WEIGHTS);
    NoWeight(WINDOWS_SIGNAL_WEIGHTS);
    ChainWeight(EVIDENCE_SIGNAL_WEIGHTS, 8);
    hide WeightOn;
  }

  lemma PriorityOfTwo(name: string, a: Asset, round: real -> real)
    requires Rounds(round) && a == Asset(name, None, None)
    ensures PriorityScore(a, FromScore(Score(Exposed(name), round))) >= 65.0
    ensures 45.0 <= PriorityScore(a, FromScore(Score(LongLivedWithChain(name), round))) < 65.0
  {
    NormalizedOfThree(name);
    var d, d' := Exposed(name), LongLivedWithChain(name);
    assert ConfidenceScore(d) == 60.0 && ConfidenceScore(d') == 65.0;
    assert Exposure(d) == 100.0 && Impact(d) == 100.0 && Urgency(d) == 0.0;
    assert Exposure(d') == 0.0 && Impact(d') == 0.0 && Urgency(d') == 0.0;
    hide NormalizedScore, ConfidenceScore, Exposure, Impact, Urgency, MigrationComplexity, BaseScore, FinalScore, Exposed, LongLivedWithChain;
    assert round(58.8) >= 58.795 && 59.995 <= round(60.0) <= 60.005;
    assert 59.995 <= round(60.0) && 64.995 <= round(65.0) <= 65.005;
    assert d.dependencyCount == 0 && !d.vendorBlocked && d.signals == NO_SIGNALS;
    assert d'.dependencyCount == 0 && !d'.vendorBlocked && d'.signals.evidence == {CertificateChainAvailable} && d'.signals.windows == {};
  }

  lemma PlansOfTwo(kept: Risk, quiet: Risk, loud: Risk, name: string)
    requires NameOf(kept) == NameOf(quiet) == NameOf(loud) == name
    requires Comparable(quiet) < Comparable(kept) < Comparable(loud)
    ensures InWave(PlannedItems([], [kept, quiet]), name, FinalWave(ItemOf(AssetMap([]), kept)))
    ensures InWave(PlannedItems([], [kept, loud]), name, FinalWave(ItemOf(AssetMap([]), loud)))
  {
    assert IsBest([kept, quiet], 0) && IsBest([kept, loud], 1);
    hide *;
    PlannedForBest([], [kept, quiet], 0, FinalWave(ItemOf(AssetMap([]), kept)));
    PlannedForBest([], [kept, loud], 1, FinalWave(ItemOf(AssetMap([]), loud)));
  }

  lemma WavesOfTwo(name: string, round: real -> real)
    requires Rounds(round)
    ensures FinalWave(ItemOf(AssetMap([]), Scored(Exposed(name), round))) == 1
    ensures FinalWave(ItemOf(AssetMap([]), Scored(LongLivedWithChain(name), round))) == 2
  {
    hide *;
    PriorityOfTwo(name, Asset(name, None, None), round);
    ThreeInputs(name);
    ScoredAs(Exposed(name), round);
    ScoredAs(LongLivedWithChain(name), round);
    ScoredIs(Exposed(name), round);
    ScoredIs(LongLivedWithChain(name), round);
    WaveByPriority(Scored(Exposed(name), round), name);
    WaveByPriority(Scored(LongLivedWithChain(name), round), name);
  }

  lemma ScoredIs(d: RiskInput, round: real -> real)
    ensures Scored(d, round) == FromScore(Score(d, round))
  {
  }

  lemma WaveByPriority(r: Risk, name: string)
    requires NameOf(r) == name
    ensures PriorityScore(Asset(name, None, None), r) >= 65.0 ==> FinalWave(ItemOf(AssetMap([]), r)) == 1
    ensures 45.0 <= PriorityScore(Asset(name, None, None), r) < 65.0 ==> FinalWave(ItemOf(AssetMap([]), r)) == 2
  {
    hide PriorityScore, PlanningReasons, HasCapReason, DependencyCount, VendorBlocked, NameOf;
  }

  lemma ScoredAs(d: RiskInput, round: real -> real)
    ensures var r := Scored(d, round); Comparable(r) == round(NormalizedScore(d)) && NameOf(r) == d.assetName
  {
    hide NormalizedScore, FinalScore, ConfidenceScore, RiskDimensions, BaseScore;
  }

  lemma ThreeInputs(name: string)
    ensures Exposed(name).assetName == LongLived(name).assetName == LongLivedWithChain(name).assetName == name
    ensures Escalates(LongLived(name), LongLivedWithChain(name))
  {
  }

  lemma EscalatedIs(d: RiskInput, d': RiskInput, round: real -> real)
    requires Escalates(d, d') && Rounds(round)
    ensures Escalated(Scored(d, round), Scored(d', round), d, d', round)
  {
    hide Scored;
  }

  lemma OvertakenByLower(d0: RiskInput, d1: RiskInput, d2: RiskInput, round: real -> real)
    requires Rounds(round) && Escalates(d1, d2) && d0.assetName == d1.assetName == d2.assetName
    requires NormalizedScore(d1) + 1.0 < NormalizedScore(d0) && NormalizedScore(d0) + 1.0 < NormalizedScore(d2)
    ensures Escalated(Scored(d1, round), Scored(d2, round), d1, d2, round)
    ensures InWave(PlannedItems([], [Scored(d0, round), Scored(d1, round)]), d0.assetName, FinalWave(ItemOf(AssetMap([]), Scored(d0, round))))
    ensures InWave(PlannedItems([], [Scored(d0, round), Scored(d2, round)]), d0.assetName, FinalWave(ItemOf(AssetMap([]), Scored(d2, round))))
  {
    assert round(NormalizedScore(d1)) < round(NormalizedScore(d0)) < round(NormalizedScore(d2));
    hide *;
    ScoredAs(d0, round);
    ScoredAs(d1, round);
    ScoredAs(d2, round);
    EscalatedIs(d1, d2, round);
    PlansOfTwo(Scored(d0, round), Scored(d1, round), Scored(d2, round), d0.assetName);
  }

  /** Turning on a signal in a risk that is not kept can move its asset from wave 1 to wave 2: with the signal
      it outscores the kept risk, which had the higher priority. */
  lemma EscalationCanMoveLater(name: string, round: real -> real)
    requires Rounds(round)
    ensures var kept, quiet, loud := Exposed(name), LongLived(name), LongLivedWithChain(name);
            && Escalated(Scored(quiet, round), Scored(loud, round), quiet, loud, round)
            && InWave(PlannedItems([], [Scored(kept, round), Scored(quiet, round)]), name, 1)
            && InWave(PlannedItems([], [Scored(kept, round), Scored(loud, round)]), name, 2)
  {
    hide *;
    NormalizedOfThree(name);
    ThreeInputs(name);
    WavesOfTwo(name, round);
    OvertakenByLower(Exposed(name), LongLived(name), LongLivedWithChain(name), round);
  }
}
