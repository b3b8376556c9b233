/** Ordering the risks, splitting them into three waves and enforcing the wave caps
    (`build_plan` and `_enforce_stage2_wave_caps` in services/planner-service/app/planner.py). */
module PlanWaves {
  import opened Dictionaries
  import opened PlanItems
  import opened Planner
  import opened RiskEngine
  import opened Wrappers
  import StableSort

  // ----- ordering

  datatype Key = Key(priority: real, vendorBlocked: bool, dependencyCount: nat)

  /** Python's comparison of the tuples, `a >= b`. */
  predicate KeyGe(a: Key, b: Key) {
    a.priority > b.priority
    || (a.priority == b.priority
        && ((a.vendorBlocked && !b.vendorBlocked)
            || (a.vendorBlocked == b.vendorBlocked && a.dependencyCount >= b.dependencyCount)))
  }

  function OrderingTuple(a: Asset, r: Risk): Key {
    Key(PriorityScore(a, r), VendorBlocked(a, r), DependencyCount(a, r))
  }

  function NotBefore(m: map<string, Asset>): (Risk, Risk) -> bool {
    (a, b) => KeyGe(OrderingTuple(AssetFor(m, a), a), OrderingTuple(AssetFor(m, b), b))
  }

  lemma NotBeforeIsTotalPreorder(m: map<string, Asset>)
    ensures StableSort.TotalPreorder(NotBefore(m))
  {
    hide OrderingTuple, AssetFor;
  }

  // ----- waves

  function Items(m: map<string, Asset>, rs: seq<Risk>): (items: seq<Item>)
    ensures |items| == |rs| && forall i | 0 <= i < |rs| :: items[i] == ItemOf(m, rs[i])
  {
    seq(|rs|, i requires 0 <= i < |rs| => ItemOf(m, rs[i]))
  }

  function KeyOf(item: Item): Key {
    Key(item.priority, item.vendorBlocked, item.dependencyCount)
  }

  ghost predicate NonIncreasing(items: seq<Item>) {
    forall i, j | 0 <= i < j < |items| :: KeyGe(KeyOf(items[i]), KeyOf(items[j]))
  }

  function ScoreWave(priority: real): nat {
    if priority >= 65.0 then 1 else if priority >= 45.0 then 2 else 3
  }

  /** The wave an item ends up in: by its score, and never the third with a cap reason. */
  function FinalWave(item: Item): nat {
    if ScoreWave(item.priority) == 3 && HasCapReason(item.reasons) then 2 else ScoreWave(item.priority)
  }

  function FirstWave(item: Item): nat {
    ScoreWave(item.priority)
  }

  /** Where an item of the third list belongs once the caps are enforced. */
  function CappedWave(item: Item): nat {
    if HasCapReason(item.reasons) then 2 else 3
  }

  /** The items of wave `k`, in their order. */
  function In(items: seq<Item>, wave: Item -> nat, k: nat): seq<Item> {
    if items == [] then []
    else
      var last := items[|items| - 1];
      In(items[..|items| - 1], wave, k) + (if wave(last) == k then [last] else [])
  }

  lemma InSnoc(items: seq<Item>, item: Item, wave: Item -> nat, k: nat)
    ensures wave(item) == k ==> In(items + [item], wave, k) == In(items, wave, k) + [item]
    ensures wave(item) != k ==> In(items + [item], wave, k) == In(items, wave, k)
  {
    assert (items + [item])[..|items|] == items;
  }

  lemma {:induction false} InMembers(items: seq<Item>, wave: Item -> nat, k: nat)
    ensures forall item :: item in In(items, wave, k) <==> item in items && wave(item) == k
  {
    if items != [] {
      InMembers(items[..|items| - 1], wave, k);
      assert items == items[..|items| - 1] + [items[|items| - 1]];
    }
  }

  lemma {:induction false} InKeepsOrder(items: seq<Item>, wave: Item -> nat, k: nat)
    requires NonIncreasing(items)
    ensures NonIncreasing(In(items, wave, k))
  {
    if items != [] {
      var front, last := items[..|items| - 1], items[|items| - 1];
      InKeepsOrder(front, wave, k);
      InMembers(front, wave, k);
      LastIsLowest(items);
      hide In;
      SnocKeepsOrder(In(front, wave, k), last);
    }
  }

  lemma LastIsLowest(items: seq<Item>)
    requires NonIncreasing(items) && items != []
    ensures forall item | item in items[..|items| - 1] :: KeyGe(KeyOf(item), KeyOf(items[|items| - 1]))
  {
  }

  lemma SnocKeepsOrder(items: seq<Item>, item: Item)
    requires NonIncreasing(items) && forall i | i in items :: KeyGe(KeyOf(i), KeyOf(item))
    ensures NonIncreasing(items + [item])
  {
    hide KeyGe;
  }

  /** Every item is in exactly one wave, as often as it is planned. */
  lemma {:induction false} WavesPartition(items: seq<Item>)
    ensures multiset(In(items, FinalWave, 1)) + multiset(In(items, FinalWave, 2)) + multiset(In(items, FinalWave, 3)) == multiset(items)
  {
    if items != [] {
      var front, last := items[..|items| - 1], items[|items| - 1];
      WavesPartition(front);
      assert items == front + [last];
      var a, b, c := In(front, FinalWave, 1), In(front, FinalWave, 2), In(front, FinalWave, 3);
      InSnoc(front, last, FinalWave, 1);
      InSnoc(front, last, FinalWave, 2);
      InSnoc(front, last, FinalWave, 3);
      var wave := FinalWave(last);
      assert 1 <= wave <= 3;
      hide *;
      MultisetSnoc(front, last);
      var a', b', c' := In(items, FinalWave, 1), In(items, FinalWave, 2), In(items, FinalWave, 3);
      assert a' == if wave == 1 then a + [last] else a;
      assert b' == if wave == 2 then b + [last] else b;
      assert c' == if wave == 3 then c + [last] else c;
      PartitionStep(a, b, c, a', b', c', last);
    }
  }

  lemma PartitionStep(a: seq<Item>, b: seq<Item>, c: seq<Item>, a': seq<Item>, b': seq<Item>, c': seq<Item>, x: Item)
    requires || (a' == a + [x] && b' == b && c' == c)
             || (a' == a && b' == b + [x] && c' == c)
             || (a' == a && b' == b && c' == c + [x])
    ensures multiset(a') + multiset(b') + multiset(c') == multiset(a) + multiset(b) + multiset(c) + multiset{x}
  {
    if a' != a {
      MultisetSnoc(a, x);
    } else if b' != b {
      MultisetSnoc(b, x);
    } else {
      MultisetSnoc(c, x);
    }
  }

  lemma WavesCount(items: seq<Item>)
    ensures |In(items, FinalWave, 1)| + |In(items, FinalWave, 2)| + |In(items, FinalWave, 3)| == |items|
  {
    WavesPartition(items);
    hide *;
    var a, b, c := In(items, FinalWave, 1), In(items, FinalWave, 2), In(items, FinalWave, 3);
    assert |multiset(a) + multiset(b) + multiset(c)| == |a| + |b| + |c|;
  }

  lemma MultisetSnoc(items: seq<Item>, item: Item)
    ensures multiset(items + [item]) == multiset(items) + multiset{item}
  {
  }

  // ----- the three lists the plan is built in

  class WaveLists {
    var wave1: seq<Item>
    var wave2: seq<Item>
    var wave3: seq<Item>

    constructor ()
      ensures Hold([], FirstWave)
    {
      wave1, wave2, wave3 := [], [], [];
    }

    ghost predicate Hold(items: seq<Item>, wave: Item -> nat)
      reads this
    {
      wave1 == In(items, wave, 1) && wave2 == In(items, wave, 2) && wave3 == In(items, wave, 3)
    }

    method Place(item: Item, ghost before: seq<Item>)
      requires Hold(before, FirstWave)
      modifies this
      ensures Hold(before + [item], FirstWave)
    {
      ghost var items := before + [item];
      InSnoc(before, item, FirstWave, 1);
      InSnoc(before, item, FirstWave, 2);
      InSnoc(before, item, FirstWave, 3);
      assert FirstWave(item) == if item.priority >= 65.0 then 1 else if item.priority >= 45.0 then 2 else 3;
      hide In, FirstWave;
      if item.priority >= 65.0 {
        wave1 := wave1 + [item];
      } else if item.priority >= 45.0 {
        wave2 := wave2 + [item];
      } else {
        wave3 := wave3 + [item];
      }
    }

    lemma HoldMeans(items: seq<Item>, wave: Item -> nat)
      requires Hold(items, wave)
      ensures wave1 == In(items, wave, 1) && wave2 == In(items, wave, 2) && wave3 == In(items, wave, 3)
    {
    }

    /** Capped items leave the third wave for the end of the second, whatever their scores. */
    method EnforceStage2WaveCaps()
      modifies this
      ensures wave1 == old(wave1)
      ensures wave2 == old(wave2) + In(old(wave3), CappedWave, 2)
      ensures wave3 == In(old(wave3), CappedWave, 3)
    {
      var remainingWave3: seq<Item> := [];
      hide In;
      assert In([], CappedWave, 2) == [] && In([], CappedWave, 3) == [] by { NoneIn(CappedWave, 2); NoneIn(CappedWave, 3); }
      for i := 0 to |wave3|
        invariant wave1 == old(wave1) && wave3 == old(wave3)
        invariant wave2 == old(wave2) + In(wave3[..i], CappedWave, 2) && remainingWave3 == In(wave3[..i], CappedWave, 3)
      {
        var item := wave3[i];
        InSnoc(wave3[..i], item, CappedWave, 2);
        InSnoc(wave3[..i], item, CappedWave, 3);
        assert wave3[..i + 1] == wave3[..i] + [item];
        if HasCapReason(item.reasons) {
          wave2 := wave2 + [item];
        } else {
          remainingWave3 := remainingWave3 + [item];
        }
      }
      assert wave3[..|wave3|] == wave3;
      wave3 := remainingWave3;
    }
  }

  /** Because the items come in order, appending the capped ones keeps the second wave what it should be:
      the items whose final wave is the second, in order. */
  lemma {:induction false} CapsKeepOrder(items: seq<Item>)
    requires NonIncreasing(items)
    ensures In(items, FirstWave, 1) == In(items, FinalWave, 1)
    ensures In(items, FirstWave, 2) + In(In(items, FirstWave, 3), FinalWave, 2) == In(items, FinalWave, 2)
    ensures In(In(items, FirstWave, 3), FinalWave, 3) == In(items, FinalWave, 3)
  {
    if items != [] {
      var front, last := items[..|items| - 1], items[|items| - 1];
      CapsKeepOrder(front);
      LastIsLowest(items);
      if FirstWave(last) == 2 {
        NothingBelow(front, last.priority);
      }
      assert items == front + [last];
      CapsStep(front, last);
    } else {
      NoneIn(FinalWave, 2);
    }
  }

  /** On items that are in the third list by their score, the caps decide the final wave. */
  lemma {:induction false} CapsDecide(items: seq<Item>, k: nat)
    requires forall item | item in items :: FirstWave(item) == 3
    ensures In(items, CappedWave, k) == In(items, FinalWave, k)
  {
    if items != [] {
      CapsDecide(items[..|items| - 1], k);
      assert items[|items| - 1] in items;
    }
  }

  lemma CapsStep(front: seq<Item>, last: Item)
    requires In(front, FirstWave, 1) == In(front, FinalWave, 1)
    requires In(front, FirstWave, 2) + In(In(front, FirstWave, 3), FinalWave, 2) == In(front, FinalWave, 2)
    requires In(In(front, FirstWave, 3), FinalWave, 3) == In(front, FinalWave, 3)
    requires FirstWave(last) == 2 ==> In(front, FirstWave, 3) == []
    ensures var items := front + [last];
            && In(items, FirstWave, 1) == In(items, FinalWave, 1)
            && In(items, FirstWave, 2) + In(In(items, FirstWave, 3), FinalWave, 2) == In(items, FinalWave, 2)
            && In(In(items, FirstWave, 3), FinalWave, 3) == In(items, FinalWave, 3)
  {
    assert FinalWave(last) == FirstWave(last) || (FirstWave(last) == 3 && FinalWave(last) == 2);
    assert 1 <= FirstWave(last) <= 3;
    NoneIn(FinalWave, 2);
    hide *;
    InSnoc(front, last, FirstWave, 1);
    InSnoc(front, last, FinalWave, 1);
    InSnoc(front, last, FirstWave, 3);
    InSnoc(front, last, FinalWave, 3);
    InSnoc(In(front, FirstWave, 3), last, FinalWave, 3);
    CapsStepSecond(front, last);
  }

  lemma AppendTo(second: seq<Item>, capped: seq<Item>, second': seq<Item>, capped': seq<Item>, last: Item, toSecond: bool, toCapped: bool)
    requires second' == if toSecond then second + [last] else second
    requires capped' == if toCapped then capped + [last] else capped
    requires toSecond ==> capped == [] && !toCapped
    ensures second' + capped' == if toSecond || toCapped then (second + capped) + [last] else second + capped
  {
    assert second + (capped + [last]) == (second + capped) + [last];
    assert (second + [last]) + [] == second + [last] && second + [] == second;
  }

  lemma CapsStepSecond(front: seq<Item>, last: Item)
    requires In(front, FirstWave, 2) + In(In(front, FirstWave, 3), FinalWave, 2) == In(front, FinalWave, 2)
    requires FirstWave(last) == 2 ==> In(front, FirstWave, 3) == []
    requires FinalWave(last) == FirstWave(last) || (FirstWave(last) == 3 && FinalWave(last) == 2)
    ensures var items := front + [last];
            In(items, FirstWave, 2) + In(In(items, FirstWave, 3), FinalWave, 2) == In(items, FinalWave, 2)
  {
    var low, second := In(front, FirstWave, 3), In(front, FirstWave, 2);
    NoneIn(FinalWave, 2);
    hide *;
    var capped := In(low, FinalWave, 2);
    InSnoc(front, last, FirstWave, 2);
    InSnoc(front, last, FirstWave, 3);
    InSnoc(front, last, FinalWave, 2);
    InSnoc(low, last, FinalWave, 2);
    var items := front + [last];
    AppendTo(second, capped, In(items, FirstWave, 2), In(In(items, FirstWave, 3), FinalWave, 2), last,
             FirstWave(last) == 2, FirstWave(last) == 3 && FinalWave(last) == 2);
  }

  lemma NoneIn(wave: Item -> nat, k: nat)
    ensures In([], wave, k) == []
  {
  }

  lemma {:induction false} NothingBelow(items: seq<Item>, bound: real)
    requires bound >= 45.0 && forall item | item in items :: item.priority >= bound
    ensures In(items, FirstWave, 3) == []
  {
    if items != [] {
      NothingBelow(items[..|items| - 1], bound);
    }
  }

  // ----- build_plan

  datatype Summary = Summary(totalAssets: nat, totalRisks: nat, wave1Count: nat, wave2Count: nat, wave3Count: nat)

  datatype Plan = Plan(summary: Summary, wave1: seq<Item>, wave2: seq<Item>, wave3: seq<Item>)

  lemma DedupedIsValid(risks: seq<Risk>)
    ensures Deduped(risks).Valid()
  {
    DedupedHoldsTheBest(risks);
  }

  /** The risks kept, highest ordering tuple first, ties in the order their names first occurred. */
  ghost function Ordered(m: map<string, Asset>, risks: seq<Risk>): seq<Risk> {
    DedupedIsValid(risks);
    StableSort.Sort(Deduped(risks).Values(), NotBefore(m))
  }

  ghost function PlannedItems(assets: seq<Asset>, risks: seq<Risk>): seq<Item> {
    Items(AssetMap(assets), Ordered(AssetMap(assets), risks))
  }

  method IndexAssets(assets: seq<Asset>) returns (m: map<string, Asset>)
    ensures m == AssetMap(assets)
  {
    m := map[];
    for i := 0 to |assets|
      invariant m == AssetMap(assets[..i])
    {
      assert assets[..i + 1][..i] == assets[..i];
      m := m[assets[i].name := assets[i]];
    }
    assert assets[..|assets|] == assets;
  }

  method KeepHighest(risks: seq<Risk>) returns (deduped: Dict<string, Risk>)
    ensures deduped == Deduped(risks)
  {
    deduped := Dict([], map[]);
    for i := 0 to |risks|
      invariant deduped == Deduped(risks[..i])
    {
      assert risks[..i + 1][..i] == risks[..i];
      var name := NameOf(risks[i]);
      if name !in deduped.vals || Comparable(risks[i]) > Comparable(deduped.vals[name]) {
        deduped := deduped.Put(name, risks[i]);
      }
    }
    assert risks[..|risks|] == risks;
  }

  method PlaceAll(assetMap: map<string, Asset>, orderedRisks: seq<Risk>, lists: WaveLists)
    requires lists.Hold([], FirstWave)
    modifies lists
    ensures lists.Hold(Items(assetMap, orderedRisks), FirstWave)
  {
    NoItems(assetMap, orderedRisks);
    hide *;
    for i := 0 to |orderedRisks|
      invariant lists.Hold(ItemsUpTo(assetMap, orderedRisks, i), FirstWave)
    {
      OneMoreItem(assetMap, orderedRisks, i);
      var item := ItemOf(assetMap, orderedRisks[i]);
      lists.Place(item, ItemsUpTo(assetMap, orderedRisks, i));
    }
  }

  ghost function ItemsUpTo(m: map<string, Asset>, rs: seq<Risk>, i: nat): seq<Item>
    requires i <= |rs|
  {
    Items(m, rs)[..i]
  }

  lemma NoItems(m: map<string, Asset>, rs: seq<Risk>)
    ensures ItemsUpTo(m, rs, 0) == [] && ItemsUpTo(m, rs, |rs|) == Items(m, rs)
  {
  }

  lemma OneMoreItem(m: map<string, Asset>, rs: seq<Risk>, i: nat)
    requires i < |rs|
    ensures ItemsUpTo(m, rs, i + 1) == ItemsUpTo(m, rs, i) + [ItemOf(m, rs[i])]
  {
    hide ItemOf;
  }

  method BuildPlan(assets: seq<Asset>, risks: seq<Risk>) returns (plan: Plan)
    ensures var items := PlannedItems(assets, risks);
            && plan.wave1 == In(items, FinalWave, 1) && plan.wave2 == In(items, FinalWave, 2) && plan.wave3 == In(items, FinalWave, 3)
            && plan.summary == Summary(|assets|, |items|, |plan.wave1|, |plan.wave2|, |plan.wave3|)
    ensures forall item | item in plan.wave1 + plan.wave2 + plan.wave3 :: Faithful(assets, item) && Outscores(risks, item.risk)
    ensures InPlanOrder(plan.wave1) && InPlanOrder(plan.wave2) && InPlanOrder(plan.wave3)
  {
    var assetMap := IndexAssets(assets);
    var deduped := KeepHighest(risks);
    DedupedIsValid(risks);
    var orderedRisks := StableSort.Sort(deduped.Values(), NotBefore(assetMap));
    ghost var items := PlannedItems(assets, risks);
    assert items == Items(assetMap, orderedRisks);
    hide *;
    var lists := new WaveLists();
    PlaceAll(assetMap, orderedRisks, lists);
    lists.HoldMeans(items, FirstWave);
    InMembers(items, FirstWave, 3);
    PlannedInOrder(assets, risks);
    CapsKeepOrder(items);
    CapsDecide(In(items, FirstWave, 3), 2);
    CapsDecide(In(items, FirstWave, 3), 3);
    lists.EnforceStage2WaveCaps();
    plan := Plan(Summary(|assets|, |orderedRisks|, |lists.wave1|, |lists.wave2|, |lists.wave3|), lists.wave1, lists.wave2, lists.wave3);
    WaveIsFaithful(assets, risks, 1);
    WaveIsFaithful(assets, risks, 2);
    WaveIsFaithful(assets, risks, 3);
  }

  /** By priority; among equal priorities blocked vendors come first, and then the higher dependency count. */
  ghost predicate InPlanOrder(items: seq<Item>) {
    forall i, j | 0 <= i < j < |items| ::
      && items[i].priority >= items[j].priority
      && (items[i].priority == items[j].priority && items[j].vendorBlocked ==> items[i].vendorBlocked)
      && (items[i].priority == items[j].priority && items[i].vendorBlocked == items[j].vendorBlocked ==>
            items[i].dependencyCount >= items[j].dependencyCount)
  }

  lemma OrderMeans(items: seq<Item>)
    requires NonIncreasing(items)
    ensures InPlanOrder(items)
  {
    forall i, j | 0 <= i < j < |items| ensures KeyGe(KeyOf(items[i]), KeyOf(items[j])) {
    }
  }

  lemma WaveIsFaithful(assets: seq<Asset>, risks: seq<Risk>, k: nat)
    ensures var wave := In(PlannedItems(assets, risks), FinalWave, k);
            InPlanOrder(wave) && forall item | item in wave :: Faithful(assets, item) && Outscores(risks, item.risk)
  {
    var items := PlannedItems(assets, risks);
    PlannedInOrder(assets, risks);
    PlannedAreFaithful(assets, risks);
    PlannedOutscore(assets, risks);
    hide *;
    InKeepsOrder(items, FinalWave, k);
    InMembers(items, FinalWave, k);
    OrderMeans(In(items, FinalWave, k));
  }

  lemma PlannedOutscore(assets: seq<Asset>, risks: seq<Risk>)
    ensures forall item | item in PlannedItems(assets, risks) :: Outscores(risks, item.risk)
  {
    OneRiskPerAsset(assets, risks);
    var items := PlannedItems(assets, risks);
    hide PlannedItems, BestFor, Outscores;
    forall item | item in items ensures Outscores(risks, item.risk) {
      BestOutscores(risks, item.assetName, item.risk);
    }
  }

  lemma PlannedAreFaithful(assets: seq<Asset>, risks: seq<Risk>)
    ensures forall item | item in PlannedItems(assets, risks) :: Faithful(assets, item)
  {
    var m, items := AssetMap(assets), PlannedItems(assets, risks);
    var ordered := Ordered(m, risks);
    hide Faithful, Ordered;
    forall item | item in items ensures Faithful(assets, item) {
      var i :| 0 <= i < |items| && items[i] == item;
      assert item == ItemOf(m, ordered[i]);
      ItemIsFaithful(assets, ordered[i]);
    }
  }

  lemma PlannedInOrder(assets: seq<Asset>, risks: seq<Risk>)
    ensures NonIncreasing(PlannedItems(assets, risks))
  {
    var m := AssetMap(assets);
    DedupedIsValid(risks);
    var values := Deduped(risks).Values();
    NotBeforeIsTotalPreorder(m);
    StableSort.SortIsStable(values, NotBefore(m));
    hide Deduped, AssetMap, OrderingTuple, KeyGe;
    var ordered, items := Ordered(m, risks), PlannedItems(assets, risks);
    forall i, j | 0 <= i < j < |items| ensures KeyGe(KeyOf(items[i]), KeyOf(items[j])) {
      assert NotBefore(m)(ordered[i], ordered[j]);
      KeyOfItem(m, ordered[i]);
      KeyOfItem(m, ordered[j]);
    }
  }

  lemma KeyOfItem(m: map<string, Asset>, r: Risk)
    ensures KeyOf(ItemOf(m, r)) == OrderingTuple(AssetFor(m, r), r)
  {
  }

  // ----- what the plan guarantees

  lemma ValuesAreBest(risks: seq<Risk>)
    ensures var d := Deduped(risks);
            && d.Valid() && (forall r | r in d.Values() :: NameOf(r) in d.vals && d.vals[NameOf(r)] == r && BestFor(risks, NameOf(r), r))
            && (forall name | name in d.vals :: d.vals[name] in d.Values() && NameOf(d.vals[name]) == name) && StableSort.Distinct(d.Values())
  {
    DedupedHoldsTheBest(risks);
    hide Deduped;
    var d := Deduped(risks);
    var values := d.Values();
    forall name | name in d.vals ensures NameOf(d.vals[name]) == name {
      assert BestFor(risks, name, d.vals[name]);
    }
    hide BestFor;
    forall name | name in d.vals ensures d.vals[name] in values {
      var i :| 0 <= i < |d.keys| && d.keys[i] == name;
      assert values[i] == d.vals[name];
    }
  }

  /** `d` holds the best risk of each name, and `ordered` lists those risks once each. */
  ghost predicate ListsTheBest(risks: seq<Risk>, d: Dict<string, Risk>, ordered: seq<Risk>) {
    && StableSort.Distinct(ordered)
    && (forall r | r in ordered :: NameOf(r) in d.vals && d.vals[NameOf(r)] == r && BestFor(risks, NameOf(r), r))
    && (forall name | name in d.vals :: d.vals[name] in ordered && NameOf(d.vals[name]) == name)
  }

  lemma OrderedListsTheBest(m: map<string, Asset>, risks: seq<Risk>)
    ensures ListsTheBest(risks, Deduped(risks), Ordered(m, risks))
  {
    ValuesAreBest(risks);
    OrderedIs(m, risks);
    NotBeforeIsTotalPreorder(m);
    hide Deduped, BestFor, NotBefore, Ordered;
    StableSort.SortMembers(Deduped(risks).Values(), NotBefore(m));
    StableSort.SortKeepsDistinct(Deduped(risks).Values(), NotBefore(m));
  }

  ghost predicate OnePerAsset(risks: seq<Risk>, items: seq<Item>) {
    && (forall i, j | 0 <= i < j < |items| :: items[i].assetName != items[j].assetName)
    && (forall item | item in items :: item.assetName == NameOf(item.risk) && BestFor(risks, item.assetName, item.risk))
    && (forall risk | risk in risks :: exists item | item in items :: item.assetName == NameOf(risk))
  }

  lemma ItemsOfBest(m: map<string, Asset>, risks: seq<Risk>, d: Dict<string, Risk>, ordered: seq<Risk>)
    requires HoldsTheBest(risks, d) && ListsTheBest(risks, d, ordered)
    ensures OnePerAsset(risks, Items(m, ordered))
  {
    var items := Items(m, ordered);
    hide BestFor, PriorityScore, PlanningReasons, DependencyCount, VendorBlocked, AssetFor;
    forall risk | risk in risks ensures exists item | item in items :: item.assetName == NameOf(risk) {
      var best := d.vals[NameOf(risk)];
      var i :| 0 <= i < |ordered| && ordered[i] == best;
      assert items[i].assetName == NameOf(risk);
    }
  }

  /** The plan keeps one risk for each asset name that occurs: the first of those with the highest score. */
  lemma OneRiskPerAsset(assets: seq<Asset>, risks: seq<Risk>)
    ensures OnePerAsset(risks, PlannedItems(assets, risks))
  {
    DedupedHoldsTheBest(risks);
    hide *;
    OrderedListsTheBest(AssetMap(assets), risks);
    ItemsOfBest(AssetMap(assets), risks, Deduped(risks), Ordered(AssetMap(assets), risks));
    PlannedIs(assets, risks);
  }

  lemma PlannedIs(assets: seq<Asset>, risks: seq<Risk>)
    ensures PlannedItems(assets, risks) == Items(AssetMap(assets), Ordered(AssetMap(assets), risks))
  {
  }

  lemma OrderedIs(m: map<string, Asset>, risks: seq<Risk>)
    ensures Deduped(risks).Valid() && Ordered(m, risks) == StableSort.Sort(Deduped(risks).Values(), NotBefore(m))
  {
    DedupedIsValid(risks);
  }

  /** Whatever the assets and risks: the three waves hold the planned items, each once; each wave is in
      non-increasing order of the ordering tuple; and the third holds nothing with a cap reason. */
  lemma WavesAreSound(assets: seq<Asset>, risks: seq<Risk>)
    ensures var items := PlannedItems(assets, risks);
            var first, second, third := In(items, FinalWave, 1), In(items, FinalWave, 2), In(items, FinalWave, 3);
            && |first| + |second| + |third| == |items| && multiset(first) + multiset(second) + multiset(third) == multiset(items)
            && NonIncreasing(first) && NonIncreasing(second) && NonIncreasing(third)
            && (forall item | item in first :: item.priority >= 65.0)
            && (forall item | item in second :: 45.0 <= item.priority < 65.0 || (item.priority < 45.0 && HasCapReason(item.reasons)))
            && (forall item | item in third :: item.priority < 45.0 && !HasCapReason(item.reasons))
  {
    var items := PlannedItems(assets, risks);
    PlannedInOrder(assets, risks);
    hide PlannedItems, HasCapReason, NonIncreasing, In;
    WavesCount(items);
    WavesPartition(items);
    InKeepsOrder(items, FinalWave, 1);
    InKeepsOrder(items, FinalWave, 2);
    InKeepsOrder(items, FinalWave, 3);
    InMembers(items, FinalWave, 1);
    InMembers(items, FinalWave, 2);
    InMembers(items, FinalWave, 3);
  }
}