/**
 * The order in which the watch lists the enabled complications: Settings
 * first, All Meds second, then the rest by their fixed rank.
 */
module ComplicationOrder {
  import opened Lists
  import opened WatchSettings

  /** The rank `getEnabledComplications` sorts by. */
  function Rank(f: ComplicationFeature): (r: nat)
    ensures r < 7
    ensures r == 0 <==> f == Settings
    ensures r == 1 <==> f == AllMeds
  {
    match f
    case Settings => 0
    case AllMeds => 1
    case History => 2
    case Maintenance => 3
    case Emergency => 4
    case Vitals => 5
    case Upcoming => 6
  }

  function RankKey(f: ComplicationFeature): int {
    Rank(f)
  }

  lemma OrderIsRanked()
    ensures IncreasingBy(FeatureOrder, RankKey)
    ensures forall f :: f in FeatureOrder
  {
    assert forall i :: 0 <= i < |FeatureOrder| ==> RankKey(FeatureOrder[i]) == i;
    forall f
      ensures f in FeatureOrder
    {
      assert FeatureOrder[Rank(f)] == f;
    }
  }

  /** Keeping the enabled features of a ranked list that holds every feature. */
  lemma RankedSelection(order: seq<ComplicationFeature>, enabled: set<ComplicationFeature>, p: ComplicationFeature -> bool)
    requires IncreasingBy(order, RankKey) && forall f :: f in order
    requires forall f :: p(f) <==> f in enabled
    ensures forall f :: f in Filter(order, p) <==> f in enabled
    ensures IncreasingBy(Filter(order, p), RankKey)
    ensures |Filter(order, p)| == |enabled|
  {
    var r := Filter(order, p);
    FilterKeepsIncreasing(order, RankKey, p);
    FilterOfEverything(order, p);
    IncreasingCardinality(r, RankKey);
    assert (set x | x in r) == enabled;
  }

  /** `enabledComplications.sortedBy(rank)`: each feature of the set once, in rank order. */
  function EnabledInOrder(enabled: set<ComplicationFeature>): (r: seq<ComplicationFeature>)
    ensures forall f :: f in r <==> f in enabled
    ensures IncreasingBy(r, RankKey)
    ensures |r| == |enabled|
  {
    var p := f => f in enabled;
    OrderIsRanked();
    RankedSelection(FeatureOrder, enabled, p);
    Filter(FeatureOrder, p)
  }

  /** Settings leads whenever it is enabled, and All Meds follows it. */
  lemma SettingsThenAllMeds(enabled: set<ComplicationFeature>)
    ensures Settings in enabled ==> EnabledInOrder(enabled)[0] == Settings
    ensures Settings in enabled && AllMeds in enabled ==> EnabledInOrder(enabled)[1] == AllMeds
    ensures Settings !in enabled && AllMeds in enabled ==> EnabledInOrder(enabled)[0] == AllMeds
  {
    var r := EnabledInOrder(enabled);
    if r != [] {
      HeadKeyFirst(r, RankKey);
    }
  }

  /** A set holding both always-enabled features lists them first. */
  lemma LeadsWithAlwaysEnabled(enabled: set<ComplicationFeature>)
    requires AlwaysEnabled <= enabled
    ensures EnabledInOrder(enabled)[..2] == [Settings, AllMeds]
  {
    assert Settings in enabled && AllMeds in enabled;
    SettingsThenAllMeds(enabled);
  }

  /** Whatever the repository writes lists Settings and All Meds first. */
  lemma WrittenSetsLeadWithAlwaysEnabled(current: set<ComplicationFeature>, f: ComplicationFeature, enabled: bool)
    ensures EnabledInOrder(ToggledSet(current, f, enabled))[..2] == [Settings, AllMeds]
    ensures EnabledInOrder(current + AlwaysEnabled)[..2] == [Settings, AllMeds]
  {
    LeadsWithAlwaysEnabled(ToggledSet(current, f, enabled));
    LeadsWithAlwaysEnabled(current + AlwaysEnabled);
  }
}
