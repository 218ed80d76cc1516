/** `getAreaAlerts`: the area-level alert list of the newer dashboard. One pass groups the
    bins by `area` into a dictionary of running accumulators; then every accumulator
    gets its mean fill level and the mean of its bins' coordinates, the areas whose mean
    is at least 60 are kept, and those are sorted by mean, highest first.

    The dictionary is a JavaScript object: its values come out in the order in which
    their keys were first inserted, so it is modelled as that key order plus a map. */
module AreaAlerts {
  import opened Optional
  import opened Seqs
  import opened StableSort
  import opened Bins

  /** The running accumulator kept for one area: `{area, bins, totalFillLevel, binCount}`. */
  datatype AreaAccumulator = AreaAccumulator(
    area: string,
    bins: seq<Bin>,
    totalFillLevel: real,
    binCount: nat)

  /** An entry of the result: the accumulator with its mean fill level and centre. */
  datatype AreaSummary = AreaSummary(
    area: string,
    bins: seq<Bin>,
    totalFillLevel: real,
    binCount: nat,
    avgFillLevel: real,
    centerLocation: Location)

  function AvgOf(s: AreaSummary): real { s.avgFillLevel }

  /** The filter of `getAreaAlerts`: mean fill level at least 60. */
  predicate IsAlerting(s: AreaSummary) { s.avgFillLevel >= 60.0 }

  // ---------------------------------------------------------------------------
  // The grouping, defined directly

  /** The distinct areas of `bins`, in the order in which each first occurs. */
  function AreasOf(bins: seq<Bin>): seq<string>
  {
    if bins == [] then []
    else
      var p := AreasOf(bins[..|bins| - 1]);
      var a := bins[|bins| - 1].area;
      if a in p then p else p + [a]
  }

  /** No area is listed twice. */
  lemma {:induction false} AreasOfDistinct(bins: seq<Bin>)
    ensures Distinct(AreasOf(bins))
  {
    if bins != [] {
      AreasOfDistinct(bins[..|bins| - 1]);
    }
  }

  /** An area is listed exactly when some bin has it. */
  lemma {:induction false} AreasOfMember(bins: seq<Bin>, a: string)
    ensures a in AreasOf(bins) <==> exists b :: b in bins && b.area == a
  {
    if bins != [] {
      var prefix := bins[..|bins| - 1];
      AreasOfMember(prefix, a);
      assert bins == prefix + [bins[|bins| - 1]];
    }
  }

  /** The bins of area `a`, in input order. */
  function InArea(bins: seq<Bin>, a: string): (r: seq<Bin>)
    ensures |r| <= |bins|
    ensures forall b :: b in r ==> b in bins && b.area == a
  {
    if bins == [] then []
    else
      var last := bins[|bins| - 1];
      InArea(bins[..|bins| - 1], a) + (if last.area == a then [last] else [])
  }

  /** The accumulator of area `a` once the `forEach` has seen `bins`: it starts empty and
      every bin of the area is added to it in turn. */
  function Group(bins: seq<Bin>, a: string): AreaAccumulator
  {
    if bins == [] then AreaAccumulator(a, [], 0.0, 0)
    else
      var g := Group(bins[..|bins| - 1], a);
      var last := bins[|bins| - 1];
      if last.area == a then Add(g, last) else g
  }

  lemma {:induction false} InAreaMember(bins: seq<Bin>, a: string, b: Bin)
    ensures b in InArea(bins, a) <==> b in bins && b.area == a
  {
    if bins != [] {
      var prefix := bins[..|bins| - 1];
      InAreaMember(prefix, a, b);
      assert bins == prefix + [bins[|bins| - 1]];
    }
  }

  /** The accumulator after one more bin of its area: `bins.push(bin)`,
      `totalFillLevel += bin.fill_level`, `binCount += 1`. */
  function Add(acc: AreaAccumulator, bin: Bin): AreaAccumulator
  {
    acc.(bins := acc.bins + [bin],
         totalFillLevel := acc.totalFillLevel + bin.fillLevel,
         binCount := acc.binCount + 1)
  }

  /** Seeing one more bin extends exactly its own area's accumulator. */
  lemma GroupStep(seen: seq<Bin>, bin: Bin, a: string)
    ensures Group(seen + [bin], a)
         == if bin.area == a then Add(Group(seen, a), bin) else Group(seen, a)
  {
    assert (seen + [bin])[..|seen|] == seen;
  }

  /** The accumulator holds exactly the area's bins in input order, their total fill
      level and their number. */
  lemma {:induction false} GroupIsInArea(bins: seq<Bin>, a: string)
    ensures Group(bins, a)
         == AreaAccumulator(a, InArea(bins, a), Sum(InArea(bins, a), FillOf), |InArea(bins, a)|)
  {
    GroupBinsInArea(bins, a);
    GroupTotalInArea(bins, a);
  }

  /** The accumulator's area, bin list and count. */
  lemma {:induction false} GroupBinsInArea(bins: seq<Bin>, a: string)
    ensures Group(bins, a).area == a
    ensures Group(bins, a).bins == InArea(bins, a)
    ensures Group(bins, a).binCount == |InArea(bins, a)|
  {
    if bins != [] {
      GroupBinsInArea(bins[..|bins| - 1], a);
    }
  }

  /** The accumulator's total is the sum over the area's bins. */
  lemma {:induction false} GroupTotalInArea(bins: seq<Bin>, a: string)
    ensures Group(bins, a).totalFillLevel == Sum(InArea(bins, a), FillOf)
  {
    if bins != [] {
      var prefix := bins[..|bins| - 1];
      var last := bins[|bins| - 1];
      GroupTotalInArea(prefix, a);
      var g := InArea(prefix, a);
      if last.area == a {
        var h := g + [last];
        assert InArea(bins, a) == h;
        assert Sum(h, FillOf) == Sum(g, FillOf) + FillOf(last) by {
          assert h[..|g|] == g;
        }
        assert Group(bins, a) == Add(Group(prefix, a), last);
      } else {
        assert InArea(bins, a) == g;
        assert Group(bins, a) == Group(prefix, a);
      }
    }
  }

  /** Seeing one more bin appends its area to the key order if it is new. */
  lemma AreasStep(seen: seq<Bin>, bin: Bin)
    ensures AreasOf(seen + [bin])
         == if bin.area in AreasOf(seen) then AreasOf(seen) else AreasOf(seen) + [bin.area]
  {
    assert (seen + [bin])[..|seen|] == seen;
  }

  /** An area that occurs has at least one bin, so its mean is well defined. */
  lemma AreaNonEmpty(bins: seq<Bin>, a: string)
    requires a in AreasOf(bins)
    ensures |InArea(bins, a)| >= 1
    ensures Group(bins, a).binCount >= 1
  {
    GroupIsInArea(bins, a);
    AreasOfMember(bins, a);
    var b :| b in bins && b.area == a;
    InAreaMember(bins, a, b);
  }

  /** An area that does not occur has no bins. */
  lemma AreaAbsentEmpty(bins: seq<Bin>, a: string)
    requires a !in AreasOf(bins)
    ensures InArea(bins, a) == []
    ensures Group(bins, a) == AreaAccumulator(a, [], 0.0, 0)
  {
    AreasOfMember(bins, a);
    if InArea(bins, a) != [] {
      InAreaMember(bins, a, InArea(bins, a)[0]);
    }
    GroupIsInArea(bins, a);
  }

  /** The number of bins over the groups of `areas`. */
  function CountOver(bins: seq<Bin>, areas: seq<string>): nat
  {
    if areas == [] then 0
    else CountOver(bins, areas[..|areas| - 1]) + |InArea(bins, areas[|areas| - 1])|
  }

  /** Adding one bin adds one to exactly the group of its own area. */
  lemma {:induction false} CountOverAppend(bins: seq<Bin>, b: Bin, areas: seq<string>)
    requires Distinct(areas)
    ensures CountOver(bins + [b], areas)
         == CountOver(bins, areas) + (if b.area in areas then 1 else 0)
  {
    if areas != [] {
      var init := areas[..|areas| - 1];
      assert (bins + [b])[..|bins|] == bins;
      CountOverAppend(bins, b, init);
      assert areas == init + [areas[|areas| - 1]];
    }
  }

  /** The one bin of an area that was new when it was seen. */
  lemma NewAreaGroup(seen: seq<Bin>, b: Bin)
    requires b.area !in AreasOf(seen)
    ensures InArea(seen + [b], b.area) == [b]
  {
    AreaAbsentEmpty(seen, b.area);
    assert (seen + [b])[..|seen|] == seen;
  }

  /** The count over one more area adds that area's group. */
  lemma CountOverSnoc(bins: seq<Bin>, areas: seq<string>, a: string)
    ensures CountOver(bins, areas + [a]) == CountOver(bins, areas) + |InArea(bins, a)|
  {
    assert (areas + [a])[..|areas|] == areas;
  }

  /** The groups partition the input: their sizes add up to the number of bins. */
  lemma {:induction false} GroupsPartition(bins: seq<Bin>)
    ensures CountOver(bins, AreasOf(bins)) == |bins|
  {
    if bins != [] {
      var prefix := bins[..|bins| - 1];
      var b := bins[|bins| - 1];
      var areas := AreasOf(prefix);
      assert bins == prefix + [b];
      GroupsPartition(prefix);
      AreasOfDistinct(prefix);
      AreasStep(prefix, b);
      CountOverAppend(prefix, b, areas);
      if b.area !in areas {
        NewAreaGroup(prefix, b);
        CountOverSnoc(bins, areas, b.area);
      }
    }
  }

  // ---------------------------------------------------------------------------
  // Means, filter and sort

  /** `{...areaData, avgFillLevel: total / binCount, centerLocation: {mean lat, mean lng}}`. */
  function Summarize(g: AreaAccumulator): AreaSummary
    requires g.binCount >= 1
  {
    var n := g.binCount as real;
    AreaSummary(g.area, g.bins, g.totalFillLevel, g.binCount,
                g.totalFillLevel / n,
                Location(Sum(g.bins, LatOf) / n, Sum(g.bins, LngOf) / n))
  }

  /** One summary per area, in first-encounter order. */
  function AllSummaries(bins: seq<Bin>): (r: seq<AreaSummary>)
    ensures |r| == |AreasOf(bins)|
  {
    var areas := AreasOf(bins);
    seq(|areas|, j requires 0 <= j < |areas| =>
      AreaNonEmpty(bins, areas[j]);
      Summarize(Group(bins, areas[j])))
  }

  /** The value of `getAreaAlerts()` for the bins `bins`. */
  function AreaAlertsOf(bins: seq<Bin>): seq<AreaSummary>
  {
    SortDesc(Filter(AllSummaries(bins), IsAlerting), AvgOf)
  }

  /** The mean fill level of area `a`, by the dashboard's own averaging, is at least 60. */
  predicate AreaNeedsCollection(bins: seq<Bin>, a: string)
  {
    var mean := AverageFill(InArea(bins, a));
    mean.Some? && mean.value >= 60.0
  }

  /** An alert is one of the area summaries, and passed the filter. */
  lemma AlertIsAlertingSummary(bins: seq<Bin>, s: AreaSummary)
    requires s in AreaAlertsOf(bins)
    ensures s in AllSummaries(bins) && IsAlerting(s)
  {
    var kept := Filter(AllSummaries(bins), IsAlerting);
    assert s in multiset(SortDesc(kept, AvgOf));
    FilterMembership(AllSummaries(bins), IsAlerting, s);
  }

  lemma SummaryOfArea(bins: seq<Bin>, s: AreaSummary)
    requires s in AllSummaries(bins)
    ensures s.area in AreasOf(bins)
    ensures InArea(bins, s.area) != []
    ensures Group(bins, s.area).binCount >= 1
    ensures s == Summarize(Group(bins, s.area))
  {
    var j :| 0 <= j < |AllSummaries(bins)| && AllSummaries(bins)[j] == s;
    AreaNonEmpty(bins, AreasOf(bins)[j]);
    GroupIsInArea(bins, AreasOf(bins)[j]);
  }

  lemma AllSummariesDistinct(bins: seq<Bin>)
    ensures Distinct(AllSummaries(bins))
  {
    AreasOfDistinct(bins);
    var all := AllSummaries(bins);
    forall i, j | 0 <= i < j < |all| ensures all[i] != all[j] {
      GroupIsInArea(bins, AreasOf(bins)[i]);
      GroupIsInArea(bins, AreasOf(bins)[j]);
    }
  }

  /** Every alert belongs to an area that occurs, holds exactly that area's bins in input
      order, has a non-zero bin count, and carries their mean fill level (at least 60)
      and the mean of their coordinates. */
  lemma AlertsAreAreaMeans(bins: seq<Bin>, s: AreaSummary)
    requires s in AreaAlertsOf(bins)
    ensures s.area in AreasOf(bins)
    ensures s.bins == InArea(bins, s.area) && s.binCount == |s.bins| >= 1
    ensures s.totalFillLevel == Sum(s.bins, FillOf)
    ensures AverageFill(s.bins) == Some(s.avgFillLevel)
    ensures s.avgFillLevel >= 60.0
    ensures Mean(s.bins, LatOf) == Some(s.centerLocation.lat)
    ensures Mean(s.bins, LngOf) == Some(s.centerLocation.lng)
  {
    AlertIsAlertingSummary(bins, s);
    SummaryOfArea(bins, s);
    SummaryFacts(bins, s.area);
  }

  /** The summary of an area that has bins. */
  lemma SummaryFacts(bins: seq<Bin>, a: string)
    requires InArea(bins, a) != []
    ensures Group(bins, a).binCount >= 1
    ensures var s := Summarize(Group(bins, a));
      && s.area == a
      && s.bins == InArea(bins, a) && s.binCount == |s.bins| >= 1
      && s.totalFillLevel == Sum(s.bins, FillOf)
      && AverageFill(s.bins) == Some(s.avgFillLevel)
      && Mean(s.bins, LatOf) == Some(s.centerLocation.lat)
      && Mean(s.bins, LngOf) == Some(s.centerLocation.lng)
  {
    GroupIsInArea(bins, a);
  }

  /** Completeness: an area is in the alerts exactly when it occurs in the input and its
      mean fill level is at least 60. */
  lemma AlertsComplete(bins: seq<Bin>, a: string)
    ensures (exists s :: s in AreaAlertsOf(bins) && s.area == a)
        <==> a in AreasOf(bins) && AreaNeedsCollection(bins, a)
  {
    var all := AllSummaries(bins);
    var kept := Filter(all, IsAlerting);
    if exists s :: s in AreaAlertsOf(bins) && s.area == a {
      var s :| s in AreaAlertsOf(bins) && s.area == a;
      AlertsAreAreaMeans(bins, s);
    }
    if a in AreasOf(bins) && AreaNeedsCollection(bins, a) {
      AlertedArea(bins, a);
    }
  }

  /** An occurring area whose mean is at least 60 has its summary among the alerts. */
  lemma AlertedArea(bins: seq<Bin>, a: string)
    requires a in AreasOf(bins) && AreaNeedsCollection(bins, a)
    ensures exists s :: s in AreaAlertsOf(bins) && s.area == a
  {
    var all := AllSummaries(bins);
    var j :| 0 <= j < |AreasOf(bins)| && AreasOf(bins)[j] == a;
    var s := all[j];
    AreaNonEmpty(bins, a);
    SummaryFacts(bins, a);
    assert s == Summarize(Group(bins, a));
    FilterMembership(all, IsAlerting, s);
    assert s in multiset(AreaAlertsOf(bins));
  }

  /** The alerts are sorted by mean fill level, highest first; among equal means the
      areas keep their first-encounter order (the sort is stable); and no area appears
      twice. */
  lemma AlertsOrdered(bins: seq<Bin>)
    ensures SortedDesc(AreaAlertsOf(bins), AvgOf)
    ensures forall v :: WithKey(AreaAlertsOf(bins), AvgOf, v)
                     == WithKey(Filter(AllSummaries(bins), IsAlerting), AvgOf, v)
    ensures forall i, j :: 0 <= i < j < |AreaAlertsOf(bins)| ==>
      AreaAlertsOf(bins)[i].area != AreaAlertsOf(bins)[j].area
  {
    var kept := Filter(AllSummaries(bins), IsAlerting);
    forall v ensures WithKey(AreaAlertsOf(bins), AvgOf, v) == WithKey(kept, AvgOf, v) {
      SortStable(kept, AvgOf, v);
    }
    AllSummariesDistinct(bins);
    FilterDistinct(AllSummaries(bins), IsAlerting);
    SortDistinct(kept, AvgOf);
    var r := AreaAlertsOf(bins);
    forall i, j | 0 <= i < j < |r| ensures r[i].area != r[j].area {
      AlertsAreAreaMeans(bins, r[i]);
      AlertsAreAreaMeans(bins, r[j]);
    }
  }

  /** With every bin below 60 there is nothing to dispatch. */
  lemma NoAlertsWhenAllBelow60(bins: seq<Bin>)
    requires forall i :: 0 <= i < |bins| ==> bins[i].fillLevel < 60.0
    ensures AreaAlertsOf(bins) == []
  {
    if AreaAlertsOf(bins) != [] {
      var s := AreaAlertsOf(bins)[0];
      AlertsAreAreaMeans(bins, s);
      forall k | 0 <= k < |s.bins| ensures s.bins[k].fillLevel < 60.0 {
        InAreaMember(bins, s.area, s.bins[k]);
      }
      MeanBelow(s.bins, 60.0);
    }
  }

  /** Values all below `hi` have a mean below `hi`. */
  lemma MeanBelow(s: seq<Bin>, hi: real)
    requires s != []
    requires forall k :: 0 <= k < |s| ==> s[k].fillLevel < hi
    ensures AverageFill(s).value < hi
  {
    SumBelow(s, hi);
  }

  /** Values all below `hi` sum to less than |s| * hi when there is at least one. */
  lemma {:induction false} SumBelow(s: seq<Bin>, hi: real)
    requires s != []
    requires forall k :: 0 <= k < |s| ==> s[k].fillLevel < hi
    ensures Sum(s, FillOf) < (|s| as real) * hi
  {
    var prefix := s[..|s| - 1];
    if prefix != [] {
      SumBelow(prefix, hi);
    }
  }

  // ---------------------------------------------------------------------------
  // The code as it runs

  /** The finished dictionary: each area that occurs, mapped to its group. */
  function GroupMap(bins: seq<Bin>): (m: map<string, AreaAccumulator>)
    ensures forall a :: a in m <==> a in AreasOf(bins)
  {
    map a | a in AreasOf(bins) :: Group(bins, a)
  }

  /** One iteration of the `forEach`: create the accumulator if the area is new, then
      add the bin to it. */
  function AddToMap(m: map<string, AreaAccumulator>, bin: Bin): map<string, AreaAccumulator>
  {
    var created := if bin.area in m then m else m[bin.area := AreaAccumulator(bin.area, [], 0.0, 0)];
    created[bin.area := Add(created[bin.area], bin)]
  }

  /** One iteration of the `forEach` turns the dictionary of the bins seen so far into the
      dictionary of one more bin. */
  lemma GroupMapStep(seen: seq<Bin>, bin: Bin)
    ensures GroupMap(seen + [bin]) == AddToMap(GroupMap(seen), bin)
  {
    AreasStep(seen, bin);
    var m := GroupMap(seen);
    if bin.area !in AreasOf(seen) {
      AreaAbsentEmpty(seen, bin.area);
    }
    var m' := AddToMap(m, bin);
    assert m'[bin.area] == Add(Group(seen, bin.area), bin);
    var after := GroupMap(seen + [bin]);
    assert m'.Keys == after.Keys;
    forall a | a in m' ensures m'[a] == after[a] {
      GroupStep(seen, bin, a);
    }
  }

  /** The `forEach` pass of `getAreaAlerts`: builds the dictionary of accumulators.
      `keys` is the dictionary's key order, `areaMap` its contents. */
  method GroupByArea(bins: seq<Bin>) returns (keys: seq<string>, areaMap: map<string, AreaAccumulator>)
    ensures keys == AreasOf(bins)
    ensures areaMap == GroupMap(bins)
  {
    keys, areaMap := [], map[];
    var i := 0;
    while i < |bins|
      invariant 0 <= i <= |bins|
      invariant keys == AreasOf(bins[..i])
      invariant areaMap == GroupMap(bins[..i])
    {
      var bin := bins[i];
      ghost var seen := bins[..i];
      ghost var before := areaMap;
      assert bins[..i + 1] == seen + [bin];
      AreasStep(seen, bin);
      GroupMapStep(seen, bin);
      if bin.area !in areaMap {
        areaMap := areaMap[bin.area := AreaAccumulator(bin.area, [], 0.0, 0)];
        keys := keys + [bin.area];
      }
      var acc := areaMap[bin.area];
      areaMap := areaMap[bin.area := acc.(bins := acc.bins + [bin],
                                          totalFillLevel := acc.totalFillLevel + bin.fillLevel,
                                          binCount := acc.binCount + 1)];
      assert areaMap == AddToMap(before, bin);
      i := i + 1;
    }
    assert bins[..i] == bins;
  }

  /** `getAreaAlerts()`. */
  method GetAreaAlerts(bins: seq<Bin>) returns (alerts: seq<AreaSummary>)
    ensures alerts == AreaAlertsOf(bins)
  {
    var keys, areaMap := GroupByArea(bins);
    forall k | 0 <= k < |keys| ensures areaMap[keys[k]].binCount >= 1 {
      AreaNonEmpty(bins, keys[k]);
    }
    var areas := seq(|keys|, j requires 0 <= j < |keys| => Summarize(areaMap[keys[j]]));
    assert areas == AllSummaries(bins);
    alerts := SortDesc(Filter(areas, IsAlerting), AvgOf);
  }

  /** The summary of two readings in one area, 90 and 70: mean 80 over two bins, centred
      halfway between them. */
  lemma TwoBinsSummary(b1: Bin, b2: Bin)
    requires b1.area == b2.area
    requires b1.fillLevel == 90.0 && b2.fillLevel == 70.0
    ensures AllSummaries([b1, b2])
         == [AreaSummary(b1.area, [b1, b2], 160.0, 2, 80.0,
                         Location((b1.location.lat + b2.location.lat) / 2.0,
                                  (b1.location.lng + b2.location.lng) / 2.0))]
  {
    var bins := [b1, b2];
    var a := b1.area;
    assert bins[..1] == [b1] && [b1][..0] == [];
    assert AreasOf([b1]) == [a];
    assert AreasOf(bins) == [a];
    assert Group([b1], a) == AreaAccumulator(a, [b1], 90.0, 1);
    assert Group(bins, a) == AreaAccumulator(a, [b1, b2], 160.0, 2);
    assert Sum([b1], LatOf) == b1.location.lat;
    assert Sum([b1], LngOf) == b1.location.lng;
    assert Sum(bins, LatOf) == b1.location.lat + b2.location.lat;
    assert Sum(bins, LngOf) == b1.location.lng + b2.location.lng;
  }

  /** The example of two readings in one area: 90 and 70 give one alert, with mean 80
      over two bins. */
  lemma TwoBinsOneArea(b1: Bin, b2: Bin)
    requires b1.area == b2.area
    requires b1.fillLevel == 90.0 && b2.fillLevel == 70.0
    ensures |AreaAlertsOf([b1, b2])| == 1
    ensures AreaAlertsOf([b1, b2])[0].area == b1.area
    ensures AreaAlertsOf([b1, b2])[0].avgFillLevel == 80.0
    ensures AreaAlertsOf([b1, b2])[0].binCount == 2
  {
    TwoBinsSummary(b1, b2);
    var s := AllSummaries([b1, b2])[0];
    assert Filter([s], IsAlerting) == [s] by {
      assert [s][..0] == [];
    }
    assert SortDesc([s], AvgOf) == [s];
  }
}
