/** Bin readings as both dashboards hold them, the 80/60 fill-level classification, the
    overview statistics (critical and warning counts, mean fill level, waste totals) and
    the simulated update tick. The two dashboard components repeat this code line for
    line; it is modelled once here. Fill levels, percentages and coordinates are exact
    reals: the source only compares, adds, clamps and divides them. */
module Bins {
  import opened Optional
  import opened Seqs

  datatype Location = Location(lat: real, lng: real)

  /** One bin record. `area` is present only in the newer dashboard's data; the older
      dashboard never reads it. */
  datatype Bin = Bin(
    binId: string,
    location: Location,
    metal: real,
    plastic: real,
    bio: real,
    fillLevel: real,
    timestamp: string,
    status: string,
    address: string,
    area: string)

  function FillOf(b: Bin): real { b.fillLevel }
  function MetalOf(b: Bin): real { b.metal }
  function PlasticOf(b: Bin): real { b.plastic }
  function BioOf(b: Bin): real { b.bio }
  function LatOf(b: Bin): real { b.location.lat }
  function LngOf(b: Bin): real { b.location.lng }

  // ---------------------------------------------------------------------------
  // Classification

  datatype Status = Critical | Warning | Good

  /** The threshold chain shared by `getStatusColor`, `getStatusBadge` and the status label. */
  function Classify(fill: real): (s: Status)
    ensures s == Critical <==> fill >= 80.0
    ensures s == Warning <==> 60.0 <= fill < 80.0
    ensures s == Good <==> fill < 60.0
  {
    if fill >= 80.0 then Critical
    else if fill >= 60.0 then Warning
    else Good
  }

  function ColorOf(s: Status): string
  {
    match s
    case Critical => "bg-red-500"
    case Warning => "bg-orange-500"
    case Good => "bg-green-500"
  }

  function BadgeOf(s: Status): string
  {
    match s
    case Critical => "text-red-600 bg-red-100"
    case Warning => "text-orange-600 bg-orange-100"
    case Good => "text-green-600 bg-green-100"
  }

  function LabelOf(s: Status): string
  {
    match s
    case Critical => "Critical"
    case Warning => "Warning"
    case Good => "Good"
  }

  /** `getStatusColor(fillLevel)`. */
  function StatusColor(fill: real): string { ColorOf(Classify(fill)) }

  /** `getStatusBadge(fillLevel)`. */
  function StatusBadge(fill: real): string { BadgeOf(Classify(fill)) }

  /** The "Critical" / "Warning" / "Good" label of the bin tables, cards and map popups. */
  function StatusLabel(fill: real): string { LabelOf(Classify(fill)) }

  /** The colour, the badge and the label always tell the same story: each fill level
      gets exactly one of the three, chosen by the 80/60 thresholds. */
  lemma StatusDisplaysAgree(fill: real)
    ensures StatusLabel(fill) == "Critical" <==> StatusColor(fill) == "bg-red-500"
    ensures StatusLabel(fill) == "Critical" <==> StatusBadge(fill) == "text-red-600 bg-red-100"
    ensures StatusLabel(fill) == "Critical" <==> fill >= 80.0
    ensures StatusLabel(fill) == "Warning" <==> StatusColor(fill) == "bg-orange-500"
    ensures StatusLabel(fill) == "Warning" <==> StatusBadge(fill) == "text-orange-600 bg-orange-100"
    ensures StatusLabel(fill) == "Warning" <==> 60.0 <= fill < 80.0
    ensures StatusLabel(fill) == "Good" <==> StatusColor(fill) == "bg-green-500"
    ensures StatusLabel(fill) == "Good" <==> StatusBadge(fill) == "text-green-600 bg-green-100"
    ensures StatusLabel(fill) == "Good" <==> fill < 60.0
  {
  }

  /** Raising the fill level never lowers the severity. */
  lemma ClassifyMonotone(f: real, g: real)
    requires f <= g
    ensures Classify(f) == Critical ==> Classify(g) == Critical
    ensures Classify(g) == Good ==> Classify(f) == Good
  {
  }

  // ---------------------------------------------------------------------------
  // Statistics

  predicate IsCritical(b: Bin) { b.fillLevel >= 80.0 }
  predicate IsWarning(b: Bin) { b.fillLevel >= 60.0 && b.fillLevel < 80.0 }
  predicate IsGood(b: Bin) { b.fillLevel < 60.0 }

  /** `bins.filter((b) => b.fill_level >= 80).length`. */
  function CriticalCount(bins: seq<Bin>): nat { |Filter(bins, IsCritical)| }

  /** `bins.filter((b) => b.fill_level >= 60 && b.fill_level < 80).length`. */
  function WarningCount(bins: seq<Bin>): nat { |Filter(bins, IsWarning)| }

  function GoodCount(bins: seq<Bin>): nat { |Filter(bins, IsGood)| }

  /** Every bin is counted in exactly one of the critical, warning and good counts, so the
      critical and warning counts are disjoint and together at most `totalBins`. */
  lemma {:induction false} CountsPartition(bins: seq<Bin>)
    ensures CriticalCount(bins) + WarningCount(bins) + GoodCount(bins) == |bins|
    ensures CriticalCount(bins) + WarningCount(bins) <= |bins|
    ensures forall b :: b in Filter(bins, IsCritical) ==> b !in Filter(bins, IsWarning)
  {
    if bins != [] {
      CountsPartition(bins[..|bins| - 1]);
    }
    forall b | b in Filter(bins, IsCritical) ensures b !in Filter(bins, IsWarning) {
      FilterMembership(bins, IsCritical, b);
      FilterMembership(bins, IsWarning, b);
    }
  }

  /** `bins.reduce((sum, b) => sum + f(b), 0) / bins.length`: `NaN` (here `None`) when
      there are no bins. */
  function Mean(bins: seq<Bin>, f: Bin -> real): (r: Option<real>)
    ensures r.None? <==> bins == []
    ensures r.Some? ==> r.value * (|bins| as real) == Sum(bins, f)
  {
    if bins == [] then None else Some(Sum(bins, f) / (|bins| as real))
  }

  /** The overview's average fill level. */
  function AverageFill(bins: seq<Bin>): Option<real> { Mean(bins, FillOf) }

  /** Fill levels in [lo, hi] sum to a value between |s| * lo and |s| * hi. */
  lemma {:induction false} SumFillBounded(bins: seq<Bin>, lo: real, hi: real)
    requires forall i :: 0 <= i < |bins| ==> lo <= bins[i].fillLevel <= hi
    ensures (|bins| as real) * lo <= Sum(bins, FillOf) <= (|bins| as real) * hi
  {
    if bins != [] {
      SumFillBounded(bins[..|bins| - 1], lo, hi);
    }
  }

  /** The average of percentages is a percentage. */
  lemma AverageFillBounded(bins: seq<Bin>)
    requires bins != []
    requires forall i :: 0 <= i < |bins| ==> 0.0 <= bins[i].fillLevel <= 100.0
    ensures AverageFill(bins).Some?
    ensures 0.0 <= AverageFill(bins).value <= 100.0
  {
    SumFillBounded(bins, 0.0, 100.0);
  }

  /** The three slices of the waste-type pie chart. */
  datatype WasteTotals = WasteTotals(metal: real, plastic: real, bio: real)

  /** `bins.reduce((sum, b) => sum + b.metal, 0)` and likewise for plastic and bio. */
  function Totals(bins: seq<Bin>): WasteTotals
  {
    WasteTotals(Sum(bins, MetalOf), Sum(bins, PlasticOf), Sum(bins, BioOf))
  }

  function ComponentsOf(b: Bin): real { b.metal + b.plastic + b.bio }

  /** The three totals together are the sum of every bin's own three components; nothing
      makes a bin's components add up to 100. */
  lemma {:induction false} TotalsSplit(bins: seq<Bin>)
    ensures Totals(bins).metal + Totals(bins).plastic + Totals(bins).bio
         == Sum(bins, ComponentsOf)
  {
    if bins != [] {
      TotalsSplit(bins[..|bins| - 1]);
    }
  }

  /** Each total grows by exactly the added bin's component. */
  lemma TotalsAppend(bins: seq<Bin>, b: Bin)
    ensures Totals(bins + [b])
         == WasteTotals(Totals(bins).metal + b.metal,
                        Totals(bins).plastic + b.plastic,
                        Totals(bins).bio + b.bio)
  {
    assert (bins + [b])[..|bins|] == bins;
  }

  // ---------------------------------------------------------------------------
  // The simulated update tick

  /** One bin's update in the tick: `{...bin, fill_level: Math.min(100, bin.fill_level + d),
      timestamp: now}`, with `d = Math.random() * 2`. */
  function TickBin(b: Bin, d: real, now: string): (r: Bin)
    requires 0.0 <= d < 2.0
    ensures r.fillLevel <= 100.0
    ensures r.fillLevel <= b.fillLevel + d
    ensures r.fillLevel == 100.0 || r.fillLevel == b.fillLevel + d
    ensures b.fillLevel <= 100.0 ==> b.fillLevel <= r.fillLevel
    ensures r == b.(fillLevel := r.fillLevel, timestamp := now)
  {
    b.(fillLevel := if 100.0 <= b.fillLevel + d then 100.0 else b.fillLevel + d,
       timestamp := now)
  }

  /** What one firing of the interval needs: a random increment and a clock reading for
      every bin (`Math.random()` and `new Date()` are called once per bin). */
  datatype TickInput = TickInput(deltas: seq<real>, stamps: seq<string>)

  predicate Fits(input: TickInput, n: nat)
  {
    && |input.deltas| == n
    && |input.stamps| == n
    && forall i :: 0 <= i < n ==> 0.0 <= input.deltas[i] < 2.0
  }

  /** `prevBins.map(...)`: every bin ticked, the list's length and order kept. */
  function Tick(bins: seq<Bin>, input: TickInput): (r: seq<Bin>)
    requires Fits(input, |bins|)
    ensures |r| == |bins|
    ensures forall i :: 0 <= i < |bins| ==>
      r[i] == bins[i].(fillLevel := r[i].fillLevel, timestamp := input.stamps[i])
    ensures forall i :: 0 <= i < |bins| ==> r[i].fillLevel <= 100.0
    ensures forall i :: 0 <= i < |bins| ==> r[i].fillLevel <= bins[i].fillLevel + input.deltas[i]
    ensures forall i :: 0 <= i < |bins| ==>
      r[i].fillLevel == 100.0 || r[i].fillLevel == bins[i].fillLevel + input.deltas[i]
    ensures forall i :: 0 <= i < |bins| && bins[i].fillLevel <= 100.0 ==>
      bins[i].fillLevel <= r[i].fillLevel
  {
    seq(|bins|, i requires 0 <= i < |bins| => TickBin(bins[i], input.deltas[i], input.stamps[i]))
  }

  predicate AllFit(rounds: seq<TickInput>, n: nat)
  {
    forall k :: 0 <= k < |rounds| ==> Fits(rounds[k], n)
  }

  /** Several firings of the interval, in order. */
  function Ticks(bins: seq<Bin>, rounds: seq<TickInput>): (r: seq<Bin>)
    requires AllFit(rounds, |bins|)
    ensures |r| == |bins|
    decreases |rounds|
  {
    if rounds == [] then bins else Ticks(Tick(bins, rounds[0]), rounds[1..])
  }

  /** After any number of ticks every bin keeps its identity, no fill level that started
      at most 100 has gone down, and none exceeds 100. */
  lemma {:induction false} TicksMonotoneBounded(bins: seq<Bin>, rounds: seq<TickInput>)
    requires AllFit(rounds, |bins|)
    ensures forall i :: 0 <= i < |bins| ==>
      Ticks(bins, rounds)[i].binId == bins[i].binId &&
      Ticks(bins, rounds)[i].area == bins[i].area &&
      Ticks(bins, rounds)[i].location == bins[i].location
    ensures forall i :: 0 <= i < |bins| && bins[i].fillLevel <= 100.0 ==>
      bins[i].fillLevel <= Ticks(bins, rounds)[i].fillLevel <= 100.0
    decreases |rounds|
  {
    if rounds != [] {
      var next := Tick(bins, rounds[0]);
      TicksMonotoneBounded(next, rounds[1..]);
    }
  }
}
