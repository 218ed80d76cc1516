/** The older dashboard: the same bins without areas, the same statistics and tick, and a
    per-bin alert list (every bin at 60 or more, fullest first), an "All Clear" panel and
    a sidebar badge counting the critical bins. */
module BinDashboard {
  import opened Optional
  import opened Seqs
  import opened StableSort
  import opened Bins

  /** `generateDummyBins()` of the older dashboard: five bins. These records carry no
      area, which is modelled as the empty string. */
  const GeneratedBins: seq<Bin> := [
    Bin("CHT001", Location(27.678, 84.432), 35.0, 55.0, 20.0, 75.0, "2025-11-06T10:20:00Z", "warning", "Pokhara City Center", ""),
    Bin("CHT002", Location(27.685, 84.425), 45.0, 30.0, 25.0, 92.0, "2025-11-06T10:18:00Z", "critical", "Mahendrapul Area", ""),
    Bin("CHT003", Location(27.672, 84.44), 20.0, 40.0, 40.0, 45.0, "2025-11-06T10:22:00Z", "good", "Lakeside Road", ""),
    Bin("CHT004", Location(27.69, 84.435), 30.0, 45.0, 25.0, 68.0, "2025-11-06T10:19:00Z", "warning", "Prithvi Chowk", ""),
    Bin("CHT005", Location(27.665, 84.428), 15.0, 35.0, 50.0, 30.0, "2025-11-06T10:21:00Z", "good", "Birauta", "")
  ]

  /** The alert filter: `bin.fill_level >= 60`. */
  predicate NeedsCollection(b: Bin) { b.fillLevel >= 60.0 }

  /** The alerts view's list: `bins.filter(...).sort((a, b) => b.fill_level - a.fill_level)`. */
  function BinAlerts(bins: seq<Bin>): (r: seq<Bin>)
    ensures |r| <= |bins|
  {
    SortDesc(Filter(bins, NeedsCollection), FillOf)
  }

  /** The alert list holds exactly the bins at 60 or more, each as often as in the input,
      fullest first, and bins of equal fill level in input order. */
  lemma BinAlertsCorrect(bins: seq<Bin>)
    ensures forall b :: multiset(BinAlerts(bins))[b]
                     == if b.fillLevel >= 60.0 then multiset(bins)[b] else 0
    ensures forall b :: b in BinAlerts(bins) <==> b in bins && b.fillLevel >= 60.0
    ensures SortedDesc(BinAlerts(bins), FillOf)
    ensures forall v :: WithKey(BinAlerts(bins), FillOf, v)
                     == WithKey(Filter(bins, NeedsCollection), FillOf, v)
  {
    var kept := Filter(bins, NeedsCollection);
    forall b ensures multiset(BinAlerts(bins))[b]
                  == if b.fillLevel >= 60.0 then multiset(bins)[b] else 0 {
      FilterMultiset(bins, NeedsCollection, b);
    }
    forall b ensures b in BinAlerts(bins) <==> b in bins && b.fillLevel >= 60.0 {
      FilterMultiset(bins, NeedsCollection, b);
      assert b in BinAlerts(bins) <==> b in multiset(BinAlerts(bins));
    }
    forall v ensures WithKey(BinAlerts(bins), FillOf, v) == WithKey(kept, FillOf, v) {
      SortStable(kept, FillOf, v);
    }
  }

  /** The "All Clear!" panel: `bins.filter((bin) => bin.fill_level >= 60).length === 0`. */
  predicate AllClear(bins: seq<Bin>)
  {
    |Filter(bins, NeedsCollection)| == 0
  }

  /** The panel is shown exactly when no bin is at 60 or more, which is exactly when the
      alert list is empty. */
  lemma AllClearExactly(bins: seq<Bin>)
    ensures AllClear(bins) <==> forall i :: 0 <= i < |bins| ==> bins[i].fillLevel < 60.0
    ensures AllClear(bins) <==> BinAlerts(bins) == []
  {
    if !AllClear(bins) {
      var b := Filter(bins, NeedsCollection)[0];
      FilterMembership(bins, NeedsCollection, b);
    }
    if exists i :: 0 <= i < |bins| && bins[i].fillLevel >= 60.0 {
      var i :| 0 <= i < |bins| && bins[i].fillLevel >= 60.0;
      FilterMembership(bins, NeedsCollection, bins[i]);
    }
  }

  /** The sidebar badge of the Alerts button: `criticalBins > 0 && criticalBins`. */
  function CriticalBadge(bins: seq<Bin>): (r: Option<nat>)
    ensures r.Some? <==> exists b :: b in bins && b.fillLevel >= 80.0
    ensures r.Some? ==> r.value == CriticalCount(bins) >= 1
  {
    var n := CriticalCount(bins);
    CriticalBadgeShown(bins);
    if n > 0 then Some(n) else None
  }

  /** Some bin is critical exactly when the critical count is positive. */
  lemma CriticalBadgeShown(bins: seq<Bin>)
    ensures CriticalCount(bins) > 0 <==> exists b :: b in bins && b.fillLevel >= 80.0
  {
    if CriticalCount(bins) > 0 {
      FilterMembership(bins, IsCritical, Filter(bins, IsCritical)[0]);
    }
    if exists b :: b in bins && b.fillLevel >= 80.0 {
      var b :| b in bins && b.fillLevel >= 80.0;
      FilterMembership(bins, IsCritical, b);
    }
  }

  /** A critical bin is always in the alert list too; the badge counts the front part
      of the alert list. */
  lemma CriticalBinsAreAlerts(bins: seq<Bin>, b: Bin)
    requires b in bins && b.fillLevel >= 80.0
    ensures b in BinAlerts(bins)
  {
    BinAlertsCorrect(bins);
  }

  /** Nothing makes a bin's three components add up to 100: the first generated bin's
      add up to 110. */
  lemma ComponentsNeedNotSumTo100()
    ensures ComponentsOf(GeneratedBins[0]) == 110.0
  {
  }

  class Dashboard {
    var activeView: string
    var bins: seq<Bin>

    constructor ()
      ensures activeView == "overview" && bins == GeneratedBins
    {
      activeView := "overview";
      bins := GeneratedBins;
    }

    /** A sidebar button: `setActiveView(view)`. */
    method SetActiveView(view: string)
      modifies this
      ensures activeView == view && bins == old(bins)
    {
      activeView := view;
    }

    /** One firing of the five-second interval. */
    method Tick(input: TickInput)
      requires Fits(input, |bins|)
      modifies this
      ensures bins == Bins.Tick(old(bins), input) && activeView == old(activeView)
    {
      bins := Bins.Tick(bins, input);
    }
  }
}
