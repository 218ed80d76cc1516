/** The newer dashboard's state: the bin list the interval replaces, the active view, and
    the dispatch dialog (open flag, chosen area, chosen team); with the area alert badge,
    the "All Clear" panel, the alert card headings, and logout. */
module AreaDashboard {
  import opened Optional
  import opened Bins
  import opened AreaAlerts
  import opened Dispatch
  import opened Session

  /** `generateDummyBins()` of the newer dashboard: eight bins in five areas. */
  const GeneratedBins: seq<Bin> := [
    Bin("CHT001", Location(27.678, 84.432), 35.0, 55.0, 20.0, 75.0, "2025-11-06T10:20:00Z", "warning", "Pokhara City Center", "City Center"),
    Bin("CHT002", Location(27.685, 84.425), 45.0, 30.0, 25.0, 92.0, "2025-11-06T10:18:00Z", "critical", "Mahendrapul Area", "Mahendrapul"),
    Bin("CHT003", Location(27.672, 84.44), 20.0, 40.0, 40.0, 45.0, "2025-11-06T10:22:00Z", "good", "Lakeside Road", "Lakeside"),
    Bin("CHT004", Location(27.69, 84.435), 30.0, 45.0, 25.0, 68.0, "2025-11-06T10:19:00Z", "warning", "Prithvi Chowk", "Prithvi Chowk"),
    Bin("CHT005", Location(27.665, 84.428), 15.0, 35.0, 50.0, 30.0, "2025-11-06T10:21:00Z", "good", "Birauta", "Birauta"),
    Bin("CHT006", Location(27.68, 84.43), 40.0, 50.0, 10.0, 85.0, "2025-11-06T10:17:00Z", "critical", "Pokhara City Center - North", "City Center"),
    Bin("CHT007", Location(27.687, 84.428), 35.0, 40.0, 25.0, 78.0, "2025-11-06T10:16:00Z", "warning", "Mahendrapul - East", "Mahendrapul"),
    Bin("CHT008", Location(27.675, 84.442), 25.0, 35.0, 40.0, 55.0, "2025-11-06T10:23:00Z", "good", "Lakeside - South", "Lakeside")
  ]

  /** What the Confirm button reports: the team sent, the area and its number of bins. */
  datatype DispatchOrder = DispatchOrder(team: string, area: string, binCount: nat)

  /** The sidebar badge of the Alerts button: the number of area alerts, shown only when
      there is at least one. */
  function AlertBadge(bins: seq<Bin>): (r: Option<nat>)
    ensures r.Some? <==> AreaAlertsOf(bins) != []
    ensures r.Some? ==> r.value == |AreaAlertsOf(bins)| >= 1
  {
    var n := |AreaAlertsOf(bins)|;
    if n > 0 then Some(n) else None
  }

  /** The "All Clear!" panel of the alerts view. */
  predicate AllClear(bins: seq<Bin>)
  {
    |AreaAlertsOf(bins)| == 0
  }

  /** The badge counts the areas whose mean fill level is at least 60, and the panel is
      shown exactly when there is no such area, which is exactly when the badge is
      hidden. */
  lemma BadgeAndAllClear(bins: seq<Bin>)
    ensures AllClear(bins) <==> AlertBadge(bins).None?
    ensures AllClear(bins)
        <==> forall a :: a in AreasOf(bins) ==> !AreaNeedsCollection(bins, a)
  {
    if !AllClear(bins) {
      var s := AreaAlertsOf(bins)[0];
      AlertsComplete(bins, s.area);
    }
    if exists a :: a in AreasOf(bins) && AreaNeedsCollection(bins, a) {
      var a :| a in AreasOf(bins) && AreaNeedsCollection(bins, a);
      AlertsComplete(bins, a);
    }
  }

  /** The heading prefix of an area alert card. */
  function CardHeading(s: AreaSummary): string
  {
    if s.avgFillLevel >= 80.0 then "CRITICAL: " else "WARNING: "
  }

  /** Every alert card is headed "CRITICAL: " exactly when its mean fill level classifies
      as critical, and "WARNING: " exactly when it classifies as warning; no alert
      classifies as good. */
  lemma CardHeadingClassifies(bins: seq<Bin>, s: AreaSummary)
    requires s in AreaAlertsOf(bins)
    ensures CardHeading(s) == "CRITICAL: " <==> Classify(s.avgFillLevel) == Critical
    ensures CardHeading(s) == "WARNING: " <==> Classify(s.avgFillLevel) == Warning
    ensures Classify(s.avgFillLevel) != Good
  {
    AlertIsAlertingSummary(bins, s);
  }

  class Dashboard {
    var activeView: string
    var bins: seq<Bin>
    var isDialogOpen: bool
    var selectedArea: Option<AreaSummary>
    var selectedTeam: Option<string>
    const browser: Browser

    /** The dialog is open exactly when an area is chosen; the chosen area was an alert;
        a team is only chosen inside the open dialog, and only from the offered ids. */
    ghost predicate Valid()
      reads this
    {
      && (isDialogOpen <==> selectedArea.Some?)
      && (selectedArea.Some? ==> IsAlerting(selectedArea.value))
      && (selectedTeam.Some? ==> isDialogOpen && selectedTeam.value in SelectableIds(DispatchTeams))
    }

    /** Whether the dialog is rendered: `isDialogOpen && selectedArea`. */
    function DialogShown(): (r: bool)
      reads this
      requires Valid()
      ensures r <==> isDialogOpen
    {
      isDialogOpen && selectedArea.Some?
    }

    constructor (b: Browser)
      ensures Valid()
      ensures activeView == "overview" && bins == GeneratedBins
      ensures !isDialogOpen && selectedArea == None && selectedTeam == None
      ensures browser == b
    {
      activeView := "overview";
      bins := GeneratedBins;
      isDialogOpen, selectedArea, selectedTeam := false, None, None;
      browser := b;
    }

    /** A sidebar button: `setActiveView(view)`. */
    method SetActiveView(view: string)
      requires Valid()
      modifies this
      ensures Valid() && activeView == view && bins == old(bins)
      ensures isDialogOpen == old(isDialogOpen) && selectedArea == old(selectedArea)
      ensures selectedTeam == old(selectedTeam)
    {
      activeView := view;
    }

    /** One firing of the five-second interval. The dialog keeps the area it was
        opened for, even if the bins have since changed. */
    method Tick(input: TickInput)
      requires Valid() && Fits(input, |bins|)
      modifies this
      ensures Valid() && bins == Bins.Tick(old(bins), input)
      ensures activeView == old(activeView) && isDialogOpen == old(isDialogOpen)
      ensures selectedArea == old(selectedArea) && selectedTeam == old(selectedTeam)
    {
      bins := Bins.Tick(bins, input);
    }

    /** "Dispatch Team" on an area alert card. */
    method OpenDispatch(area: AreaSummary)
      requires Valid() && area in AreaAlertsOf(bins)
      modifies this
      ensures Valid()
      ensures isDialogOpen && selectedArea == Some(area) && selectedTeam == None
      ensures bins == old(bins) && activeView == old(activeView)
    {
      AlertIsAlertingSummary(bins, area);
      selectedArea := Some(area);
      isDialogOpen := true;
      selectedTeam := None;
    }

    /** The dialog's close button. */
    method CloseDialog()
      requires Valid()
      modifies this
      ensures Valid()
      ensures !isDialogOpen && selectedArea == None && selectedTeam == None
      ensures bins == old(bins) && activeView == old(activeView)
    {
      isDialogOpen := false;
      selectedArea := None;
      selectedTeam := None;
    }

    /** A click on one of the listed teams. */
    method SelectTeam(id: string)
      requires Valid() && isDialogOpen && id in SelectableIds(DispatchTeams)
      modifies this
      ensures Valid() && selectedTeam == Some(id)
      ensures isDialogOpen && selectedArea == old(selectedArea)
      ensures bins == old(bins) && activeView == old(activeView)
    {
      selectedTeam := Some(id);
    }

    /** The dialog's confirm button: with a team chosen it reports the dispatch and
        closes the dialog, clearing area and team; without one it does nothing. */
    method ConfirmDispatch() returns (order: Option<DispatchOrder>)
      requires Valid()
      modifies this
      ensures Valid() && bins == old(bins) && activeView == old(activeView)
      ensures order.Some? <==> old(selectedTeam).Some? && old(selectedTeam).value != ""
      ensures order.Some? ==>
        && old(selectedArea).Some?
        && order.value == DispatchOrder(old(selectedTeam).value, old(selectedArea).value.area,
                                        old(selectedArea).value.binCount)
        && !isDialogOpen && selectedArea == None && selectedTeam == None
      ensures order.None? ==>
        && isDialogOpen == old(isDialogOpen) && selectedArea == old(selectedArea)
        && selectedTeam == old(selectedTeam)
    {
      order := None;
      if selectedTeam.Some? && selectedTeam.value != "" {
        order := Some(DispatchOrder(selectedTeam.value, selectedArea.value.area,
                                    selectedArea.value.binCount));
        isDialogOpen := false;
        selectedArea := None;
        selectedTeam := None;
      }
    }

    /** The logout button: both session keys removed, then a replacing navigation to
        the login page. */
    method HandleLogout()
      requires browser.Valid()
      modifies browser
      ensures browser.Valid()
      ensures browser.storage == SignOut(old(browser.storage)) && !Authenticated(browser.storage)
      ensures browser.history
           == old(browser.history)[..|old(browser.history)| - 1] + ["/login"]
    {
      browser.RemoveItem(AuthKey);
      browser.RemoveItem(UserKey);
      browser.Navigate("/login", true);
    }
  }
}
