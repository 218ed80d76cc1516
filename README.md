# SWSATS waste-bin dashboard in Dafny

This project models the logic of SWSATS, a smart waste-bin system: its dashboards, its login, and its backend. The parts modelled are:

- **The area alert list of the newer dashboard (`getAreaAlerts`).** It groups bin readings by area into a dictionary of accumulators. It gives each area its mean fill level and the mean of its bins' coordinates. It keeps the areas whose mean is at least 60 and sorts them by mean, highest first.
- **Shared bin logic of both dashboards:**
  - the 80/60 classification of fill levels;
  - the overview statistics: the critical and warning counts, the mean fill level, and the waste totals;
  - the five-second update tick.
- **The newer dashboard's dispatch dialog:** an open flag, a chosen area and a chosen team. It also covers:
  - the area alert badge;
  - the "All Clear" panel;
  - the alert card headings;
  - logout.
- **The older dashboard:**
  - its per-bin alert list: every bin at 60 or more, fullest first;
  - its "All Clear" panel;
  - its sidebar badge counting critical bins.
- **The session flag.** Login sets it, the route guard reads it, and logout clears it. The project also models:
  - the login form's submission;
  - its redirect on mount;
  - where the route table finally leads.
- **The backend's `fill_status` rule and `SmartBin.__str__`.** `fill_status` uses the thresholds 60 and 85, which differ from the dashboards' 80.

Fill levels, coordinates and waste amounts are exact reals: the code only compares, adds, clamps and divides them. A JavaScript `NaN` average (no bins) is `None`. `localStorage` is a map from strings to strings. The router's location is the last entry of a history stack.

Modules:

- `Optional` and `Seqs` (seqs.dfy): `filter` and the left-fold `reduce`.
- `StableSort` (stable_sort.dfy): the stable descending `sort`.
- `Bins` (bins.dfy): the bin record, classification, statistics and the tick.
- `AreaAlerts` (area_alerts.dfy): `getAreaAlerts`, as a loop over a dictionary and as its specification.
- `Dispatch` (dispatch.dfy): the teams.
- `AreaDashboard` (area_dashboard.dfy): the newer dashboard's state.
- `BinDashboard` (bin_dashboard.dfy): the older dashboard.
- `Session` (session.dfy): storage, guard and route table.
- `Login` (login.dfy): the login form.
- `App` (app.dfy): where redirects settle.
- `SmartBinModels` (smartbin_models.dfy): the backend models.

## Model

| member | source | states |
|---|---|---|
| StableSort.SortDesc | frontend/src/Components/Dashboard.jsx:363 | the sorted list is non-increasing by the key and a permutation of the input |
| StableSort.SortStable | frontend/src/Components/Dashboard.jsx:363 | elements of equal key keep their input order (`Array.prototype.sort` is stable) |
| StableSort.SortedStableUnique | frontend/src/Components/Dashboard.jsx:363 | two sorted sequences with the same elements of every key, in the same order, are equal |
| StableSort.SortCharacterised | frontend/src/Components/Dashboard.jsx:363 | any sorted arrangement that keeps each key's input order is the sort's result |
| StableSort.SortDistinct | frontend/src/Components/Dashboard.jsx:363 | sorting introduces no repetitions |
| Bins.Classify | frontend/src/Components/Dashboard.jsx:315-325 | critical iff fill >= 80, warning iff 60 <= fill < 80, good iff fill < 60 |
| Bins.StatusDisplaysAgree | frontend/src/Components/Dashboard.jsx:676-680 | the label, the colour and the badge each pick the same one of three states, by the 80/60 thresholds |
| Bins.ClassifyMonotone | src/Components/Dashboard.jsx:187-197 | a fuller bin is never classified as less severe |
| Bins.CountsPartition | frontend/src/Components/Dashboard.jsx:287-291 | critical, warning and good counts add up to the number of bins; critical and warning are disjoint and together at most the total |
| Bins.Mean | frontend/src/Components/Dashboard.jsx:292-294 | the average is undefined exactly for no bins, and otherwise times the count gives the sum |
| Bins.AverageFillBounded | src/Components/Dashboard.jsx:164-166 | the mean of fill levels in [0, 100] is defined for a non-empty list and lies in [0, 100] |
| Bins.TotalsSplit | frontend/src/Components/Dashboard.jsx:297-313 | the three waste totals add up to the sum of every bin's own three components |
| Bins.TotalsAppend | src/Components/Dashboard.jsx:169-185 | one more bin adds exactly its own metal, plastic and bio to the three totals |
| Bins.TickBin | frontend/src/Components/Dashboard.jsx:276-280 | the new fill is at most 100, at most old + d, equal to 100 or to old + d, not below an old fill of at most 100; only fill and timestamp change |
| Bins.Tick | frontend/src/Components/Dashboard.jsx:273-281 | same length and order; each bin keeps every field but fill and timestamp and gets its own timestamp; its new fill is at most 100, at most old + d, and equal to one of the two, i.e. `min(100, old + d)`; a fill of at most 100 does not go down |
| Bins.TicksMonotoneBounded | src/Components/Dashboard.jsx:145-156 | after any number of ticks every bin keeps id, area and location, and a fill that began at most 100 lies between its start and 100 |
| AreaAlerts.AreasOfDistinct | frontend/src/Components/Dashboard.jsx:331-338 | each area key appears once in the dictionary's key order |
| AreaAlerts.AreasOfMember | frontend/src/Components/Dashboard.jsx:331-338 | an area is a key exactly when some bin has it |
| AreaAlerts.InArea | frontend/src/Components/Dashboard.jsx:340 | the bins of one area are input bins of that area, no more than the input |
| AreaAlerts.InAreaMember | frontend/src/Components/Dashboard.jsx:340 | a bin is in its area's group exactly when it is an input bin of that area |
| AreaAlerts.GroupStep | frontend/src/Components/Dashboard.jsx:331-343 | one more bin extends exactly its own area's accumulator by push, `+=` and `+= 1` |
| AreaAlerts.GroupIsInArea | frontend/src/Components/Dashboard.jsx:340-342 | the accumulator holds exactly the area's bins in input order, their total fill and their number |
| AreaAlerts.AreasStep | frontend/src/Components/Dashboard.jsx:332-339 | a bin appends its area to the key order exactly when the area is new |
| AreaAlerts.AreaNonEmpty | frontend/src/Components/Dashboard.jsx:348 | every key's accumulator has at least one bin, so the division is defined |
| AreaAlerts.AreaAbsentEmpty | frontend/src/Components/Dashboard.jsx:332-339 | an area not yet seen has no bins and an empty accumulator |
| AreaAlerts.GroupsPartition | frontend/src/Components/Dashboard.jsx:331-343 | the group sizes over all keys add up to the number of bins |
| AreaAlerts.AllSummaries | frontend/src/Components/Dashboard.jsx:346-357 | one summary per area key |
| AreaAlerts.SummaryOfArea | frontend/src/Components/Dashboard.jsx:346-357 | each summary belongs to an occurring area, built from that area's accumulator |
| AreaAlerts.AllSummariesDistinct | frontend/src/Components/Dashboard.jsx:346 | no area is summarised twice |
| AreaAlerts.SummaryFacts | frontend/src/Components/Dashboard.jsx:346-357 | a summary has the area's bins, a count of at least 1, their total, their mean fill level and the mean of their coordinates |
| AreaAlerts.AlertIsAlertingSummary | frontend/src/Components/Dashboard.jsx:360-363 | each alert is one of the summaries and has a mean of at least 60 |
| AreaAlerts.AlertsAreAreaMeans | frontend/src/Components/Dashboard.jsx:346-362 | each alert is an occurring area with exactly its bins in input order, count >= 1, their total, mean fill >= 60, and mean lat and lng as its centre |
| AreaAlerts.AlertsComplete | frontend/src/Components/Dashboard.jsx:360-362 | an area is alerted iff it occurs and the mean fill level of its bins is at least 60 |
| AreaAlerts.AlertedArea | frontend/src/Components/Dashboard.jsx:360-362 | an occurring area with mean at least 60 has its summary among the alerts |
| AreaAlerts.AlertsOrdered | frontend/src/Components/Dashboard.jsx:360-363 | alerts are sorted by mean, highest first; equal means keep first-encounter order; no area appears twice |
| AreaAlerts.NoAlertsWhenAllBelow60 | frontend/src/Components/Dashboard.jsx:360-362 | with every bin below 60 the alert list is empty |
| AreaAlerts.MeanBelow | frontend/src/Components/Dashboard.jsx:347 | fill levels all below a bound have a mean below it |
| AreaAlerts.GroupMap | frontend/src/Components/Dashboard.jsx:329-343 | the finished dictionary has exactly the occurring areas as keys |
| AreaAlerts.GroupMapStep | frontend/src/Components/Dashboard.jsx:331-343 | one `forEach` step (create if absent, then push and add) turns the dictionary for a prefix into the one for the longer prefix |
| AreaAlerts.GroupByArea | frontend/src/Components/Dashboard.jsx:329-343 | the loop's key order is the first-encounter order of areas and its dictionary maps each to that area's accumulator |
| AreaAlerts.GetAreaAlerts | frontend/src/Components/Dashboard.jsx:328-364 | the loop, the summaries, the filter and the sort give exactly the specified alert list |
| AreaAlerts.TwoBinsSummary | frontend/src/Components/Dashboard.jsx:346-357 | fill levels 90 and 70 in one area give mean 80 over two bins, centred halfway |
| AreaAlerts.TwoBinsOneArea | frontend/src/Components/Dashboard.jsx:360-363 | that area is the one alert, with mean 80 and two bins |
| Dispatch.AvailableExactly | frontend/src/Components/Dashboard.jsx:1162-1163 | a team is listed iff it is in the list with status "available" |
| Dispatch.SelectableExactly | frontend/src/Components/Dashboard.jsx:1162-1167 | an id can be chosen iff an available team carries it |
| Dispatch.FixedTeamsAvailable | frontend/src/Components/Dashboard.jsx:78-129 | of the five teams, the first three and the fifth are available |
| Dispatch.FixedTeamsOffered | frontend/src/Components/Dashboard.jsx:78-129 | the dialog offers TEAM001, TEAM002, TEAM003, TEAM005 in that order, never TEAM004 |
| AreaDashboard.AlertBadge | frontend/src/Components/Dashboard.jsx:440-444 | the badge shows iff there is an area alert, and then shows their number |
| AreaDashboard.BadgeAndAllClear | frontend/src/Components/Dashboard.jsx:1052 | "All Clear" shows iff the badge is hidden iff no occurring area has mean fill >= 60 |
| AreaDashboard.CardHeadingClassifies | frontend/src/Components/Dashboard.jsx:995-997 | an alert card says "CRITICAL: " iff its mean classifies critical, "WARNING: " iff warning; never good |
| AreaDashboard.Dashboard.DialogShown | frontend/src/Components/Dashboard.jsx:1071 | the dialog is rendered exactly when it is open |
| AreaDashboard.Dashboard.constructor | frontend/src/Components/Dashboard.jsx:243-248 | starts on "overview" with the generated bins and the dialog closed, nothing chosen |
| AreaDashboard.Dashboard.SetActiveView | frontend/src/Components/Dashboard.jsx:388-432 | only the view changes |
| AreaDashboard.Dashboard.Tick | frontend/src/Components/Dashboard.jsx:273-281 | the bins become the ticked bins; the dialog state is kept |
| AreaDashboard.Dashboard.OpenDispatch | frontend/src/Components/Dashboard.jsx:1039-1043 | opens the dialog on the chosen alert with no team chosen; the dialog invariant holds |
| AreaDashboard.Dashboard.CloseDialog | frontend/src/Components/Dashboard.jsx:1083-1087 | closes the dialog and clears area and team |
| AreaDashboard.Dashboard.SelectTeam | frontend/src/Components/Dashboard.jsx:1167 | chooses an offered team; the dialog stays open on the same area |
| AreaDashboard.Dashboard.ConfirmDispatch | frontend/src/Components/Dashboard.jsx:1278-1291 | with a team chosen: reports team, area and bin count, closes and clears; without one: changes nothing |
| AreaDashboard.Dashboard.HandleLogout | frontend/src/Components/Dashboard.jsx:266-270 | removes both session keys, so the flag is unset, and replaces the location by "/login" |
| BinDashboard.BinAlertsCorrect | src/Components/Dashboard.jsx:791-793 | the alert list has exactly the bins at 60 or more, with their multiplicities, fullest first, ties in input order |
| BinDashboard.AllClearExactly | src/Components/Dashboard.jsx:846 | "All Clear" shows iff no bin is at 60 or more iff the alert list is empty |
| BinDashboard.CriticalBadge | src/Components/Dashboard.jsx:278-282 | the badge shows iff some bin is at 80 or more, and then shows the critical count |
| BinDashboard.CriticalBadgeShown | src/Components/Dashboard.jsx:160 | the critical count is positive iff some bin is at 80 or more |
| BinDashboard.CriticalBinsAreAlerts | src/Components/Dashboard.jsx:791-792 | every critical bin is in the alert list |
| BinDashboard.ComponentsNeedNotSumTo100 | src/Components/Dashboard.jsx:71-81 | the first generated bin's components add up to 110 |
| BinDashboard.Dashboard.constructor | src/Components/Dashboard.jsx:140-141 | starts on "overview" with the five generated bins |
| BinDashboard.Dashboard.SetActiveView | src/Components/Dashboard.jsx:221-269 | only the view changes |
| BinDashboard.Dashboard.Tick | src/Components/Dashboard.jsx:145-156 | the bins become the ticked bins |
| Session.Browser.Location | frontend/src/App.jsx:19-31 | the current location is an entry of the history |
| Session.Browser.SetItem | src/Components/Login.jsx:29-30 | the key maps to the value; the history is kept |
| Session.Browser.RemoveItem | frontend/src/Components/Dashboard.jsx:267-268 | the key is gone; the history is kept |
| Session.Browser.Navigate | frontend/src/Components/Dashboard.jsx:269 | a push appends the path, a replace overwrites the current entry; storage is kept |
| Session.GetItem | frontend/src/App.jsx:8 | a value exactly for stored keys, and it is the stored one |
| Session.SignIn | src/Components/Login.jsx:29-30 | the flag is "true", the user name is stored, and every other key is as before |
| Session.SignOut | frontend/src/Components/Dashboard.jsx:267-268 | flag and user name are absent, so the flag is unset; every other key is as before |
| Session.SignOutUndoesSignIn | frontend/src/Components/Dashboard.jsx:266-268 | logging out after logging in leaves the storage that logging out alone leaves |
| Session.DisplayName | frontend/src/Components/Dashboard.jsx:263 | the stored name when it is non-empty, otherwise "User"; never empty |
| Session.DisplayNameAfterSignIn | frontend/src/Components/Dashboard.jsx:263 | after a login the shown name is the typed one, or "User" for an empty one |
| Session.Guard | frontend/src/App.jsx:7-15 | the children iff the stored flag is exactly "true", otherwise a replacing redirect to "/login" |
| Session.Route | frontend/src/App.jsx:20-31 | "/login" is the unguarded login page; "/dashboard" is the dashboard with the flag set and otherwise a replacing redirect to "/login"; "/" is a replacing redirect to "/dashboard"; any other path matches nothing |
| Session.GuardFollowsSession | frontend/src/App.jsx:8-12 | the guard admits after a login whatever was stored before, and rejects after a logout |
| Session.GuardRejectsOtherValues | frontend/src/App.jsx:8-12 | a missing flag or any value other than "true" is redirected to "/login" |
| Login.MountTarget | src/Components/Login.jsx:13-18 | a redirect exactly when the flag is "true", and then to "/dashboard" |
| Login.LoginForm.constructor | src/Components/Login.jsx:6-9 | empty fields, no error, no spinner |
| Login.LoginForm.ChangeUsername | src/Components/Login.jsx:83 | only the user name changes |
| Login.LoginForm.ChangePassword | src/Components/Login.jsx:108 | only the password changes |
| Login.LoginForm.Submit | src/Components/Login.jsx:20-26 | only with both fields non-empty (`required`, lines 86 and 111) and no spinner (button disabled, line 120): clears the error, shows the spinner, and captures the current user name and password |
| Login.LoginForm.CheckCredentials | src/Components/Login.jsx:26-36 | accepted iff both equal "ocemtechies": then the session is signed in and "/dashboard" pushed; otherwise the message is shown, the spinner hidden and storage untouched |
| Login.LoginForm.HandleSubmit | src/Components/Login.jsx:20-37 | under the same gating as Submit, a submission signs in, pushes "/dashboard", and leaves the error empty and the spinner on iff the credentials are accepted; otherwise it shows the message with storage and history untouched |
| Login.LoginForm.OnMount | src/Components/Login.jsx:13-18 | a signed-in browser replaces the location by "/dashboard"; otherwise nothing changes |
| App.SettledStays | frontend/src/App.jsx:20-31 | nothing moves away from a location without a redirect |
| App.Lands | frontend/src/App.jsx:20-31 | from "/", "/login" or "/dashboard", two redirects reach "/dashboard" if the flag is "true" and "/login" otherwise, and stay there: no redirect loop |
| SmartBinModels.Str | backend/smartbin/models.py:12-13 | "Bin ", then the id, then " - ", then the area, and nothing else |
| SmartBinModels.StrSameAreaInjective | backend/smartbin/models.py:12-13 | within one area, the string determines the bin id |
| SmartBinModels.StrCanCollide | backend/smartbin/models.py:12-13 | different ids can print alike when an id or an area contains " - " |
| SmartBinModels.FillStatus | backend/smartbin/models.py:29-35 | "Good" iff < 60, "Warning" iff 60 <= f < 85, "Critical" iff >= 85 |
| SmartBinModels.FillStatusMonotone | backend/smartbin/models.py:29-35 | every reading gets one of the three labels, and a fuller reading never gets a less serious one |
| SmartBinModels.ThresholdsDiffer | backend/smartbin/models.py:32-35 | backend and dashboards agree on good and on >= 85; they disagree exactly for 80 <= f < 85 |

The table lists the members that carry a contract. The definitions below have none of their own. Each is pinned down by the rows named after it:

- `Bins.StatusColor`, `Bins.StatusBadge`, `Bins.StatusLabel` (frontend/src/Components/Dashboard.jsx:315-325, 676-680): by `Bins.StatusDisplaysAgree`.
- `Bins.CriticalCount`, `Bins.WarningCount`, `Bins.GoodCount` (frontend/src/Components/Dashboard.jsx:288-291): by `Bins.CountsPartition` and `BinDashboard.CriticalBadgeShown`.
- `Bins.AverageFill` (frontend/src/Components/Dashboard.jsx:292-294): by `Bins.Mean` and `Bins.AverageFillBounded`.
- `Bins.Totals` (frontend/src/Components/Dashboard.jsx:297-313): by `Bins.TotalsSplit` and `Bins.TotalsAppend`.
- `AreaAlerts.Summarize` (frontend/src/Components/Dashboard.jsx:346-357): by `AreaAlerts.SummaryFacts`.
- `AreaAlerts.AreaAlertsOf` (frontend/src/Components/Dashboard.jsx:360-363): by `AreaAlerts.GetAreaAlerts`, `AlertsAreAreaMeans`, `AlertsComplete` and `AlertsOrdered`.
- `BinDashboard.BinAlerts` (src/Components/Dashboard.jsx:791-793): by `BinDashboard.BinAlertsCorrect`.
- `BinDashboard.AllClear` (src/Components/Dashboard.jsx:846): by `BinDashboard.AllClearExactly`.
- `AreaDashboard.AllClear` (frontend/src/Components/Dashboard.jsx:1052): by `AreaDashboard.BadgeAndAllClear`.
- `AreaDashboard.CardHeading` (frontend/src/Components/Dashboard.jsx:995-997): by `AreaDashboard.CardHeadingClassifies`.
- `Session.Authenticated` (frontend/src/App.jsx:8): by `Session.Guard`, `Session.SignIn` and `Session.SignOut`.
- `Login.Accepted` (src/Components/Login.jsx:27): by `Login.LoginForm.CheckCredentials`.
- `Dispatch.AvailableTeams`, `Dispatch.SelectableIds` (frontend/src/Components/Dashboard.jsx:1162-1167): by `Dispatch.AvailableExactly`, `Dispatch.SelectableExactly` and `Dispatch.FixedTeamsOffered`.
- `App.Follow` (frontend/src/App.jsx:20-31, src/Components/Login.jsx:13-18): by `App.SettledStays` and `App.Lands`.

## Left out

- Rendering and visuals are left out: the markup, styling classes, the map and its markers, the charts, and `toFixed`/`toLocaleString` formatting. They are presentation only.
- The HTTP fetch of `/smartbin/` in the newer dashboard is left out: its result is only logged.
- `setInterval`, its cleanup and the login's 500 ms `setTimeout` are not modelled as timers. A tick is one method call. The delayed login check is a separate method, called with the values the callback captured.
- `Math.random()` and `new Date()` are not modelled. They are the tick's parameters: one increment in [0, 2) and one timestamp string per bin.
- `generateHistoricalData` is left out: it is random display data.
- The dialog's Cancel button is not modelled. It calls a function that does not exist in the component, so it throws part-way through its handler.
- Numbers are exact reals, so IEEE rounding is not modelled. `NaN` appears only as the undefined mean of no bins.
  - The backend's `fill_status` would label a `NaN` fill level "Critical". That case is not modelled.
- Object key order is modelled for ordinary area names only. JavaScript enumerates integer-like keys (such as "12") before all other keys. Keys that are names on `Object.prototype` (such as "constructor") make `!areaMap[bin.area]` misbehave.
- React Router's path matching also accepts a trailing slash and differences of letter case. The route table here matches paths exactly.
- The React render cycle is not modelled: batched state updates and re-renders, and the browser history beyond the current entry.
- The backend's machine-learning code, HTTP views, serializers, URL wiring and the `Meta.ordering` of readings are not modelled. They are framework and foreign-library plumbing.
- src/App.jsx is left out: it is a single unguarded route.
- BinDashboard.GeneratedBins: the older dashboard's records have no `area`; the model stores the empty string there, and the older dashboard never reads it.
