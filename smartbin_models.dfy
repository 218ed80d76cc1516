/** The backend's bin record and reading record: the display string of a bin, and the
    `fill_status` label of a reading. The backend's thresholds are 60 and 85, not the
    dashboards' 60 and 80. */
module SmartBinModels {
  import opened Optional
  import opened Bins

  /** A registered bin. `installedAt` is the creation time the database fills in. */
  datatype SmartBin = SmartBin(
    binId: string,
    location: string,
    address: string,
    area: string,
    status: string,
    installedAt: string)

  /** One reading of a bin; `bin` is the id of the bin it belongs to, and a missing
      battery level is `None`. */
  datatype WasteReading = WasteReading(
    bin: string,
    metal: real,
    plastic: real,
    bio: real,
    fillLevel: real,
    batteryLevel: Option<real>,
    timestamp: string)

  /** `SmartBin.__str__`: "Bin <bin_id> - <area>". */
  function Str(b: SmartBin): (r: string)
    ensures |r| == 7 + |b.binId| + |b.area|
    ensures r[..4] == "Bin "
    ensures r[4..4 + |b.binId|] == b.binId
    ensures r[4 + |b.binId|..7 + |b.binId|] == " - "
    ensures r[7 + |b.binId|..] == b.area
  {
    "Bin " + b.binId + " - " + b.area
  }

  /** Two bins of the same area have the same display string only if they have the same
      id. */
  lemma {:induction false} StrSameAreaInjective(b1: SmartBin, b2: SmartBin)
    requires b1.area == b2.area && Str(b1) == Str(b2)
    ensures b1.binId == b2.binId
  {
    assert |b1.binId| == |b2.binId|;
    assert b1.binId == Str(b1)[4..4 + |b1.binId|];
  }

  /** Across areas the string can repeat even though `bin_id` is unique: an id or an area
      that itself contains " - " makes two different bins print alike. */
  lemma StrCanCollide()
    ensures var b1 := SmartBin("A - B", "", "", "C", "active", "");
            var b2 := SmartBin("A", "", "", "B - C", "active", "");
            b1.binId != b2.binId && Str(b1) == Str(b2)
  {
  }

  /** `WasteReading.fill_status`. */
  function FillStatus(fillLevel: real): (r: string)
    ensures r == "Good" <==> fillLevel < 60.0
    ensures r == "Warning" <==> 60.0 <= fillLevel < 85.0
    ensures r == "Critical" <==> fillLevel >= 85.0
  {
    if fillLevel < 60.0 then "Good"
    else if 60.0 <= fillLevel < 85.0 then "Warning"
    else "Critical"
  }

  /** The label of a reading. */
  function ReadingStatus(w: WasteReading): string { FillStatus(w.fillLevel) }

  /** How serious a label is: Good, then Warning, then Critical. */
  function Severity(status: string): nat
  {
    if status == "Critical" then 2 else if status == "Warning" then 1 else 0
  }

  /** Every reading gets one of the three labels, and a fuller reading never gets a less
      serious label. */
  lemma FillStatusMonotone(w1: WasteReading, w2: WasteReading)
    requires w1.fillLevel <= w2.fillLevel
    ensures ReadingStatus(w1) in {"Good", "Warning", "Critical"}
    ensures Severity(ReadingStatus(w1)) <= Severity(ReadingStatus(w2))
  {
  }

  /** The backend and the dashboards agree on "Good" below 60 and on "Critical" from 85,
      but between 80 and 85 the dashboards say critical while the backend says
      "Warning". */
  lemma ThresholdsDiffer(fill: real)
    ensures FillStatus(fill) == "Good" <==> Classify(fill) == Good
    ensures FillStatus(fill) == "Critical" ==> Classify(fill) == Critical
    ensures Classify(fill) == Critical && FillStatus(fill) == "Warning" <==> 80.0 <= fill < 85.0
  {
  }
}
