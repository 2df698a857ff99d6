/** The sample-data generator: one flat record per campaign, with costs,
    response funnel and status derived from random draws and the clock.
    Each random draw and each clock reading is a field of `Draw`; calendar
    formatting is the `Calendar` parameter. */
module SampleData {
  import opened Wrappers
  import opened Document
  import opened Text
  import CostBreakdownSchema
  import CostDetailsSchema
  import StrategyCellSchema
  import WeeklyMailDropSchema
  import PerformanceSummarySchema
  import CampaignSchema
  import Seqs
  import DataUpload
  import DataView

  /** Instants are seconds since 2023-01-01 00:00, the first day
      `random_date` can return; days are counted from the same point. */
  const DaySeconds: nat := 86400

  /** `strftime('%Y-%m-%d')` and `strftime('%Y-%m')` of a day number. */
  datatype Calendar = Calendar(date: int -> string, month: int -> string)

  /** What one turn of the generator loop draws from `random` and reads
      from the clock. */
  datatype Draw = Draw(
    dateClock: int,
    startDay: int,
    durationDays: int,
    costMultiplier: real,
    printingBase: real,
    postageBase: real,
    dataBase: real,
    otherBase: real,
    plannedFactor: real,
    totalPieces: int,
    responseRate: real,
    conversionRate: real,
    avgConversionValue: real,
    statusClock: int,
    season: string,
    descriptionGoal: string,
    goal: string,
    demographic: string,
    location: string,
    behavior: string,
    budgetFactor: real,
    cellLetter: char,
    cellDigit: int,
    segment: string,
    creativeSuffix: string,
    offerSuffix: string,
    dropSuffix: string,
    plannedSendOffset: int,
    actualSendOffset: int)

  /** The ranges the generator asks `random` for, and a clock that does not
      run backwards within one turn. */
  predicate ValidDraw(d: Draw)
  {
    && 0 <= d.dateClock <= d.statusClock
    && 0 <= d.startDay <= (d.dateClock + 365 * DaySeconds) / DaySeconds
    && 30 <= d.durationDays <= 180
    && 0.5 <= d.costMultiplier <= 2.0
    && 500.0 <= d.printingBase <= 10000.0
    && 1000.0 <= d.postageBase <= 15000.0
    && 300.0 <= d.dataBase <= 5000.0
    && 100.0 <= d.otherBase <= 3000.0
    && 0.8 <= d.plannedFactor <= 1.4
    && 1000 <= d.totalPieces <= 50000
    && 0.01 <= d.responseRate <= 0.15
    && 0.05 <= d.conversionRate <= 0.40
    && 50.0 <= d.avgConversionValue <= 1000.0
    && 1.05 <= d.budgetFactor <= 1.25
    && 'A' <= d.cellLetter <= 'Z'
    && 1 <= d.cellDigit <= 9
    && 1 <= d.plannedSendOffset <= 7
    && 1 <= d.actualSendOffset <= 10
  }

  const Seasons: seq<string> := ["Spring", "Summer", "Fall", "Winter", "Holiday", "Special"]
  const Goals: seq<string> := [
    "Increase brand awareness", "Drive customer acquisition", "Boost customer retention",
    "Launch new product", "Seasonal promotion", "Customer reactivation", "Market expansion",
    "Cross-selling campaign", "Brand loyalty program", "Customer feedback initiative"]
  const Demographics: seq<string> := ["Young professionals", "Families", "Seniors", "Students", "Business owners"]
  const Behaviors: seq<string> := ["Recent purchasers", "High-value customers", "Inactive customers", "Frequent shoppers"]
  const Locations: seq<string> := ["Urban areas", "Suburban regions", "Rural communities", "Metropolitan zones"]
  const Segments: seq<string> := ["Premium", "Standard", "Value", "Test", "Control"]

  predicate IsAlnum(c: char)
  {
    ('a' <= c <= 'z') || ('A' <= c <= 'Z') || IsDigit(c)
  }

  /** `random_string(n)`: `n` letters and digits. */
  predicate RandomString(s: string, n: nat)
  {
    |s| == n && forall i :: 0 <= i < |s| ==> IsAlnum(s[i])
  }

  /** The choices `random.choice` makes from the generator's word lists. */
  predicate ValidChoices(d: Draw)
  {
    && d.season in Seasons && d.descriptionGoal in Goals && d.goal in Goals
    && d.demographic in Demographics && d.location in Locations && d.behavior in Behaviors
    && d.segment in Segments
    && RandomString(d.creativeSuffix, 6) && RandomString(d.offerSuffix, 4) && RandomString(d.dropSuffix, 8)
  }

  /** The four cost components: a base draw scaled by the shared multiplier. */
  function Printing(d: Draw): real { d.printingBase * d.costMultiplier }
  function Postage(d: Draw): real { d.postageBase * d.costMultiplier }
  function DataCost(d: Draw): real { d.dataBase * d.costMultiplier }
  function OtherCosts(d: Draw): real { d.otherBase * d.costMultiplier }

  function TotalCostActual(d: Draw): real
  {
    Printing(d) + Postage(d) + DataCost(d) + OtherCosts(d)
  }

  function TotalCostPlanned(d: Draw): real
  {
    TotalCostActual(d) * d.plannedFactor
  }

  /** `int(total_pieces * response_rate)`: with a rate in [0, 1], no more
      responses than pieces mailed. */
  function Responses(d: Draw): (r: int)
    ensures d.totalPieces >= 0 && 0.0 <= d.responseRate <= 1.0 ==> 0 <= r <= d.totalPieces
  {
    if d.totalPieces >= 0 && 0.0 <= d.responseRate <= 1.0 then
      TruncShrinks(d.totalPieces, d.responseRate);
      DataUpload.Trunc(d.totalPieces as real * d.responseRate)
    else DataUpload.Trunc(d.totalPieces as real * d.responseRate)
  }

  /** `int(total_responses * conversion_rate)`: with a rate in [0, 1], no
      more conversions than responses. */
  function Conversions(d: Draw): (r: int)
    ensures Responses(d) >= 0 && 0.0 <= d.conversionRate <= 1.0 ==> 0 <= r <= Responses(d)
  {
    if Responses(d) >= 0 && 0.0 <= d.conversionRate <= 1.0 then
      TruncShrinks(Responses(d), d.conversionRate);
      DataUpload.Trunc(Responses(d) as real * d.conversionRate)
    else DataUpload.Trunc(Responses(d) as real * d.conversionRate)
  }

  function ConversionValue(d: Draw): real
  {
    Conversions(d) as real * d.avgConversionValue
  }

  /** Every cost component is positive, so the actual cost the ROI divides
      by is too, and the budget exceeds the planned cost. */
  lemma CostsPositive(d: Draw)
    requires ValidDraw(d)
    ensures Printing(d) > 0.0 && Postage(d) > 0.0 && DataCost(d) > 0.0 && OtherCosts(d) > 0.0
    ensures TotalCostActual(d) > 0.0 && TotalCostPlanned(d) > 0.0
    ensures TotalCostPlanned(d) * d.budgetFactor > TotalCostPlanned(d)
  {
    var m := d.costMultiplier;
    ScaleAtLeast(d.printingBase, 500.0, m);
    ScaleAtLeast(d.postageBase, 1000.0, m);
    ScaleAtLeast(d.dataBase, 300.0, m);
    ScaleAtLeast(d.otherBase, 100.0, m);
    var total := TotalCostActual(d);
    ScaleAtLeast(d.plannedFactor, 0.8, total);
    var planned := TotalCostPlanned(d);
    ScaleAtLeast(d.budgetFactor, 1.05, planned);
  }

  /** Scaling by a positive factor keeps a lower bound. */
  lemma ScaleAtLeast(x: real, low: real, k: real)
    requires x >= low > 0.0 && k > 0.0
    ensures x * k >= low * k > 0.0
  {
    assert x * k - low * k == (x - low) * k;
  }

  /** Python's `round(x)`: to the nearest integer, ties to the even one. */
  function RoundHalfEven(r: real): (n: int)
    ensures -0.5 <= n as real - r <= 0.5
    ensures r - r.Floor as real != 0.5 ==> -0.5 < n as real - r < 0.5
    ensures r - r.Floor as real == 0.5 ==> n % 2 == 0
  {
    var f := r.Floor;
    var frac := r - f as real;
    if frac < 0.5 then f
    else if frac > 0.5 then f + 1
    else if f % 2 == 0 then f else f + 1
  }

  /** `round(x, 2)`, over the reals: a whole number of cents, at most half
      a cent away from the value. */
  function Round2(x: real): (r: real)
    ensures (r * 100.0).Floor as real == r * 100.0
    ensures -0.005 <= r - x <= 0.005
  {
    var n := RoundHalfEven(x * 100.0);
    CentsBack(n, x);
    n as real / 100.0
  }

  /** A whole number of cents within half a cent of `100 * x`, divided by
      100, is whole cents within half a cent of `x`. */
  lemma CentsBack(n: int, x: real)
    requires -0.5 <= n as real - x * 100.0 <= 0.5
    ensures (n as real / 100.0 * 100.0).Floor == n
    ensures -0.005 <= n as real / 100.0 - x <= 0.005
  {
    assert n as real / 100.0 - x == (n as real - x * 100.0) / 100.0;
    assert n as real / 100.0 * 100.0 == n as real;
  }

  /** The status from the dates: planned before the start, completed after
      the end, active otherwise. */
  function Status(start: int, end: int, now: int): (s: string)
    ensures s == "Planned" || s == "Completed" || s == "Active"
  {
    if start > now then "Planned"
    else if end < now then "Completed"
    else "Active"
  }

  /** Since a campaign ends after it starts, the if-chain's order does not
      matter: each status holds exactly when its own date condition does. */
  lemma StatusRule(start: int, end: int, now: int)
    requires start <= end
    ensures Status(start, end, now) == "Planned" <==> now < start
    ensures Status(start, end, now) == "Completed" <==> end < now
    ensures Status(start, end, now) == "Active" <==> start <= now <= end
  {
  }

  /** `f"CAM{str(i+1).zfill(4)}"`: "CAM" and at least four more characters. */
  function CampaignId(i: nat): (r: string)
    ensures |r| >= 7 && r[..3] == "CAM"
  {
    "CAM" + ZFill(NatToString(i + 1), 4)
  }

  /** The id is "CAM" followed by digits that read as `i + 1`, seven
      characters long while `i + 1` has at most four digits. */
  lemma CampaignIdShape(i: nat)
    ensures CampaignId(i)[..3] == "CAM"
    ensures AllDigits(CampaignId(i)[3..]) && DigitsValue(CampaignId(i)[3..]) == i + 1
    ensures i < 9999 ==> |CampaignId(i)| == 7
  {
    var digits := NatToString(i + 1);
    assert CampaignId(i)[3..] == ZFill(digits, 4);
    ZFillValue(digits, 4);
    NatToStringValue(i + 1);
    if i < 9999 {
      assert Pow10(4) == 10000;
      NatToStringLength(i + 1, 4);
    }
  }

  /** Different turns of the loop produce different ids. */
  lemma CampaignIdInjective(i: nat, j: nat)
    requires CampaignId(i) == CampaignId(j)
    ensures i == j
  {
    CampaignIdShape(i);
    CampaignIdShape(j);
  }

  /** The record of turn `i`, in the schema's terms. */
  function Generated(i: nat, d: Draw, cal: Calendar): (c: CampaignSchema.Campaign)
    requires ValidDraw(d)
    ensures DataUpload.Shaped(c)
  {
    CostsPositive(d);
    var start := d.startDay * DaySeconds;
    var end := (d.startDay + d.durationDays) * DaySeconds;
    var pieces := d.totalPieces as real;
    var breakdown := CostBreakdownSchema.CostBreakdown(
      Float(Printing(d)), Float(Postage(d)), Float(DataCost(d)), Float(OtherCosts(d)));
    var details := CostDetailsSchema.CostDetails(
      Float(TotalCostPlanned(d) * d.budgetFactor), Float(TotalCostPlanned(d)), Float(TotalCostActual(d)),
      Float(TotalCostPlanned(d) / pieces), Float(TotalCostActual(d) / pieces), breakdown);
    var cell := StrategyCellSchema.StrategyCell(
      [d.cellLetter] + NatToString(d.cellDigit), "Target segment " + d.segment,
      "CR" + d.creativeSuffix, Some("OFF" + d.offerSuffix),
      Int(d.totalPieces), Int(Responses(d)), Int(Conversions(d)), Float(ConversionValue(d)));
    var drop := WeeklyMailDropSchema.WeeklyMailDrop(
      "MD" + d.dropSuffix, cal.date(d.startDay), cal.date(d.startDay + d.plannedSendOffset),
      Some(cal.date(d.startDay + d.actualSendOffset)), Int(d.totalPieces), []);
    var performance := PerformanceSummarySchema.PerformanceSummary(
      Int(d.totalPieces), Int(Responses(d)), Float(Round2(d.responseRate * 100.0)),
      Int(Conversions(d)), Float(Round2(d.conversionRate * 100.0)), Float(Round2(ConversionValue(d))),
      Float(Round2(d.avgConversionValue)),
      Float(Round2((ConversionValue(d) - TotalCostActual(d)) / TotalCostActual(d) * 100.0)));
    CampaignSchema.Campaign(
      CampaignId(i),
      d.season + " Campaign " + cal.month(d.startDay),
      "Marketing initiative focused on " + Lower(d.descriptionGoal) + " through targeted messaging and offers",
      d.goal,
      d.demographic + " in " + d.location + " who are " + d.behavior,
      cal.date(d.startDay),
      cal.date(d.startDay + d.durationDays),
      Status(start, end, d.statusClock),
      details, [cell], [drop], performance)
  }

  /** `generate_sample_data`: one record per turn, in turn order. The
      dictionary written for a campaign is its flat layout
      `DataUpload.FlatRow`, one column per field. */
  method GenerateSampleData(numCampaigns: nat, draws: seq<Draw>, cal: Calendar)
    returns (campaigns: seq<CampaignSchema.Campaign>)
    requires |draws| == numCampaigns
    requires forall i :: 0 <= i < |draws| ==> ValidDraw(draws[i])
    ensures campaigns == GeneratedCampaigns(draws, cal)
  {
    ghost var all := GeneratedCampaigns(draws, cal);
    campaigns := [];
    var i := 0;
    while i < numCampaigns
      invariant 0 <= i <= numCampaigns
      invariant campaigns == all[..i]
    {
      GeneratedStep(draws, cal, i);
      campaigns := campaigns + [Generated(i, draws[i], cal)];
      i := i + 1;
    }
    assert all[..i] == all;
  }

  /** The records of the first `i + 1` turns are those of the first `i`
      and the record of turn `i`. */
  lemma GeneratedStep(draws: seq<Draw>, cal: Calendar, i: nat)
    requires forall i :: 0 <= i < |draws| ==> ValidDraw(draws[i])
    requires i < |draws|
    ensures GeneratedCampaigns(draws, cal)[..i + 1] == GeneratedCampaigns(draws, cal)[..i] + [Generated(i, draws[i], cal)]
  {
    var all := GeneratedCampaigns(draws, cal);
    Seqs.PrefixStep(all, i);
  }

  /** The status of a generated campaign follows its dates: the duration is
      at least thirty days, so no campaign is both planned and completed. */
  lemma GeneratedStatus(i: nat, d: Draw, cal: Calendar)
    requires ValidDraw(d)
    ensures var start, end := d.startDay * DaySeconds, (d.startDay + d.durationDays) * DaySeconds;
      var status := Generated(i, d, cal).campaignStatus;
      && (status == "Planned" <==> d.statusClock < start)
      && (status == "Completed" <==> end < d.statusClock)
      && (status == "Active" <==> start <= d.statusClock <= end)
      && end - start >= 30 * DaySeconds
  {
    var start, end := d.startDay * DaySeconds, (d.startDay + d.durationDays) * DaySeconds;
    assert end - start == d.durationDays * DaySeconds;
    StatusRule(start, end, d.statusClock);
  }

  /** The actual cost is the sum of the four breakdown components. */
  lemma CostSum(i: nat, d: Draw, cal: Calendar)
    requires ValidDraw(d)
    ensures var details := Generated(i, d, cal).costDetails;
      var b := details.costBreakdown;
      && b.printingCostActual.Float? && b.postageCostActual.Float?
      && b.dataCostActual.Float? && b.otherCostsActual.Float?
      && details.totalCampaignCostActual == Float(b.printingCostActual.r + b.postageCostActual.r +
           b.dataCostActual.r + b.otherCostsActual.r)
  {
  }

  /** Truncation of a product with a factor in [0, 1] stays between zero
      and the other factor. */
  lemma TruncShrinks(n: int, rate: real)
    requires n >= 0 && 0.0 <= rate <= 1.0
    ensures 0 <= DataUpload.Trunc(n as real * rate) <= n
  {
    var x := n as real * rate;
    assert 0.0 <= x <= n as real * 1.0;
    assert DataUpload.Trunc(x) as real <= x;
  }

  /** The same piece count is mailed by the strategy cell, sent in the mail
      drop and reported by the summary; the cell and the summary report the
      same responses and conversions; the mailing week starts on the
      campaign's start date. */
  lemma PiecesAgree(i: nat, d: Draw, cal: Calendar)
    requires ValidDraw(d)
    ensures var c := Generated(i, d, cal);
      var cell, drop, p := c.strategyCells[0], c.weeklyMailDrops[0], c.performanceSummary;
      && cell.campaignTotalMailed == drop.totalPiecesSentThisWeek == p.totalCampaignPiecesSent == Int(d.totalPieces)
      && cell.campaignTotalResponses == p.totalCampaignResponses
      && cell.campaignTotalConversions == p.totalCampaignConversions
      && drop.mailingWeekStartDate == c.overallStartDate
  {
  }

  /** The campaigns a run of the generator describes. */
  function GeneratedCampaigns(draws: seq<Draw>, cal: Calendar): (cs: seq<CampaignSchema.Campaign>)
    requires forall i :: 0 <= i < |draws| ==> ValidDraw(draws[i])
    ensures |cs| == |draws| && forall i :: 0 <= i < |draws| ==> cs[i] == Generated(i, draws[i], cal)
  {
    seq(|draws|, i requires 0 <= i < |draws| => Generated(i, draws[i], cal))
  }

  /** The ids of one run are pairwise distinct. */
  lemma GeneratedIdsDistinct(draws: seq<Draw>, cal: Calendar)
    requires forall i :: 0 <= i < |draws| ==> ValidDraw(draws[i])
    ensures DataView.DistinctIds(GeneratedCampaigns(draws, cal))
  {
    var cs := GeneratedCampaigns(draws, cal);
    forall i, j | 0 <= i < j < |cs|
      ensures cs[i].campaignId != cs[j].campaignId
    {
      if cs[i].campaignId == cs[j].campaignId {
        CampaignIdInjective(i, j);
      }
    }
  }

  /** Uploading the records of one run inserts every campaign they describe,
      in order, and reports no error. */
  lemma SampleUploads(draws: seq<Draw>, cal: Calendar, ft: DataUpload.FloatText)
    requires forall i :: 0 <= i < |draws| ==> ValidDraw(draws[i])
    ensures var cs := GeneratedCampaigns(draws, cal);
      && Seqs.Successes(DataUpload.FlatRows(cs), DataUpload.Builder(ft)) == cs
      && Seqs.Failures(DataUpload.FlatRows(cs), DataUpload.Builder(ft)) == []
  {
    DataUpload.FlatRowsUpload(GeneratedCampaigns(draws, cal), ft);
  }
}
