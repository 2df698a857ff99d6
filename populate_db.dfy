/** The sample campaign the database seeding script stores. The script
    repeats the seven record classes of the schema modules field for field,
    so the fixture is built from those same datatypes. */
module SampleFixture {
  import opened Wrappers
  import opened Document
  import CostBreakdownSchema
  import CostDetailsSchema
  import StrategyCellSchema
  import CellMailedSchema
  import WeeklyMailDropSchema
  import PerformanceSummarySchema
  import CampaignSchema
  import SampleData

  /** `create_sample_campaign_data`: every cell a weekly drop mails is one
      of the campaign's strategy cells. */
  function SampleCampaign(): (r: CampaignSchema.Campaign)
    ensures forall d :: d in r.weeklyMailDrops ==>
      forall w :: w in d.cellsMailedThisWeek ==>
        exists cell :: cell in r.strategyCells && cell.cellNo == w.cellNo
  {
    var breakdown := CostBreakdownSchema.CostBreakdown(Float(5000.0), Float(7500.0), Float(2000.0), Float(1000.0));
    var details := CostDetailsSchema.CostDetails(
      Float(20000.0), Float(18000.0), Float(15500.0), Float(0.90), Float(0.775), breakdown);
    var cell := StrategyCellSchema.StrategyCell(
      "A1", "High Value Customers", "CR001", Some("OFF100"),
      Int(10000), Int(500), Int(100), Float(50000.0));
    var weekly := CellMailedSchema.CellMailedThisWeek("A1", Int(2500), Int(125), Int(25), Float(12500.0));
    var drop := WeeklyMailDropSchema.WeeklyMailDrop(
      "MD001", "2024-03-01", "2024-03-04", Some("2024-03-04"), Int(2500), [weekly]);
    var performance := PerformanceSummarySchema.PerformanceSummary(
      Int(10000), Int(500), Float(5.0), Int(100), Float(20.0), Float(50000.0), Float(500.0), Float(222.58));
    var c := CampaignSchema.Campaign(
      "CAM001",
      "Spring 2024 Promotion",
      "Spring season promotional campaign targeting high-value customers",
      "Increase customer engagement and sales during spring season",
      "Customers with average spend > $1000 in last 6 months",
      "2024-03-01",
      "2024-05-31",
      "Active",
      details, [cell], [drop], performance);
    assert c.weeklyMailDrops[0].cellsMailedThisWeek[0].cellNo == c.strategyCells[0].cellNo;
    c
  }

  /** The four breakdown costs add up to the actual campaign cost. */
  lemma FixtureCostSum()
    ensures var d := SampleCampaign().costDetails;
      var b := d.costBreakdown;
      d.totalCampaignCostActual == Float(b.printingCostActual.r + b.postageCostActual.r +
        b.dataCostActual.r + b.otherCostsActual.r)
  {
  }

  /** The per-piece costs are the planned and actual costs spread over
      20000 pieces, twice the 10000 the strategy cell mails. */
  lemma FixturePerPieceBase()
    ensures var d := SampleCampaign().costDetails;
      && d.costPerPiecePlanned.r * 20000.0 == d.totalCampaignCostPlanned.r
      && d.costPerPieceActual.r * 20000.0 == d.totalCampaignCostActual.r
      && SampleCampaign().strategyCells[0].campaignTotalMailed == Int(10000)
  {
  }

  /** The funnel narrows: conversions, responses, pieces mailed. */
  lemma FixtureFunnel()
    ensures var cell := SampleCampaign().strategyCells[0];
      cell.campaignTotalConversions.i <= cell.campaignTotalResponses.i <= cell.campaignTotalMailed.i
  {
  }

  /** The weekly drop's single cell names a strategy cell of the campaign
      and mails the drop's whole piece count. */
  lemma FixtureWeeklyCell()
    ensures var c := SampleCampaign();
      var drop := c.weeklyMailDrops[0];
      && |drop.cellsMailedThisWeek| == 1
      && drop.cellsMailedThisWeek[0].quantityMailedThisWeek == drop.totalPiecesSentThisWeek
      && exists j :: 0 <= j < |c.strategyCells| && c.strategyCells[j].cellNo == drop.cellsMailedThisWeek[0].cellNo
  {
    var c := SampleCampaign();
    assert c.strategyCells[0].cellNo == c.weeklyMailDrops[0].cellsMailedThisWeek[0].cellNo;
  }

  /** The summary totals are the strategy cell's totals. */
  lemma FixtureTotals()
    ensures var c := SampleCampaign();
      var cell, p := c.strategyCells[0], c.performanceSummary;
      && p.totalCampaignPiecesSent == cell.campaignTotalMailed
      && p.totalCampaignResponses == cell.campaignTotalResponses
      && p.totalCampaignConversions == cell.campaignTotalConversions
      && p.totalCampaignConversionValue == cell.campaignTotalConversionValue
  {
  }

  /** The rates are percentages of the totals and the average is value per
      conversion. */
  lemma FixtureRates()
    ensures var p := SampleCampaign().performanceSummary;
      var sent, responses, conversions := p.totalCampaignPiecesSent.i as real,
        p.totalCampaignResponses.i as real, p.totalCampaignConversions.i as real;
      && p.overallResponseRate == Float(responses / sent * 100.0)
      && p.overallConversionRate == Float(conversions / responses * 100.0)
      && p.averageConversionValue == Float(p.totalCampaignConversionValue.r / conversions)
  {
  }

  /** The ROI is the generator's ROI formula rounded to two decimals. */
  lemma FixtureRoi()
    ensures var p := SampleCampaign().performanceSummary;
      var cost := SampleCampaign().costDetails.totalCampaignCostActual.r;
      p.campaignRoi == Float(SampleData.Round2((p.totalCampaignConversionValue.r - cost) / cost * 100.0))
  {
    var x: real := (50000.0 - 15500.0) / 15500.0 * 100.0;
    assert x * 100.0 == 3450000.0 / 155.0;
    assert (x * 100.0).Floor == 22258;
    assert SampleData.RoundHalfEven(x * 100.0) == 22258;
  }

  /** The stored document decodes back to the fixture. */
  lemma FixtureRoundTrip()
    ensures CampaignSchema.FromDict(CampaignSchema.ToDict(SampleCampaign())) == Ok(SampleCampaign())
  {
    CampaignSchema.RoundTrip(SampleCampaign());
  }
}
