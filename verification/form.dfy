/** The values the sales-metrics form collects. `Entries` holds them as the
    user types them (rates in percent); `Inputs` holds them as the metric
    derivation sees them (rates as fractions). */
module Form {
  import opened Percent

  /** The form's twenty-two widgets, in their entered units. Integer widgets are
      `nat` because their lower bound is 0; real widgets are bounded by
      `WithinWidgetRanges`. */
  datatype Entries = Entries(
    // lead and conversion metrics
    leadsGenerated: real,
    leadConversionPercent: real,
    opportunityConversionPercent: real,
    averageDealSize: real,
    costPerLead: real,
    costPerMeeting: real,
    meetingsHeld: nat,
    followUpsPerLead: nat,
    salesCycleLength: nat,
    // financial and customer metrics
    cogs: real,
    customerAcquisitionCost: real,
    contractLength: nat,
    avgCustomerLifetimeValue: real,
    churnPercent: real,
    operatingExpenses: real,
    salesTeamSalary: real,
    salesCommissionPercent: real,
    // additional factors
    marketingSpend: real,
    productDevCost: real,
    discountPercent: real,
    refundPercent: real,
    seasonalityPercent: real
  )

  /** The same values once read: every percentage is now a fraction. */
  datatype Inputs = Inputs(
    leadsGenerated: real,
    leadConversionRate: real,
    opportunityConversionRate: real,
    averageDealSize: real,
    costPerLead: real,
    costPerMeeting: real,
    meetingsHeld: nat,
    followUpsPerLead: nat,
    salesCycleLength: nat,
    cogs: real,
    customerAcquisitionCost: real,
    contractLength: nat,
    avgCustomerLifetimeValue: real,
    churnRate: real,
    operatingExpenses: real,
    salesTeamSalary: real,
    salesCommissionRate: real,
    marketingSpend: real,
    productDevCost: real,
    discountRate: real,
    refundRate: real,
    seasonalityAdjustment: real
  )

  predicate IsPercent(p: real) {
    0.0 <= p <= 100.0
  }

  predicate IsRate(f: real) {
    0.0 <= f <= 1.0
  }

  /** The widgets' `min_value`/`max_value` bounds: amounts are at least 0,
      rates lie in [0, 100] percent and the seasonality change in [-100, 100]. */
  predicate WithinWidgetRanges(e: Entries) {
    && e.leadsGenerated >= 0.0
    && IsPercent(e.leadConversionPercent)
    && IsPercent(e.opportunityConversionPercent)
    && e.averageDealSize >= 0.0
    && e.costPerLead >= 0.0
    && e.costPerMeeting >= 0.0
    && e.cogs >= 0.0
    && e.customerAcquisitionCost >= 0.0
    && e.avgCustomerLifetimeValue >= 0.0
    && IsPercent(e.churnPercent)
    && e.operatingExpenses >= 0.0
    && e.salesTeamSalary >= 0.0
    && IsPercent(e.salesCommissionPercent)
    && e.marketingSpend >= 0.0
    && e.productDevCost >= 0.0
    && IsPercent(e.discountPercent)
    && IsPercent(e.refundPercent)
    && -100.0 <= e.seasonalityPercent <= 100.0
  }

  /** The same bounds stated on read inputs, rates as fractions. */
  predicate InRange(i: Inputs) {
    && i.leadsGenerated >= 0.0
    && IsRate(i.leadConversionRate)
    && IsRate(i.opportunityConversionRate)
    && i.averageDealSize >= 0.0
    && i.costPerLead >= 0.0
    && i.costPerMeeting >= 0.0
    && i.cogs >= 0.0
    && i.customerAcquisitionCost >= 0.0
    && i.avgCustomerLifetimeValue >= 0.0
    && IsRate(i.churnRate)
    && i.operatingExpenses >= 0.0
    && i.salesTeamSalary >= 0.0
    && IsRate(i.salesCommissionRate)
    && i.marketingSpend >= 0.0
    && i.productDevCost >= 0.0
    && IsRate(i.discountRate)
    && IsRate(i.refundRate)
    && -1.0 <= i.seasonalityAdjustment <= 1.0
  }

  /** Reads the form: percentage entries are divided by 100, every other
      entry is taken as it is. */
  function Read(e: Entries): (i: Inputs)
    ensures Unread(i) == e
  {
    Inputs(
      e.leadsGenerated,
      ToFraction(e.leadConversionPercent),
      ToFraction(e.opportunityConversionPercent),
      e.averageDealSize,
      e.costPerLead,
      e.costPerMeeting,
      e.meetingsHeld,
      e.followUpsPerLead,
      e.salesCycleLength,
      e.cogs,
      e.customerAcquisitionCost,
      e.contractLength,
      e.avgCustomerLifetimeValue,
      ToFraction(e.churnPercent),
      e.operatingExpenses,
      e.salesTeamSalary,
      ToFraction(e.salesCommissionPercent),
      e.marketingSpend,
      e.productDevCost,
      ToFraction(e.discountPercent),
      ToFraction(e.refundPercent),
      ToFraction(e.seasonalityPercent)
    )
  }

  /** Writes read inputs back in entered units: the inverse of `Read`. */
  function Unread(i: Inputs): (e: Entries)
  {
    Entries(
      i.leadsGenerated,
      i.leadConversionRate * 100.0,
      i.opportunityConversionRate * 100.0,
      i.averageDealSize,
      i.costPerLead,
      i.costPerMeeting,
      i.meetingsHeld,
      i.followUpsPerLead,
      i.salesCycleLength,
      i.cogs,
      i.customerAcquisitionCost,
      i.contractLength,
      i.avgCustomerLifetimeValue,
      i.churnRate * 100.0,
      i.operatingExpenses,
      i.salesTeamSalary,
      i.salesCommissionRate * 100.0,
      i.marketingSpend,
      i.productDevCost,
      i.discountRate * 100.0,
      i.refundRate * 100.0,
      i.seasonalityAdjustment * 100.0
    )
  }

  /** Reading loses nothing: the entries can be recovered from the inputs, and
      the inputs from the entries. */
  lemma ReadRoundTrip(e: Entries, i: Inputs)
    ensures Unread(Read(e)) == e
    ensures Read(Unread(i)) == i
  {
  }

  /** Entries within the widgets' bounds read as inputs within range, and
      only such entries do. */
  lemma ReadWithinRanges(e: Entries)
    ensures WithinWidgetRanges(e) <==> InRange(Read(e))
  {
    RateFraction(e.leadConversionPercent);
    RateFraction(e.opportunityConversionPercent);
    RateFraction(e.churnPercent);
    RateFraction(e.salesCommissionPercent);
    RateFraction(e.discountPercent);
    RateFraction(e.refundPercent);
    ChangeFraction(e.seasonalityPercent);
  }

  /** The form's initial widget values. */
  function Defaults(): (e: Entries)
    ensures WithinWidgetRanges(e)
  {
    Entries(
      leadsGenerated := 100.0,
      leadConversionPercent := 20.0,
      opportunityConversionPercent := 30.0,
      averageDealSize := 1000.0,
      costPerLead := 10.0,
      costPerMeeting := 50.0,
      meetingsHeld := 30,
      followUpsPerLead := 3,
      salesCycleLength := 30,
      cogs := 5000.0,
      customerAcquisitionCost := 200.0,
      contractLength := 12,
      avgCustomerLifetimeValue := 5000.0,
      churnPercent := 10.0,
      operatingExpenses := 10000.0,
      salesTeamSalary := 20000.0,
      salesCommissionPercent := 5.0,
      marketingSpend := 5000.0,
      productDevCost := 10000.0,
      discountPercent := 10.0,
      refundPercent := 5.0,
      seasonalityPercent := 10.0
    )
  }
}
