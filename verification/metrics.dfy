/** The derived-metric chain: from the read form inputs to funnel, revenue,
    cost, profit and return figures. Two ratios are guarded: a ratio whose
    denominator is not positive reads as 0, never as a division by zero. */
module Metrics {
  import opened Wrappers
  import opened Form

  /** Every metric of the derivation chain (streamlit_app.py:54-72), one field
      per derived quantity; the CLTV to CAC ratio is `CltvCacRatio`. */
  datatype MetricSet = MetricSet(
    customerRetentionRate: real,
    opportunities: real,
    customers: real,
    revenue: real,
    profitMargin: real,
    totalCostLeads: real,
    totalCostMeetings: real,
    commission: real,
    totalMarketingSpend: real,
    discountsGiven: real,
    refundsGiven: real,
    seasonalityAdjustedRevenue: real,
    grossProfit: real,
    operatingProfit: real,
    netProfit: real,
    breakEvenPoint: real,
    roi: real
  )

  /** Share of revenue left after goods and operating costs; 0 while there is
      no revenue. */
  function ProfitMargin(revenue: real, cogs: real, operatingExpenses: real): (pm: real)
    ensures revenue <= 0.0 ==> pm == 0.0
    ensures revenue > 0.0 ==> pm * revenue == revenue - (cogs + operatingExpenses)
  {
    if revenue > 0.0 then (revenue - (cogs + operatingExpenses)) / revenue else 0.0
  }

  /** Net profit as a percentage of marketing spend; 0 while nothing is spent. */
  function Roi(netProfit: real, totalMarketingSpend: real): (r: real)
    ensures totalMarketingSpend <= 0.0 ==> r == 0.0
    ensures totalMarketingSpend > 0.0 ==> r * totalMarketingSpend == 100.0 * netProfit
  {
    if totalMarketingSpend > 0.0 then (netProfit / totalMarketingSpend) * 100.0 else 0.0
  }

  /** Derives every metric from the inputs. */
  function Compute(i: Inputs): (m: MetricSet)
    ensures m.customerRetentionRate + i.churnRate == 1.0
    ensures m.revenue > 0.0 ==> m.profitMargin * m.revenue == m.operatingProfit
    ensures m.totalMarketingSpend > 0.0 ==> m.roi * m.totalMarketingSpend == 100.0 * m.netProfit
    ensures m.netProfit == m.revenue * (1.0 - i.salesCommissionRate)
                           - (i.cogs + i.operatingExpenses + i.marketingSpend + i.productDevCost)
  {
    var customerRetentionRate := 1.0 - i.churnRate;
    var opportunities := i.leadsGenerated * i.leadConversionRate;
    var customers := opportunities * i.opportunityConversionRate;
    var revenue := customers * i.averageDealSize;
    var profitMargin := ProfitMargin(revenue, i.cogs, i.operatingExpenses);
    var totalCostLeads := i.leadsGenerated * i.costPerLead;
    var totalCostMeetings := (i.meetingsHeld as real) * i.costPerMeeting;
    var commission := revenue * i.salesCommissionRate;
    var totalMarketingSpend := i.marketingSpend + i.productDevCost;
    var discountsGiven := revenue * i.discountRate;
    var refundsGiven := revenue * i.refundRate;
    var seasonalityAdjustedRevenue := revenue * (1.0 + i.seasonalityAdjustment);
    var grossProfit := revenue - i.cogs;
    var operatingProfit := grossProfit - i.operatingExpenses;
    var netProfit := operatingProfit - commission - totalMarketingSpend;
    var breakEvenPoint := totalCostLeads + totalCostMeetings;
    var roi := Roi(netProfit, totalMarketingSpend);
    MetricSet(
      customerRetentionRate, opportunities, customers, revenue, profitMargin,
      totalCostLeads, totalCostMeetings, commission, totalMarketingSpend,
      discountsGiven, refundsGiven, seasonalityAdjustedRevenue,
      grossProfit, operatingProfit, netProfit, breakEvenPoint, roi
    )
  }

  /** Lifetime value per unit of acquisition cost; defined only while the
      acquisition cost is positive (the calculator shows "N/A" otherwise). */
  function CltvCacRatio(i: Inputs): (r: Option<real>)
    ensures r.Some? <==> i.customerAcquisitionCost > 0.0
    ensures r.Some? ==> r.value * i.customerAcquisitionCost == i.avgCustomerLifetimeValue
  {
    if i.customerAcquisitionCost > 0.0 then
      Some(i.avgCustomerLifetimeValue / i.customerAcquisitionCost)
    else
      None
  }

  /** The four amounts of the revenue-breakdown chart. */
  datatype RevenueBreakdown = RevenueBreakdown(
    grossRevenue: real,
    afterDiscounts: real,
    afterRefunds: real,
    seasonalityAdjusted: real
  )

  function Breakdown(m: MetricSet): (b: RevenueBreakdown)
    ensures b.grossRevenue - b.afterRefunds == m.discountsGiven + m.refundsGiven
    ensures b.afterDiscounts - b.afterRefunds == m.refundsGiven
  {
    RevenueBreakdown(
      m.revenue,
      m.revenue - m.discountsGiven,
      m.revenue - m.discountsGiven - m.refundsGiven,
      m.seasonalityAdjustedRevenue
    )
  }
}
