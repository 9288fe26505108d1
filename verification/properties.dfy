/** Properties of the derived-metric chain under the form's widget bounds:
    funnel bounds, guard behaviour, decompositions, bounded revenue
    adjustments and the inputs the chain ignores. */
module MetricsProperties {
  import opened Wrappers
  import opened Form
  import opened Metrics

  /** Scaling an amount that is not negative by a rate keeps it between 0 and
      the amount. */
  lemma ScaleByRate(a: real, r: real, scaled: real)
    requires a >= 0.0 && IsRate(r)
    requires scaled == a * r
    ensures 0.0 <= scaled <= a
  {
    assert a * r <= a * 1.0 by {
      assert a * (1.0 - r) >= 0.0;
    }
  }

  /** Multiplying by a factor that is not negative preserves order. */
  lemma ScaleMonotone(a: real, b: real, k: real, scaledA: real, scaledB: real)
    requires a <= b && k >= 0.0
    requires scaledA == a * k && scaledB == b * k
    ensures scaledA <= scaledB
  {
    assert (b - a) * k >= 0.0;
  }

  /** The funnel narrows: customers never exceed opportunities, which never
      exceed leads, and revenue is never negative. */
  lemma FunnelNarrows(i: Inputs)
    requires i.leadsGenerated >= 0.0
    requires IsRate(i.leadConversionRate) && IsRate(i.opportunityConversionRate)
    requires i.averageDealSize >= 0.0
    ensures var m := Compute(i);
      0.0 <= m.customers <= m.opportunities <= i.leadsGenerated && m.revenue >= 0.0
  {
    var m := Compute(i);
    ScaleByRate(i.leadsGenerated, i.leadConversionRate, m.opportunities);
    ScaleByRate(m.opportunities, i.opportunityConversionRate, m.customers);
    ScaleMonotone(0.0, m.customers, i.averageDealSize, 0.0, m.revenue);
  }

  /** Retention is the complement of churn and is itself a rate. */
  lemma RetentionIsRate(i: Inputs)
    requires IsRate(i.churnRate)
    ensures IsRate(Compute(i).customerRetentionRate)
    ensures Compute(i).customerRetentionRate == 1.0 - i.churnRate
  {
  }

  /** Profit margin is 0 exactly when there is no revenue or costs consume
      exactly the revenue; otherwise it is the operating profit per unit of
      revenue, and with costs that are not negative it is at most 1. */
  lemma ProfitMarginGuard(i: Inputs)
    ensures var m := Compute(i);
      m.revenue <= 0.0 ==> m.profitMargin == 0.0
    ensures var m := Compute(i);
      m.revenue > 0.0 ==> m.profitMargin == (m.revenue - (i.cogs + i.operatingExpenses)) / m.revenue
    ensures var m := Compute(i);
      i.cogs >= 0.0 && i.operatingExpenses >= 0.0 ==> m.profitMargin <= 1.0
    ensures var m := Compute(i);
      m.profitMargin == 0.0 <==> m.revenue <= 0.0 || i.cogs + i.operatingExpenses == m.revenue
  {
    var m := Compute(i);
    if m.revenue > 0.0 {
      PositiveScaleSign(m.revenue, m.profitMargin, m.operatingProfit);
    }
  }

  /** ROI is 0 while nothing is spent on marketing or development; otherwise it
      times the spend is 100 times the net profit, so its sign is the sign of
      the net profit. */
  lemma RoiGuard(i: Inputs)
    ensures var m := Compute(i);
      m.totalMarketingSpend <= 0.0 ==> m.roi == 0.0
    ensures var m := Compute(i);
      m.totalMarketingSpend > 0.0 ==> m.roi * m.totalMarketingSpend == 100.0 * m.netProfit
    ensures var m := Compute(i);
      m.totalMarketingSpend > 0.0 ==> (m.roi < 0.0 <==> m.netProfit < 0.0)
  {
  }

  /** Net profit is revenue less every cost, each stated in terms of the inputs;
      the break-even point is the cost of leads plus the cost of meetings. */
  lemma Decomposition(i: Inputs)
    ensures var m := Compute(i);
      m.netProfit == m.revenue - i.cogs - i.operatingExpenses
                     - m.revenue * i.salesCommissionRate
                     - i.marketingSpend - i.productDevCost
    ensures Compute(i).breakEvenPoint
      == i.leadsGenerated * i.costPerLead + (i.meetingsHeld as real) * i.costPerMeeting
    ensures Compute(i).revenue
      == i.leadsGenerated * i.leadConversionRate * i.opportunityConversionRate * i.averageDealSize
  {
  }

  /** The revenue adjustments stay within the revenue: discounts and refunds
      are each at most the revenue, the breakdown amounts never increase from
      gross to after refunds, revenue after discounts is not negative, and the
      seasonality-adjusted revenue lies in [0, 2 * revenue]. */
  lemma AdjustmentsBounded(i: Inputs)
    requires i.leadsGenerated >= 0.0
    requires IsRate(i.leadConversionRate) && IsRate(i.opportunityConversionRate)
    requires i.averageDealSize >= 0.0
    requires IsRate(i.discountRate) && IsRate(i.refundRate)
    requires -1.0 <= i.seasonalityAdjustment <= 1.0
    ensures var m := Compute(i);
      0.0 <= m.discountsGiven <= m.revenue && 0.0 <= m.refundsGiven <= m.revenue
    ensures var b := Breakdown(Compute(i));
      b.grossRevenue >= b.afterDiscounts >= b.afterRefunds && b.afterDiscounts >= 0.0
    ensures var m := Compute(i);
      0.0 <= m.seasonalityAdjustedRevenue <= 2.0 * m.revenue
  {
    var m := Compute(i);
    FunnelNarrows(i);
    ScaleByRate(m.revenue, i.discountRate, m.discountsGiven);
    ScaleByRate(m.revenue, i.refundRate, m.refundsGiven);
    ScaleByRate(m.revenue, (1.0 + i.seasonalityAdjustment) / 2.0,
                m.seasonalityAdjustedRevenue / 2.0);
  }

  /** Revenue after both discounts and refunds can fall below zero, and with
      revenue it does exactly when the two rates add up to more than 1. */
  lemma AfterRefundsSign(i: Inputs)
    requires Compute(i).revenue > 0.0
    ensures Breakdown(Compute(i)).afterRefunds >= 0.0 <==> i.discountRate + i.refundRate <= 1.0
  {
    var m := Compute(i);
    PositiveScaleSign(m.revenue, 1.0 - (i.discountRate + i.refundRate), Breakdown(m).afterRefunds);
  }

  /** A positive factor keeps the sign of what it scales, and scales a
      factor of at most 1 to at most itself. */
  lemma PositiveScaleSign(a: real, x: real, scaled: real)
    requires a > 0.0
    requires scaled == a * x
    ensures scaled >= 0.0 <==> x >= 0.0
    ensures scaled == 0.0 <==> x == 0.0
    ensures scaled <= a <==> x <= 1.0
  {
    if x < 0.0 {
      assert a * x < 0.0;
    }
    if x > 1.0 {
      assert a * (x - 1.0) > 0.0;
    }
  }

  /** Without leads the funnel is empty: no opportunities, customers or
      revenue, hence no revenue-based amount, a profit margin of 0 and a loss
      of exactly the costs. */
  lemma NoLeadsNoRevenue(i: Inputs)
    requires i.leadsGenerated == 0.0
    ensures var m := Compute(i);
      && m.opportunities == 0.0 && m.customers == 0.0 && m.revenue == 0.0
      && m.commission == 0.0 && m.discountsGiven == 0.0 && m.refundsGiven == 0.0
      && m.seasonalityAdjustedRevenue == 0.0 && m.profitMargin == 0.0
      && m.totalCostLeads == 0.0
      && m.netProfit == -(i.cogs + i.operatingExpenses + i.marketingSpend + i.productDevCost)
  {
  }

  /** Follow-ups per lead, sales-cycle length, contract length and sales-team
      salary are read but never used: changing them changes no metric. */
  lemma UnusedInputs(i: Inputs, followUps: nat, cycle: nat, contract: nat, salary: real)
    ensures Compute(i.(followUpsPerLead := followUps, salesCycleLength := cycle,
                       contractLength := contract, salesTeamSalary := salary))
         == Compute(i)
    ensures CltvCacRatio(i.(followUpsPerLead := followUps, salesCycleLength := cycle,
                            contractLength := contract, salesTeamSalary := salary))
         == CltvCacRatio(i)
  {
    var j := i.(followUpsPerLead := followUps, salesCycleLength := cycle,
                contractLength := contract, salesTeamSalary := salary);
    assert UsedInputs(j) == UsedInputs(i);
    DependsOnlyOnUsedInputs(i, j);
    CltvCacReadsOnlyCacCltv(i, j);
  }

  /** The inputs the metric chain reads, in the order it reads them. */
  function UsedInputs(i: Inputs): seq<real>
  {
    [i.churnRate, i.leadsGenerated, i.leadConversionRate, i.opportunityConversionRate,
     i.averageDealSize, i.cogs, i.operatingExpenses, i.costPerLead, i.meetingsHeld as real,
     i.costPerMeeting, i.salesCommissionRate, i.marketingSpend, i.productDevCost,
     i.discountRate, i.refundRate, i.seasonalityAdjustment]
  }

  /** The metrics are a function of the used inputs alone: two input sets that
      agree on them derive the same metrics, whatever their other fields
      (acquisition cost and lifetime value included) hold. */
  lemma DependsOnlyOnUsedInputs(i: Inputs, j: Inputs)
    requires UsedInputs(i) == UsedInputs(j)
    ensures Compute(i) == Compute(j)
  {
    assert UsedInputs(i)[1] == UsedInputs(j)[1];
    assert i.meetingsHeld == j.meetingsHeld by {
      assert UsedInputs(i)[8] == UsedInputs(j)[8];
    }
  }

  /** More leads, with everything else equal, never mean less revenue. */
  lemma RevenueMonotoneInLeads(i: Inputs, moreLeads: real)
    requires i.leadConversionRate >= 0.0 && i.opportunityConversionRate >= 0.0
    requires i.averageDealSize >= 0.0
    requires moreLeads >= i.leadsGenerated
    ensures Compute(i.(leadsGenerated := moreLeads)).revenue >= Compute(i).revenue
  {
    var m, more := Compute(i), Compute(i.(leadsGenerated := moreLeads));
    ScaleMonotone(i.leadsGenerated, moreLeads, i.leadConversionRate,
                  m.opportunities, more.opportunities);
    ScaleMonotone(m.opportunities, more.opportunities, i.opportunityConversionRate,
                  m.customers, more.customers);
    ScaleMonotone(m.customers, more.customers, i.averageDealSize, m.revenue, more.revenue);
  }

  /** The CLTV to CAC ratio reads only the acquisition cost and the lifetime
      value: input sets that agree on those two show the same ratio, or both
      show "N/A". A defined ratio is never negative for a lifetime value that
      is not. */
  lemma CltvCacReadsOnlyCacCltv(i: Inputs, j: Inputs)
    requires i.customerAcquisitionCost == j.customerAcquisitionCost
    requires i.avgCustomerLifetimeValue == j.avgCustomerLifetimeValue
    ensures CltvCacRatio(i) == CltvCacRatio(j)
    ensures CltvCacRatio(i).Some? && i.avgCustomerLifetimeValue >= 0.0 ==>
      CltvCacRatio(i).value >= 0.0
  {
  }

  /** End to end: whatever the user enters within the widgets' bounds, the
      funnel narrows, retention is a rate, the revenue adjustments stay within
      the revenue and the profit margin is at most 1. */
  lemma FormEntriesBounded(e: Entries)
    requires WithinWidgetRanges(e)
    ensures var m := Compute(Read(e));
      && 0.0 <= m.customers <= m.opportunities <= e.leadsGenerated
      && m.revenue >= 0.0
      && IsRate(m.customerRetentionRate)
      && 0.0 <= m.discountsGiven <= m.revenue && 0.0 <= m.refundsGiven <= m.revenue
      && 0.0 <= m.seasonalityAdjustedRevenue <= 2.0 * m.revenue
      && m.profitMargin <= 1.0
  {
    var i := Read(e);
    ReadWithinRanges(e);
    FunnelNarrows(i);
    RetentionIsRate(i);
    AdjustmentsBounded(i);
    ProfitMarginGuard(i);
  }
}
