/** Worked examples of the whole pipeline, from form entries to the figures
    the calculator shows. */
module Scenarios {
  import opened Wrappers
  import opened Form
  import opened Metrics

  /** The form's initial values yield a loss: 20 opportunities,
      6 customers and 6000 of revenue against 15000 of marketing and
      development spend. */
  lemma DefaultScenario()
    ensures var m := Compute(Read(Defaults()));
      && m.opportunities == 20.0
      && m.customers == 6.0
      && m.revenue == 6000.0
      && m.grossProfit == 1000.0
      && m.operatingProfit == -9000.0
      && m.commission == 300.0
      && m.totalMarketingSpend == 15000.0
      && m.netProfit == -24300.0
      && m.roi == -162.0
      && m.breakEvenPoint == 2500.0
      && m.customerRetentionRate == 0.9
      && m.profitMargin == -1.5
    ensures Breakdown(Compute(Read(Defaults())))
      == RevenueBreakdown(6000.0, 5400.0, 5100.0, 6600.0)
    ensures CltvCacRatio(Read(Defaults())) == Some(25.0)
  {
  }
}
