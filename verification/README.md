# Sales metrics calculator — Dafny model

This project models the metric derivation of the "Comprehensive Sales Metrics
Simulator", a single-page form that turns about twenty sales, marketing and
financial figures into funnel, revenue, cost, profit and return metrics.

- `percent.dfy` (module `Percent`): the conversion of a percentage entry to the
  fraction the formulas use (`ToFraction`).
- `form.dfy` (module `Form`): the form's entries as typed (`Entries`), the
  widgets' bounds (`WithinWidgetRanges`), the values as the formulas see them
  (`Inputs`, `InRange`), reading the form (`Read`) and its inverse (`Unread`),
  and the form's initial values (`Defaults`).
- `metrics.dfy` (module `Metrics`): the derived-metric chain (`Compute`), the
  two guarded ratios (`ProfitMargin`, `Roi`), the CLTV to CAC ratio that is
  only defined for a positive acquisition cost (`CltvCacRatio`), and the four
  amounts of the revenue-breakdown chart (`Breakdown`).
- `properties.dfy` (module `MetricsProperties`): bounds, guards,
  decompositions, monotonicity and irrelevant inputs.
- `scenarios.dfy` (module `Scenarios`): the worked example of the initial
  values.
- `wrappers.dfy` (module `Wrappers`): `Option`.

Quantities are Dafny `real`s: the formulas are exact closed-form arithmetic.
The integer widgets (meetings held, follow-ups per lead, sales-cycle length,
contract length) are `nat`, since their only bound is a minimum of 0.

The CLTV to CAC ratio shows "N/A" unless the acquisition cost is positive
(streamlit_app.py:100), so `CltvCacRatio` returns `None` there.

## Model

| member | source | states |
|---|---|---|
| Percent.ToFraction | streamlit_app.py:17-18 | the fraction times 100 is the entered percentage; zero and positive entries stay zero and positive |
| Percent.RateFraction | streamlit_app.py:17-18 | an entry lies in [0, 100] percent if and only if its fraction lies in [0, 1] |
| Percent.ChangeFraction | streamlit_app.py:47 | a seasonality entry lies in [-100, 100] percent if and only if its fraction lies in [-1, 1] |
| Percent.ToFractionMonotone | streamlit_app.py:17-18 | conversion preserves order and is injective, so two distinct entries never read as the same rate |
| Form.Read | streamlit_app.py:16-47 | reading divides exactly the seven percentage entries by 100 and keeps every other entry: converting the read inputs back gives the entries typed |
| Form.ReadRoundTrip | streamlit_app.py:16-47 | reading the form loses nothing: entries and inputs convert back and forth exactly |
| Form.ReadWithinRanges | streamlit_app.py:16-47 | entries respect every widget's min/max exactly when the read inputs have amounts at least 0, rates in [0, 1] and seasonality in [-1, 1] |
| Form.Defaults | streamlit_app.py:16-47 | the initial widget values respect every widget's bounds |
| Metrics.ProfitMargin | streamlit_app.py:58 | with no positive revenue the margin is 0; otherwise margin times revenue is revenue less goods and operating costs |
| Metrics.Roi | streamlit_app.py:72 | with no positive spend the ROI is 0; otherwise ROI times spend is 100 times net profit |
| Metrics.Compute | streamlit_app.py:54-72 | retention and churn add up to 1; with positive revenue, margin times revenue is the operating profit; with positive spend, ROI times spend is 100 times net profit; net profit is revenue less its commission share, less cogs, operating expenses, marketing spend and development cost |
| Metrics.CltvCacRatio | streamlit_app.py:100 | the ratio is defined exactly when the acquisition cost is positive, and then times the cost gives the lifetime value |
| Metrics.Breakdown | streamlit_app.py:127-130 | gross revenue exceeds revenue after refunds by discounts plus refunds, and revenue after discounts exceeds it by the refunds |
| MetricsProperties.FunnelNarrows | streamlit_app.py:55-57 | with leads at least 0 and rates in [0, 1]: 0 <= customers <= opportunities <= leads, and revenue is at least 0 |
| MetricsProperties.RetentionIsRate | streamlit_app.py:54 | retention is 1 minus churn and lies in [0, 1] when churn does |
| MetricsProperties.ProfitMarginGuard | streamlit_app.py:58 | margin is 0 without positive revenue, otherwise (revenue - (cogs + operating expenses)) / revenue; it is at most 1 when costs are not negative, and it is 0 exactly when there is no revenue or the costs equal the revenue |
| MetricsProperties.RoiGuard | streamlit_app.py:62-72 | ROI is 0 without positive spend; otherwise ROI times spend is 100 times net profit, and ROI is negative exactly when net profit is |
| MetricsProperties.Decomposition | streamlit_app.py:55-71 | net profit is revenue less cogs, operating expenses, commission, marketing spend and development cost; break-even is leads times cost per lead plus meetings times cost per meeting; revenue is the product of the funnel factors |
| MetricsProperties.AdjustmentsBounded | streamlit_app.py:63-65 | within range, discounts and refunds each lie in [0, revenue], the breakdown never increases from gross to after refunds, revenue after discounts is at least 0, and seasonality-adjusted revenue lies in [0, 2 * revenue] |
| MetricsProperties.AfterRefundsSign | streamlit_app.py:129 | with positive revenue, revenue after discounts and refunds is at least 0 exactly when the two rates add up to at most 1 |
| MetricsProperties.NoLeadsNoRevenue | streamlit_app.py:55-70 | without leads, funnel, revenue and every revenue-based amount are 0, the margin is 0 and net profit is minus the sum of the costs |
| MetricsProperties.DependsOnlyOnUsedInputs | streamlit_app.py:54-72 | two input sets that agree on the sixteen inputs the chain reads derive identical metrics |
| MetricsProperties.UnusedInputs | streamlit_app.py:23-34 | follow-ups per lead, sales-cycle length, contract length and sales-team salary change neither any metric `Compute` derives nor the CLTV to CAC ratio |
| MetricsProperties.RevenueMonotoneInLeads | streamlit_app.py:55-57 | with non-negative rates and deal size, more leads never mean less revenue |
| MetricsProperties.CltvCacReadsOnlyCacCltv | streamlit_app.py:100 | the ratio depends on the acquisition cost and the lifetime value alone, and a defined ratio is not negative when the lifetime value is not |
| MetricsProperties.FormEntriesBounded | streamlit_app.py:16-72 | for any entries within the widgets' bounds, the funnel narrows, retention is a rate, the revenue adjustments stay within revenue and the margin is at most 1 |
| Scenarios.DefaultScenario | streamlit_app.py:16-100 | the initial values give opportunities 20, customers 6, revenue 6000, gross profit 1000, operating profit -9000, commission 300, spend 15000, net profit -24300, ROI -162, break-even 2500, retention 0.9, margin -1.5, breakdown 6000/5400/5100/6600 and CLTV to CAC 25 |

## Left out

- Page configuration, the form's layout and widget rendering, columns, tabs
  and `st.metric` rendering
  (streamlit_app.py:5-49, 75-114): user interface, no behaviour beyond the
  values the model computes.
- Currency and percentage formatting (`£{…:,.2f}`, `:.2%`, `:.2f}x`):
  presentation only.
- The pandas and plotly chart construction (streamlit_app.py:120-149): foreign
  library calls. Only the revenue-breakdown amounts (lines 127-130) are
  modelled; the profit-waterfall values (line 141) are revenue, gross profit and
  net profit from `Compute`, and, negated, the inputs cogs and operating
  expenses and the metrics commission and total marketing spend; they are not
  modelled separately.
- IEEE-754 rounding: quantities are exact `real`s, as the closed-form formulas
  intend. The Python `0` that the guards return is an integer; the model uses
  `0.0`, the same value.
- The form's submit gate (`if submitted`, line 52): the model computes the
  metrics for whatever entries are given.
