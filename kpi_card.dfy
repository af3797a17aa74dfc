/** The trend colour of a KPI card (src/components/dashboard/kpi-card.tsx):
    green when the figure moved the good way, red otherwise; for the churn
    rate, down is the good way. */
module KpiCard {
  datatype Trend = Up | Down

  const ChurnTitle: string := "Churn Rate"
  const Good: string := "text-emerald-600"
  const Bad: string := "text-red-600"

  function TrendClass(trend: Trend, title: string): string {
    if trend == Up && title != ChurnTitle then Good
    else if trend == Down && title == ChurnTitle then Good
    else Bad
  }

  /** Green exactly when the trend is up for an ordinary figure or down for
      the churn rate; red in every other case. */
  lemma GreenIffGoodDirection(trend: Trend, title: string)
    ensures TrendClass(trend, title) == Good <==> (trend == Up <==> title != ChurnTitle)
    ensures TrendClass(trend, title) == Good || TrendClass(trend, title) == Bad
  {
  }
}
