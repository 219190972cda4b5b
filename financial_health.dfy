/** The dashboard's financial-health indicators: passive income against
    0.75 % of net worth, living costs against the same figure, and savings
    against three months of costs. */
module FinancialHealth {

  datatype WealthData = WealthData(patrimonioTotal: real, cashflow: real, gastos: real, nivelAhorro: real)

  datatype Health = Health(cashflowHealthy: bool, costoVidaHealthy: bool, ahorroHealthy: bool)

  /** `patrimonioMinimum` and `costoVidaMaximum`: 0.75 % of net worth. */
  function MonthlyShareOfWealth(patrimonioTotal: real): (t: real)
    ensures t * 400.0 == patrimonioTotal * 3.0
  {
    patrimonioTotal * 0.0075
  }

  /** `ahorroMinimum`: three months of costs. */
  function SavingsMinimum(gastos: real): real
  {
    gastos * 3.0
  }

  /** The three indicators, each a strict comparison. */
  function Indicators(w: WealthData): (h: Health)
    ensures h.cashflowHealthy <==> w.cashflow > MonthlyShareOfWealth(w.patrimonioTotal)
    ensures h.costoVidaHealthy <==> w.gastos < MonthlyShareOfWealth(w.patrimonioTotal)
    ensures h.ahorroHealthy <==> w.nivelAhorro > SavingsMinimum(w.gastos)
  {
    var threshold := MonthlyShareOfWealth(w.patrimonioTotal);
    Health(threshold < w.cashflow, threshold > w.gastos, SavingsMinimum(w.gastos) < w.nivelAhorro)
  }

  /** Sitting exactly on a threshold counts as unhealthy. */
  lemma EqualityIsUnhealthy(w: WealthData)
    ensures w.cashflow == w.patrimonioTotal * 0.0075 ==> !Indicators(w).cashflowHealthy
    ensures w.gastos == w.patrimonioTotal * 0.0075 ==> !Indicators(w).costoVidaHealthy
    ensures w.nivelAhorro == w.gastos * 3.0 ==> !Indicators(w).ahorroHealthy
  {
  }

  /** The first two indicators share one threshold, so both are healthy only
      when passive income exceeds living costs. */
  lemma BothHealthyMeansIncomeCoversCosts(w: WealthData)
    requires Indicators(w).cashflowHealthy && Indicators(w).costoVidaHealthy
    ensures w.cashflow > w.gastos
  {
  }

  /** With no positive net worth and non-negative costs, living costs are
      never healthy. */
  lemma NoWealthNoHealthyCosts(w: WealthData)
    requires w.patrimonioTotal <= 0.0 && w.gastos >= 0.0
    ensures !Indicators(w).costoVidaHealthy
  {
  }
}
