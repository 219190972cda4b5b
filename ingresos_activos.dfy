/** The active-income page: salaries and other earned incomes with a pay
    frequency, converted to a monthly figure. */
module IngresosActivos {
  import opened Wrappers
  import opened Seqs

  /** `frequency` is 'monthly', 'bi-weekly', 'weekly', 'yearly' or
      'one-time'. */
  datatype Income = Income(id: string, name: string, amount: real, frequency: string)

  /** `getMonthlyAmount(income)`: 4.33 weeks or 2.17 fortnights a month, a
      twelfth of a yearly amount, nothing for a one-time payment, and the
      amount itself for any other frequency. */
  function MonthlyAmount(income: Income): (m: real)
    ensures income.frequency == "weekly" ==> m == income.amount * 4.33
    ensures income.frequency == "bi-weekly" ==> m == income.amount * 2.17
    ensures income.frequency == "yearly" ==> m * 12.0 == income.amount
    ensures income.frequency == "one-time" ==> m == 0.0
    ensures income.frequency !in {"weekly", "bi-weekly", "yearly", "one-time"} ==> m == income.amount
    ensures income.amount >= 0.0 ==> m >= 0.0
  {
    match income.frequency
    case "weekly" => income.amount * 4.33
    case "bi-weekly" => income.amount * 2.17
    case "yearly" => income.amount / 12.0
    case "one-time" => 0.0
    case _ => income.amount
  }

  /** `getTotalMonthlyIncome()`: never negative when no amount is. */
  function TotalMonthlyIncome(incomes: seq<Income>): (t: real)
    ensures (forall i :: 0 <= i < |incomes| ==> incomes[i].amount >= 0.0) ==> t >= 0.0
  {
    if forall i :: 0 <= i < |incomes| ==> incomes[i].amount >= 0.0 then
      SumNonNegative(incomes, MonthlyAmount);
      Sum(incomes, MonthlyAmount)
    else
      Sum(incomes, MonthlyAmount)
  }

  predicate IsRecurring(income: Income)
  {
    income.frequency != "one-time"
  }

  predicate IsOneTime(income: Income)
  {
    income.frequency == "one-time"
  }

  /** One-time incomes never count: the total is that of the recurring
      incomes alone. */
  lemma OneTimeIgnored(incomes: seq<Income>)
    ensures TotalMonthlyIncome(incomes) == TotalMonthlyIncome(Filter(incomes, IsRecurring))
  {
    SumSplit(incomes, IsRecurring, IsOneTime, MonthlyAmount);
    var oneTime := Filter(incomes, IsOneTime);
    assert forall i :: 0 <= i < |oneTime| ==> oneTime[i] in oneTime;
    SumZero(oneTime, MonthlyAmount);
  }

  /** With positive amounts the total is never negative. */
  lemma TotalNonNegative(incomes: seq<Income>)
    requires forall i :: 0 <= i < |incomes| ==> incomes[i].amount > 0.0
    ensures TotalMonthlyIncome(incomes) >= 0.0
  {
    SumNonNegative(incomes, MonthlyAmount);
  }

  /** The "average per source" card: the total over the number of incomes,
      shown only when there is at least one (otherwise "0" is shown). */
  function AveragePerSource(incomes: seq<Income>): (a: Option<real>)
    ensures a.None? <==> |incomes| == 0
    ensures a.Some? ==> a.value * |incomes| as real == TotalMonthlyIncome(incomes)
  {
    if |incomes| > 0 then Some(TotalMonthlyIncome(incomes) / |incomes| as real) else None
  }

  /** `getFrequencyLabel(frequency)`: the Spanish label, or the frequency
      itself when it is unknown. */
  function FrequencyLabel(frequency: string): (l: string)
    ensures frequency !in {"monthly", "bi-weekly", "weekly", "yearly", "one-time"} ==> l == frequency
    ensures frequency in {"monthly", "bi-weekly", "weekly", "yearly", "one-time"} ==>
              l in {"Mensual", "Quincenal", "Semanal", "Anual", "Pago único"}
    ensures frequency == "monthly" ==> l == "Mensual"
    ensures frequency == "bi-weekly" ==> l == "Quincenal"
    ensures frequency == "weekly" ==> l == "Semanal"
    ensures frequency == "yearly" ==> l == "Anual"
    ensures frequency == "one-time" ==> l == "Pago único"
  {
    match frequency
    case "monthly" => "Mensual"
    case "bi-weekly" => "Quincenal"
    case "weekly" => "Semanal"
    case "yearly" => "Anual"
    case "one-time" => "Pago único"
    case _ => frequency
  }

  /** The five frequencies get five different labels. */
  lemma FrequencyLabelsDistinct(f1: string, f2: string)
    requires f1 in {"monthly", "bi-weekly", "weekly", "yearly", "one-time"}
    requires f2 in {"monthly", "bi-weekly", "weekly", "yearly", "one-time"}
    requires f1 != f2
    ensures FrequencyLabel(f1) != FrequencyLabel(f2)
  {
  }

  /** The page state. */
  class IncomeLedger {
    var incomes: seq<Income>

    constructor(saved: seq<Income>)
      ensures incomes == saved
    {
      incomes := saved;
    }

    /** `addIncome`: an empty name or an amount of 0 or less (an unparsable
        amount reads as 0) is refused; otherwise one income is appended. */
    method AddIncome(id: string, name: string, parsedAmount: Option<real>, frequency: string)
      returns (added: bool)
      modifies this
      ensures added <==> name != "" && parsedAmount.GetOr(0.0) > 0.0
      ensures added ==> incomes == old(incomes) + [Income(id, name, parsedAmount.GetOr(0.0), frequency)]
                        && TotalMonthlyIncome(incomes)
                           == TotalMonthlyIncome(old(incomes)) + MonthlyAmount(Income(id, name, parsedAmount.GetOr(0.0), frequency))
      ensures !added ==> incomes == old(incomes)
    {
      var amount := parsedAmount.GetOr(0.0);
      if name == "" || amount <= 0.0 {
        return false;
      }
      var income := Income(id, name, amount, frequency);
      SumAppend(incomes, income, MonthlyAmount);
      incomes := incomes + [income];
      added := true;
    }

    /** `deleteIncome(id)`: the incomes with that id go, the rest keep their
        order. */
    method DeleteIncome(id: string)
      modifies this
      ensures incomes == Filter(old(incomes), (i: Income) => i.id != id)
      ensures forall i :: i in incomes <==> i in old(incomes) && i.id != id
      ensures IsSubseq(incomes, old(incomes))
    {
      incomes := Filter(incomes, (i: Income) => i.id != id);
    }
  }
}
