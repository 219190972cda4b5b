/** The savings and emergency-fund page: a ledger of deposits and
    withdrawals, the fund goal of six months of living costs, and the savings
    level reached by the months of costs the balance covers. */
module AhorrosFondo {
  import opened Wrappers
  import opened Seqs
  import opened JsNumbers
  import CalidadVida

  datatype EntryType = Saving | Withdrawal

  /** A deposit has a positive amount, a withdrawal a negative one. */
  datatype SavingEntry = SavingEntry(id: string, name: string, amount: real, kind: EntryType, createdAt: string)

  datatype SavingsLevel = SavingsLevel(id: int, name: string, monthsRequired: real)

  const SavingsLevels: seq<SavingsLevel> := [
    SavingsLevel(1, "Principiante", 0.5),
    SavingsLevel(2, "Básico", 1.0),
    SavingsLevel(3, "Intermedio", 3.0),
    SavingsLevel(4, "Avanzado", 6.0),
    SavingsLevel(5, "Experto", 12.0)
  ]

  /** The levels are numbered 1..5 and ask for more months one after another. */
  lemma LevelsOrdered()
    ensures |SavingsLevels| == 5
    ensures forall i :: 0 <= i < 5 ==> SavingsLevels[i].id == i + 1
    ensures forall i, j :: 0 <= i < j < 5 ==> SavingsLevels[i].monthsRequired < SavingsLevels[j].monthsRequired
  {
  }

  function Amount(e: SavingEntry): real
  {
    e.amount
  }

  predicate IsDeposit(e: SavingEntry)
  {
    e.kind == Saving
  }

  predicate IsWithdrawal(e: SavingEntry)
  {
    e.kind == Withdrawal
  }

  /** `getTotalSavings()`: the deposits plus the (negative) withdrawals. */
  function TotalSavings(savings: seq<SavingEntry>): (t: real)
    ensures t == Sum(Filter(savings, IsDeposit), Amount) + Sum(Filter(savings, IsWithdrawal), Amount)
  {
    SumSplit(savings, IsDeposit, IsWithdrawal, Amount);
    Sum(savings, Amount)
  }

  /** `getMonthlyCostOfLiving()`: the total of the stored lifestyle items, or
      2 500 when nothing is stored (a stored empty list gives 0). */
  function MonthlyCostOfLiving(storedItems: Option<seq<CalidadVida.LifestyleItem>>): (c: real)
    ensures storedItems.None? ==> c == 2500.0
    ensures storedItems.Some? ==> c == CalidadVida.TotalDesiredCost(storedItems.value)
    ensures storedItems == Some([]) ==> c == 0.0
  {
    match storedItems
    case None => 2500.0
    case Some(items) => CalidadVida.TotalDesiredCost(items)
  }

  /** `getEmergencyFundGoal()`: six months of living costs. */
  function EmergencyFundGoal(storedItems: Option<seq<CalidadVida.LifestyleItem>>): (g: real)
    ensures storedItems.None? ==> g == 15000.0
    ensures g == 6.0 * MonthlyCostOfLiving(storedItems)
  {
    MonthlyCostOfLiving(storedItems) * 6.0
  }

  /** `getMonthsCovered()`: the balance in months of living costs (infinite or
      NaN when the costs are 0). */
  function MonthsCovered(savings: seq<SavingEntry>, storedItems: Option<seq<CalidadVida.LifestyleItem>>): (m: Extended)
    ensures MonthlyCostOfLiving(storedItems) != 0.0 ==>
              m.Finite? && m.value * MonthlyCostOfLiving(storedItems) == TotalSavings(savings)
    ensures MonthlyCostOfLiving(storedItems) == 0.0 ==> !m.Finite?
    ensures storedItems.None? ==> m == Finite(TotalSavings(savings) / 2500.0)
  {
    Div(TotalSavings(savings), MonthlyCostOfLiving(storedItems))
  }

  /** `getProgressPercentage()`: the balance as a percentage of the fund goal,
      capped at 100. With a positive goal it is finite, exactly 100 once the
      balance reaches the goal and negative for a negative balance. */
  function ProgressPercentage(savings: seq<SavingEntry>, storedItems: Option<seq<CalidadVida.LifestyleItem>>): (r: Extended)
    ensures r.Finite? ==> r.value <= 100.0
    ensures !r.PosInf?
    ensures EmergencyFundGoal(storedItems) > 0.0 ==>
              r.Finite?
              && (r.value == 100.0 <==> TotalSavings(savings) >= EmergencyFundGoal(storedItems))
              && (r.value < 100.0 ==> r.value * EmergencyFundGoal(storedItems) == TotalSavings(savings) * 100.0)
    ensures EmergencyFundGoal(storedItems) > 0.0 && TotalSavings(savings) < 0.0 ==> r.value < 0.0
  {
    CappedPercent(TotalSavings(savings), EmergencyFundGoal(storedItems))
  }

  /** With nothing stored the goal is 15 000, so the progress is the balance
      over 150, capped at 100. */
  lemma DefaultGoalProgress(savings: seq<SavingEntry>)
    ensures var total := TotalSavings(savings);
            ProgressPercentage(savings, None) == Finite(if total >= 15000.0 then 100.0 else total / 150.0)
  {
    var total := TotalSavings(savings);
    var r := ProgressPercentage(savings, None);
    if total < 15000.0 {
      assert r.value * 15000.0 == total * 100.0;
    }
  }

  /** A stored empty list makes the goal 0: the division gives 100 for a
      positive balance (Infinity, capped), NaN for a zero balance and
      -Infinity for a negative one. */
  lemma EmptyListGoalDividesByZero(savings: seq<SavingEntry>)
    ensures EmergencyFundGoal(Some([])) == 0.0
    ensures TotalSavings(savings) > 0.0 ==> ProgressPercentage(savings, Some([])) == Finite(100.0)
    ensures TotalSavings(savings) == 0.0 ==> ProgressPercentage(savings, Some([])).NaN?
    ensures TotalSavings(savings) < 0.0 ==> ProgressPercentage(savings, Some([])).NegInf?
  {
  }

  /** `monthsCovered >= level.monthsRequired`, the "achieved" mark of a level. */
  predicate Achieved(months: Extended, i: nat)
    requires i < |SavingsLevels|
  {
    AtLeast(months, SavingsLevels[i].monthsRequired)
  }

  /** The achieved levels are always a prefix of the table. */
  lemma AchievedPrefix(months: Extended, i: nat, j: nat)
    requires i <= j < |SavingsLevels| && Achieved(months, j)
    ensures Achieved(months, i)
  {
    LevelsOrdered();
  }

  /** `getCurrentLevel()`: scanning from the top, the first level whose months
      are covered, or the first level when none is. */
  method GetCurrentLevel(months: Extended) returns (level: SavingsLevel)
    ensures level in SavingsLevels && 1 <= level.id <= 5 && level == SavingsLevels[level.id - 1]
    ensures Achieved(months, level.id - 1) || level.id == 1
    ensures forall j :: level.id <= j < |SavingsLevels| ==> !Achieved(months, j)
  {
    var i := |SavingsLevels| - 1;
    while i >= 0
      invariant -1 <= i < |SavingsLevels|
      invariant forall j :: i < j < |SavingsLevels| ==> !Achieved(months, j)
    {
      if Achieved(months, i) {
        return SavingsLevels[i];
      }
      i := i - 1;
    }
    return SavingsLevels[0];
  }

  /** When half a month is covered the current level is the last achieved
      one: it is achieved and the next level is not. */
  lemma CurrentIsLastAchieved(months: Extended, level: SavingsLevel)
    requires level in SavingsLevels && 1 <= level.id <= 5 && level == SavingsLevels[level.id - 1]
    requires Achieved(months, level.id - 1) || level.id == 1
    requires forall j :: level.id <= j < |SavingsLevels| ==> !Achieved(months, j)
    requires AtLeast(months, 0.5)
    ensures Achieved(months, level.id - 1)
    ensures forall j :: 0 <= j < |SavingsLevels| ==> (Achieved(months, j) <==> j < level.id)
  {
    forall j | 0 <= j < |SavingsLevels| ensures Achieved(months, j) <==> j < level.id {
      if j < level.id {
        AchievedPrefix(months, j, level.id - 1);
      }
    }
  }

  datatype WithdrawalOutcome = Invalid | ExceedsBalance | Recorded

  /** The fund page state: its ledger. */
  class SavingsFund {
    var savings: seq<SavingEntry>

    constructor(saved: seq<SavingEntry>)
      ensures savings == saved
    {
      savings := saved;
    }

    /** `addSaving`: an empty name or an amount of 0 or less is refused;
        otherwise one deposit is appended. */
    method AddSaving(id: string, name: string, amount: real, createdAt: string) returns (added: bool)
      modifies this
      ensures added <==> name != "" && amount > 0.0
      ensures added ==> savings == old(savings) + [SavingEntry(id, name, amount, Saving, createdAt)]
      ensures !added ==> savings == old(savings)
      ensures added ==> TotalSavings(savings) == TotalSavings(old(savings)) + amount
    {
      if name == "" || amount <= 0.0 {
        return false;
      }
      SumAppend(savings, SavingEntry(id, name, amount, Saving, createdAt), Amount);
      savings := savings + [SavingEntry(id, name, amount, Saving, createdAt)];
      added := true;
    }

    /** `addWithdrawal`: an empty name, an amount of 0 or less, or an amount
        above the balance is refused; otherwise one withdrawal holding the
        negated amount is appended, and the balance stays at 0 or more. */
    method AddWithdrawal(id: string, name: string, amount: real, createdAt: string)
      returns (outcome: WithdrawalOutcome)
      modifies this
      ensures outcome == Invalid <==> name == "" || amount <= 0.0
      ensures outcome == ExceedsBalance <==> name != "" && amount > 0.0 && amount > TotalSavings(old(savings))
      ensures outcome == Recorded ==>
                savings == old(savings) + [SavingEntry(id, name, -amount, Withdrawal, createdAt)]
                && TotalSavings(savings) == TotalSavings(old(savings)) - amount
                && TotalSavings(savings) >= 0.0
      ensures outcome != Recorded ==> savings == old(savings)
    {
      if name == "" || amount <= 0.0 {
        return Invalid;
      }
      var totalSavings := TotalSavings(savings);
      if amount > totalSavings {
        return ExceedsBalance;
      }
      SumAppend(savings, SavingEntry(id, name, -amount, Withdrawal, createdAt), Amount);
      savings := savings + [SavingEntry(id, name, -amount, Withdrawal, createdAt)];
      outcome := Recorded;
    }

    /** `deleteSaving(id)`: every entry with that id goes, the others stay in
        order. There is no balance check. */
    method DeleteSaving(id: string)
      modifies this
      ensures savings == Filter(old(savings), (e: SavingEntry) => e.id != id)
      ensures forall e :: e in savings <==> e in old(savings) && e.id != id
    {
      savings := Filter(savings, (e: SavingEntry) => e.id != id);
    }
  }

  /** Deleting a deposit can leave the balance negative: deposit 100, withdraw
      50, then delete the deposit. */
  lemma DeleteCanOverdraw()
    ensures var ledger := [SavingEntry("a", "nómina", 100.0, Saving, ""),
                           SavingEntry("b", "retiro", -50.0, Withdrawal, "")];
            TotalSavings(ledger) == 50.0
            && TotalSavings(Filter(ledger, (e: SavingEntry) => e.id != "a")) == -50.0
  {
    var deposit := SavingEntry("a", "nómina", 100.0, Saving, "");
    var withdrawal := SavingEntry("b", "retiro", -50.0, Withdrawal, "");
    assert [deposit, withdrawal] == [deposit] + [withdrawal];
    SumPrepend(withdrawal, [], Amount);
    assert [withdrawal] + [] == [withdrawal];
    SumPrepend(deposit, [withdrawal], Amount);
    var kept := (e: SavingEntry) => e.id != "a";
    assert [deposit, withdrawal][1..] == [withdrawal];
    assert [withdrawal][1..] == [];
    assert Filter([deposit, withdrawal], kept) == [withdrawal];
  }
}
