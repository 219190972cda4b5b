/** The passive-income ("cashflow") page: income sources paid monthly,
    quarterly or yearly, their monthly equivalent, the progress towards a
    monthly goal, and the sources grouped by category. */
module Cashflow {
  import opened Seqs
  import opened JsNumbers

  datatype Source = Source(
    id: string, name: string, amount: real, frequency: string, category: string, dateAdded: string)

  datatype CategoryOption = CategoryOption(value: string, title: string)

  const Categories: seq<CategoryOption> := [
    CategoryOption("real-estate", "Bienes Raíces"),
    CategoryOption("dividends", "Dividendos"),
    CategoryOption("business", "Negocio"),
    CategoryOption("investments", "Inversiones"),
    CategoryOption("royalties", "Regalías"),
    CategoryOption("other", "Otros")
  ]

  /** The two sources the page starts with. */
  const SampleSources: seq<Source> := [
    Source("1", "Alquiler Apartamento Centro", 800.0, "monthly", "real-estate", "2024-01-15"),
    Source("2", "Dividendos ETF S&P 500", 150.0, "quarterly", "dividends", "2024-02-01")
  ]

  const InitialGoal: real := 2000.0
  const GoalStep: real := 500.0

  /** `getMonthlyAmount(amount, frequency)`: a quarterly amount spread over 3
      months, a yearly one over 12, anything else taken as monthly. */
  function MonthlyAmount(amount: real, frequency: string): (m: real)
    ensures frequency == "quarterly" ==> 3.0 * m == amount
    ensures frequency == "yearly" ==> 12.0 * m == amount
    ensures frequency != "quarterly" && frequency != "yearly" ==> m == amount
    ensures (m >= 0.0 <==> amount >= 0.0) && (m <= amount <==> amount >= 0.0 || m == amount)
  {
    match frequency
    case "quarterly" => amount / 3.0
    case "yearly" => amount / 12.0
    case _ => amount
  }

  function SourceMonthly(s: Source): real
  {
    MonthlyAmount(s.amount, s.frequency)
  }

  /** `totalMonthlyIncome`: never negative when no amount is. */
  function TotalMonthlyIncome(sources: seq<Source>): (t: real)
    ensures (forall i :: 0 <= i < |sources| ==> sources[i].amount >= 0.0) ==> t >= 0.0
  {
    if forall i :: 0 <= i < |sources| ==> sources[i].amount >= 0.0 then
      SumNonNegative(sources, SourceMonthly);
      Sum(sources, SourceMonthly)
    else
      Sum(sources, SourceMonthly)
  }

  /** The sample sources give 800 + 150 / 3 = 850 a month. */
  lemma SampleTotal()
    ensures TotalMonthlyIncome(SampleSources) == 850.0
  {
    var a, b := SampleSources[0], SampleSources[1];
    assert SampleSources == [a] + [b];
    SumPrepend(b, [], SourceMonthly);
    assert [b] + [] == [b];
    SumPrepend(a, [b], SourceMonthly);
  }

  /** What a source brings in over a year: twelve of its monthly amounts. */
  function YearlyAmount(s: Source): (y: real)
    ensures y == 12.0 * SourceMonthly(s)
  {
    match s.frequency
    case "quarterly" => 4.0 * s.amount
    case "yearly" => s.amount
    case _ => 12.0 * s.amount
  }

  /** The projection `totalMonthlyIncome * 12` is what the sources bring in
      over a year: a quarterly source four times, a yearly one once, any other
      twelve times. */
  lemma AnnualProjection(sources: seq<Source>)
    ensures 12.0 * TotalMonthlyIncome(sources) == Sum(sources, YearlyAmount)
  {
    SumScale(sources, SourceMonthly, YearlyAmount, 12.0);
  }

  /** `progressToGoal`: the monthly income as a percentage of the goal, capped
      at 100; below the cap it is the exact ratio. */
  function ProgressToGoal(sources: seq<Source>, goal: real): (p: Extended)
    ensures goal > 0.0 ==> p.Finite? && p.value <= 100.0
    ensures goal > 0.0 && p.value < 100.0 ==> p.value * goal == TotalMonthlyIncome(sources) * 100.0
  {
    CappedPercent(TotalMonthlyIncome(sources), goal)
  }

  /** The congratulation (`progressToGoal >= 100`) shows exactly when the
      monthly income has reached a positive goal. */
  lemma CongratulationWhenGoalReached(sources: seq<Source>, goal: real)
    requires goal > 0.0
    ensures AtLeast(ProgressToGoal(sources, goal), 100.0) <==> TotalMonthlyIncome(sources) >= goal
  {
  }

  /** `categories.find(cat => cat.value === value) || categories[5]`. */
  function CategoryInfo(value: string): (c: CategoryOption)
    ensures c in Categories
    ensures (exists i :: 0 <= i < |Categories| && Categories[i].value == value) ==> c.value == value
    ensures !(exists i :: 0 <= i < |Categories| && Categories[i].value == value) ==> c == Categories[5]
  {
    FindCategory(Categories, value)
  }

  /** The first option with that value, or the last-resort "other". */
  function FindCategory(options: seq<CategoryOption>, value: string): (c: CategoryOption)
    ensures c in options || c == Categories[5]
    ensures (exists i :: 0 <= i < |options| && options[i].value == value) ==> c.value == value
    ensures !(exists i :: 0 <= i < |options| && options[i].value == value) ==> c == Categories[5]
  {
    if |options| == 0 then Categories[5]
    else if options[0].value == value then options[0]
    else
      assert forall i :: 1 <= i < |options| ==> options[i] == options[1..][i - 1];
      FindCategory(options[1..], value)
  }

  /** Every unknown category value falls back to "Otros". */
  lemma UnknownCategoryIsOther(value: string)
    requires value !in {"real-estate", "dividends", "business", "investments", "royalties", "other"}
    ensures CategoryInfo(value) == CategoryOption("other", "Otros")
  {
  }

  /** `source => source.category === value`. */
  function InCategory(value: string): Source -> bool
  {
    (s: Source) => s.category == value
  }

  /** One group of `groupedSources`: a category, its sources and their
      monthly total. */
  datatype Group = Group(category: CategoryOption, sources: seq<Source>, total: real)

  function GroupFor(c: CategoryOption, sources: seq<Source>): Group
  {
    var members := Filter(sources, InCategory(c.value));
    Group(c, members, Sum(members, SourceMonthly))
  }

  predicate NonEmptyGroup(g: Group)
  {
    |g.sources| > 0
  }

  /** `groupedSources`: one group per category, in table order, keeping only
      the categories that have a source. */
  function GroupedSources(sources: seq<Source>): (groups: seq<Group>)
    ensures IsSubseq(groups, seq(|Categories|, i requires 0 <= i < |Categories| => GroupFor(Categories[i], sources)))
    ensures forall g :: g in groups ==>
              g.category in Categories && |g.sources| > 0
              && g.sources == Filter(sources, InCategory(g.category.value))
              && g.total == Sum(g.sources, SourceMonthly)
    ensures forall i :: 0 <= i < |Categories| && (exists k :: 0 <= k < |sources| && sources[k].category == Categories[i].value) ==>
              GroupFor(Categories[i], sources) in groups
  {
    var all := seq(|Categories|, i requires 0 <= i < |Categories| => GroupFor(Categories[i], sources));
    var groups := Filter(all, NonEmptyGroup);
    forall i | 0 <= i < |Categories| && (exists k :: 0 <= k < |sources| && sources[k].category == Categories[i].value)
      ensures GroupFor(Categories[i], sources) in groups
    {
      var k :| 0 <= k < |sources| && sources[k].category == Categories[i].value;
      assert sources[k] in Filter(sources, InCategory(Categories[i].value));
      assert all[i] == GroupFor(Categories[i], sources);
    }
    groups
  }

  datatype AddOutcome = Added | MissingField

  /** The page state. */
  class CashflowTracker {
    var sources: seq<Source>
    var monthlyGoal: real

    constructor()
      ensures sources == SampleSources && monthlyGoal == InitialGoal
    {
      sources, monthlyGoal := SampleSources, InitialGoal;
    }

    /** `handleAddSource`: only an empty name, amount text or category is
        refused (a zero or negative amount is accepted); otherwise one source
        with the parsed amount is appended. */
    method AddSource(id: string, name: string, amountText: string, amount: real, frequency: string,
                     category: string, dateAdded: string)
      returns (outcome: AddOutcome)
      modifies this
      ensures outcome == MissingField <==> name == "" || amountText == "" || category == ""
      ensures outcome == Added ==>
                sources == old(sources) + [Source(id, name, amount, frequency, category, dateAdded)]
                && TotalMonthlyIncome(sources) == TotalMonthlyIncome(old(sources)) + MonthlyAmount(amount, frequency)
      ensures outcome == MissingField ==> sources == old(sources)
      ensures monthlyGoal == old(monthlyGoal)
    {
      if name == "" || amountText == "" || category == "" {
        return MissingField;
      }
      var source := Source(id, name, amount, frequency, category, dateAdded);
      SumAppend(sources, source, SourceMonthly);
      sources := sources + [source];
      outcome := Added;
    }

    /** The "+500" goal button: the goal only ever grows, by 500, so it stays
        positive and the progress is always a finite number. */
    method RaiseGoal()
      modifies this
      ensures monthlyGoal == old(monthlyGoal) + GoalStep
      ensures old(monthlyGoal) >= InitialGoal ==> monthlyGoal >= InitialGoal
      ensures old(monthlyGoal) > 0.0 ==> ProgressToGoal(sources, monthlyGoal).Finite?
      ensures sources == old(sources)
    {
      monthlyGoal := monthlyGoal + GoalStep;
    }
  }
}
