/** The expenses page: a ledger of expenses, each filed under a category, the
    editable list of categories, the month/category filter, and the
    per-category breakdown ordered by total. */
module Gastos {
  import opened Wrappers
  import opened Seqs
  import opened JsNumbers
  import Text

  datatype Category = Category(id: string, name: string, color: string, icon: string)

  datatype Expense = Expense(
    id: string, amount: real, categoryId: string, note: string, date: string, createdAt: string)

  const DefaultCategories: seq<Category> := [
    Category("1", "Alimentación", "bg-green-500", "🍕"),
    Category("2", "Transporte", "bg-blue-500", "🚗"),
    Category("3", "Entretenimiento", "bg-purple-500", "🎮"),
    Category("4", "Salud", "bg-red-500", "🏥"),
    Category("5", "Educación", "bg-yellow-500", "📚"),
    Category("6", "Servicios", "bg-gray-500", "💡"),
    Category("7", "Ropa", "bg-pink-500", "👕"),
    Category("8", "Otros", "bg-orange-500", "📦")
  ]

  /** No two categories share an id. */
  predicate DistinctIds(cats: seq<Category>)
  {
    forall i, j :: 0 <= i < j < |cats| ==> cats[i].id != cats[j].id
  }

  /** There are eight default categories with the ids "1" to "8". */
  lemma DefaultCategoriesNumbered()
    ensures |DefaultCategories| == 8
    ensures forall i :: 0 <= i < 8 ==> DefaultCategories[i].id == [('1' as int + i) as char]
    ensures DistinctIds(DefaultCategories)
  {
  }

  /** Some category has the id `id` (`getCategoryById(id)` finds one). */
  predicate HasCategory(cats: seq<Category>, id: string)
  {
    exists i :: 0 <= i < |cats| && cats[i].id == id
  }

  /** `expenses.some(expense => expense.categoryId === id)`. */
  predicate HasExpensesIn(expenses: seq<Expense>, id: string)
  {
    exists i :: 0 <= i < |expenses| && expenses[i].categoryId == id
  }

  /** Every expense is filed under an existing category. */
  predicate NoOrphans(expenses: seq<Expense>, cats: seq<Category>)
  {
    forall i :: 0 <= i < |expenses| ==> HasCategory(cats, expenses[i].categoryId)
  }

  /** Every amount is positive, as `addExpense` demands. */
  predicate AmountsPositive(expenses: seq<Expense>)
  {
    forall i :: 0 <= i < |expenses| ==> expenses[i].amount > 0.0
  }

  function Amount(e: Expense): real
  {
    e.amount
  }

  /** The filter of `getFilteredExpenses()`: the category matches (or "all"
      is selected) and the date starts with the selected month. */
  function Matches(selectedCategory: string, selectedMonth: string): Expense -> bool
  {
    (e: Expense) =>
      (selectedCategory == "all" || e.categoryId == selectedCategory)
      && Text.StartsWith(e.date, selectedMonth)
  }

  /** `getFilteredExpenses()`. */
  function FilteredExpenses(expenses: seq<Expense>, selectedCategory: string, selectedMonth: string)
    : (r: seq<Expense>)
    ensures IsSubseq(r, expenses)
    ensures forall e :: e in r <==>
              e in expenses
              && (selectedCategory == "all" || e.categoryId == selectedCategory)
              && Text.StartsWith(e.date, selectedMonth)
  {
    Filter(expenses, Matches(selectedCategory, selectedMonth))
  }

  /** `getMonthlyTotal()`: the sum of the filtered amounts; with positive
      amounts it lies between 0 and the sum of every expense. */
  function MonthlyTotal(expenses: seq<Expense>, selectedCategory: string, selectedMonth: string)
    : (t: real)
    ensures AmountsPositive(expenses) ==> 0.0 <= t <= Sum(expenses, Amount)
  {
    assert AmountsPositive(expenses) ==> 0.0 <= Sum(Filter(expenses, Matches(selectedCategory, selectedMonth)), Amount) <= Sum(expenses, Amount) by {
      if AmountsPositive(expenses) {
        SumFilterBounded(expenses, Matches(selectedCategory, selectedMonth), Amount);
      }
    }
    Sum(FilteredExpenses(expenses, selectedCategory, selectedMonth), Amount)
  }

  /** `expense => expense.categoryId === id`. */
  function InCategory(id: string): Expense -> bool
  {
    (e: Expense) => e.categoryId == id
  }

  /** One row of the breakdown: a category, the total and number of the
      filtered expenses in it, and its share of the monthly total. */
  datatype CategoryRow = CategoryRow(category: Category, total: real, count: nat, percentage: Extended)

  /** The row `categories.map` builds for category `c`; the share is
      `total / monthlyTotal * 100`, or 0 when nothing is filtered. */
  function RowFor(c: Category, filtered: seq<Expense>): (r: CategoryRow)
    ensures r.category == c
    ensures r.total != 0.0 ==> r.count > 0
    ensures |filtered| == 0 ==> r.percentage == Finite(0.0)
    ensures |filtered| > 0 ==> r.percentage == Scale(Div(r.total, Sum(filtered, Amount)), 100.0)
  {
    var inCategory := Filter(filtered, InCategory(c.id));
    var total := Sum(inCategory, Amount);
    CategoryRow(c, total, |inCategory|,
                if |filtered| > 0 then Scale(Div(total, Sum(filtered, Amount)), 100.0) else Finite(0.0))
  }

  /** One row per category, in the order of the categories. */
  function Grouped(cats: seq<Category>, filtered: seq<Expense>): (rows: seq<CategoryRow>)
    ensures |rows| == |cats|
    ensures forall i :: 0 <= i < |cats| ==> rows[i] == RowFor(cats[i], filtered)
  {
    seq(|cats|, i requires 0 <= i < |cats| => RowFor(cats[i], filtered))
  }

  function RowTotal(r: CategoryRow): real
  {
    r.total
  }

  /** `.filter(item => item.total > 0)`. */
  predicate IsShown(r: CategoryRow)
  {
    r.total > 0.0
  }

  predicate IsHidden(r: CategoryRow)
  {
    !(r.total > 0.0)
  }

  predicate SortedByTotalDesc(rows: seq<CategoryRow>)
  {
    forall i, j :: 0 <= i < j < |rows| ==> rows[i].total >= rows[j].total
  }

  /** Puts `x` into a list sorted by descending total, ahead of the rows with
      an equal total. */
  function Insert(x: CategoryRow, sorted: seq<CategoryRow>): (r: seq<CategoryRow>)
    ensures |r| == |sorted| + 1
    ensures multiset(r) == multiset(sorted) + multiset{x}
    ensures forall y :: y in r <==> y == x || y in sorted
    ensures SortedByTotalDesc(sorted) ==> SortedByTotalDesc(r)
  {
    if |sorted| == 0 || sorted[0].total <= x.total then [x] + sorted
    else
      assert sorted == [sorted[0]] + sorted[1..];
      var rest := Insert(x, sorted[1..]);
      assert SortedByTotalDesc(sorted) ==> SortedByTotalDesc([sorted[0]] + rest) by {
        if SortedByTotalDesc(sorted) {
          forall k | 0 <= k < |rest| ensures sorted[0].total >= rest[k].total {
            assert rest[k] in rest;
            if rest[k] != x {
              var m :| 0 <= m < |sorted[1..]| && sorted[1..][m] == rest[k];
              assert sorted[m + 1] == rest[k];
            }
          }
        }
      }
      [sorted[0]] + rest
  }

  /** `.sort((a, b) => b.total - a.total)`: the rows ordered by descending
      total, a permutation of the input. */
  function SortByTotalDesc(rows: seq<CategoryRow>): (r: seq<CategoryRow>)
    ensures |r| == |rows|
    ensures multiset(r) == multiset(rows)
    ensures SortedByTotalDesc(r)
  {
    if |rows| == 0 then []
    else
      assert rows == [rows[0]] + rows[1..];
      Insert(rows[0], SortByTotalDesc(rows[1..]))
  }

  /** `getExpensesByCategory()`: the rows of the categories whose filtered
      total is positive, by descending total. */
  function ExpensesByCategory(cats: seq<Category>, filtered: seq<Expense>): (rows: seq<CategoryRow>)
    ensures SortedByTotalDesc(rows)
    ensures multiset(rows) == multiset(Filter(Grouped(cats, filtered), IsShown))
    ensures forall r :: r in rows <==> r in Grouped(cats, filtered) && r.total > 0.0
  {
    var shown := Filter(Grouped(cats, filtered), IsShown);
    var sorted := SortByTotalDesc(shown);
    assert forall r :: r in sorted <==> r in multiset(sorted);
    sorted
  }

  /** Every displayed row belongs to a category, and its total and count are
      those of the filtered expenses in that category. */
  lemma RowsDescribeCategories(cats: seq<Category>, filtered: seq<Expense>, r: CategoryRow)
    requires r in ExpensesByCategory(cats, filtered)
    ensures r.category in cats && r == RowFor(r.category, filtered)
    ensures r.total > 0.0
    ensures r.total == Sum(Filter(filtered, InCategory(r.category.id)), Amount)
    ensures r.count == |Filter(filtered, InCategory(r.category.id))|
    ensures r.count > 0
  {
    var i :| 0 <= i < |cats| && Grouped(cats, filtered)[i] == r;
    assert r == RowFor(cats[i], filtered);
  }

  /** A category whose filtered total is positive gets a row. */
  lemma PositiveCategoriesShown(cats: seq<Category>, filtered: seq<Expense>, i: nat)
    requires i < |cats| && RowFor(cats[i], filtered).total > 0.0
    ensures RowFor(cats[i], filtered) in ExpensesByCategory(cats, filtered)
  {
    assert Grouped(cats, filtered)[i] == RowFor(cats[i], filtered);
  }

  /** With positive amounts a displayed row's share is a finite value in
      (0, 100]. */
  lemma RowPercentageBounded(cats: seq<Category>, filtered: seq<Expense>, r: CategoryRow)
    requires AmountsPositive(filtered)
    requires r in ExpensesByCategory(cats, filtered)
    ensures r.percentage.Finite? && 0.0 < r.percentage.value <= 100.0
  {
    RowsDescribeCategories(cats, filtered, r);
    RowShareBounded(r.category, filtered);
  }

  /** The share of a category with a positive total is in (0, 100]. */
  lemma RowShareBounded(c: Category, filtered: seq<Expense>)
    requires AmountsPositive(filtered)
    requires RowFor(c, filtered).total > 0.0
    ensures RowFor(c, filtered).percentage.Finite?
    ensures 0.0 < RowFor(c, filtered).percentage.value <= 100.0
  {
    var inCategory := Filter(filtered, InCategory(c.id));
    var total := Sum(inCategory, Amount);
    var monthly := Sum(filtered, Amount);
    assert |filtered| > 0;
    assert forall k :: 0 <= k < |filtered| ==> Amount(filtered[k]) >= 0.0;
    SumFilterBounded(filtered, InCategory(c.id), Amount);
    ShareAtMostOne(total, monthly);
    assert RowFor(c, filtered).percentage == Finite(total / monthly * 100.0);
  }

  lemma ShareAtMostOne(part: real, whole: real)
    requires 0.0 < part <= whole
    ensures 0.0 < part / whole <= 1.0
  {
    MultiplyCancel(part / whole, 1.0, whole);
  }

  /** A category list either starts with `id` or has it in its tail; with
      distinct ids not both. */
  lemma HasCategoryCons(cats: seq<Category>, id: string)
    requires |cats| > 0
    ensures HasCategory(cats, id) <==> cats[0].id == id || HasCategory(cats[1..], id)
    ensures DistinctIds(cats) ==> DistinctIds(cats[1..])
    ensures DistinctIds(cats) && cats[0].id == id ==> !HasCategory(cats[1..], id)
  {
    if HasCategory(cats, id) {
      var k :| 0 <= k < |cats| && cats[k].id == id;
      if k > 0 {
        assert cats[1..][k - 1].id == id;
      }
    }
    if HasCategory(cats[1..], id) {
      var k :| 0 <= k < |cats[1..]| && cats[1..][k].id == id;
      assert cats[k + 1].id == id;
    }
  }

  lemma GroupedCons(cats: seq<Category>, es: seq<Expense>)
    requires |cats| > 0
    ensures Grouped(cats, es) == [RowFor(cats[0], es)] + Grouped(cats[1..], es)
  {
    var a := Grouped(cats, es);
    var b := [RowFor(cats[0], es)] + Grouped(cats[1..], es);
    assert |a| == |b|;
    forall i | 0 <= i < |a| ensures a[i] == b[i] {
      if i > 0 {
        assert b[i] == Grouped(cats[1..], es)[i - 1] == RowFor(cats[1..][i - 1], es);
      }
    }
  }

  lemma GroupedSumCons(cats: seq<Category>, es: seq<Expense>)
    requires |cats| > 0
    ensures Sum(Grouped(cats, es), RowTotal) == RowFor(cats[0], es).total + Sum(Grouped(cats[1..], es), RowTotal)
  {
    GroupedCons(cats, es);
    SumPrepend(RowFor(cats[0], es), Grouped(cats[1..], es), RowTotal);
  }

  /** Prepending an expense adds its amount to the total of its category and
      to no other. */
  lemma RowTotalPrepend(c: Category, e: Expense, rest: seq<Expense>)
    ensures RowFor(c, [e] + rest).total
         == (if e.categoryId == c.id then e.amount else 0.0) + RowFor(c, rest).total
  {
    var p := InCategory(c.id);
    assert ([e] + rest)[1..] == rest;
    if p(e) {
      SumPrepend(e, Filter(rest, p), Amount);
    }
  }

  /** Prepending an expense adds its amount to the row totals once when its
      category exists, and not at all when it does not. */
  lemma {:induction false} GroupedPrepend(cats: seq<Category>, e: Expense, rest: seq<Expense>)
    requires DistinctIds(cats)
    ensures Sum(Grouped(cats, [e] + rest), RowTotal)
         == Sum(Grouped(cats, rest), RowTotal) + (if HasCategory(cats, e.categoryId) then e.amount else 0.0)
  {
    var es := [e] + rest;
    if |cats| == 0 {
      assert Grouped(cats, es) == [] && Grouped(cats, rest) == [];
    } else {
      var tail := cats[1..];
      HasCategoryCons(cats, e.categoryId);
      GroupedSumCons(cats, es);
      GroupedSumCons(cats, rest);
      RowTotalPrepend(cats[0], e, rest);
      GroupedPrepend(tail, e, rest);
    }
  }

  /** When the category ids are distinct and every expense's category exists,
      the per-category totals add up to the total of the expenses. */
  lemma {:induction false} GroupedTotalsCover(cats: seq<Category>, es: seq<Expense>)
    requires DistinctIds(cats)
    requires forall i :: 0 <= i < |es| ==> HasCategory(cats, es[i].categoryId)
    ensures Sum(Grouped(cats, es), RowTotal) == Sum(es, Amount)
  {
    if |es| == 0 {
      SumZero(Grouped(cats, es), RowTotal);
    } else {
      assert es == [es[0]] + es[1..];
      GroupedPrepend(cats, es[0], es[1..]);
      GroupedTotalsCover(cats, es[1..]);
      SumPrepend(es[0], es[1..], Amount);
    }
  }

  /** Inserting a row adds its total to the sum. */
  lemma {:induction false} InsertSum(x: CategoryRow, sorted: seq<CategoryRow>)
    ensures Sum(Insert(x, sorted), RowTotal) == x.total + Sum(sorted, RowTotal)
  {
    if |sorted| == 0 || sorted[0].total <= x.total {
      SumPrepend(x, sorted, RowTotal);
    } else {
      InsertSum(x, sorted[1..]);
      SumPrepend(sorted[0], Insert(x, sorted[1..]), RowTotal);
      assert sorted == [sorted[0]] + sorted[1..];
      SumPrepend(sorted[0], sorted[1..], RowTotal);
    }
  }

  /** Sorting keeps the sum of the totals. */
  lemma {:induction false} SortSum(rows: seq<CategoryRow>)
    ensures Sum(SortByTotalDesc(rows), RowTotal) == Sum(rows, RowTotal)
  {
    if |rows| > 0 {
      var x, rest := rows[0], rows[1..];
      var tail := SortByTotalDesc(rest);
      assert SortByTotalDesc(rows) == Insert(x, tail);
      SortSum(rest);
      InsertSum(x, tail);
      assert rows == [x] + rest;
      SumPrepend(x, rest, RowTotal);
    }
  }

  /** With positive amounts, expenses filed under existing categories with
      distinct ids, the displayed row totals add up to the monthly total. */
  lemma RowTotalsAddUp(expenses: seq<Expense>, cats: seq<Category>, selectedCategory: string, selectedMonth: string)
    requires DistinctIds(cats) && NoOrphans(expenses, cats) && AmountsPositive(expenses)
    ensures var filtered := FilteredExpenses(expenses, selectedCategory, selectedMonth);
            Sum(ExpensesByCategory(cats, filtered), RowTotal) == MonthlyTotal(expenses, selectedCategory, selectedMonth)
  {
    var filtered := FilteredExpenses(expenses, selectedCategory, selectedMonth);
    assert forall i :: 0 <= i < |filtered| ==> filtered[i] in expenses;
    GroupedTotalsCover(cats, filtered);
    var rows := Grouped(cats, filtered);
    RowTotalsNonNegative(cats, filtered);
    HiddenRowsAddNothing(rows);
    SortSum(Filter(rows, IsShown));
  }

  /** With no negative amount no row total is negative. */
  lemma RowTotalsNonNegative(cats: seq<Category>, filtered: seq<Expense>)
    requires forall k :: 0 <= k < |filtered| ==> filtered[k].amount >= 0.0
    ensures forall i :: 0 <= i < |cats| ==> Grouped(cats, filtered)[i].total >= 0.0
  {
    forall i | 0 <= i < |cats| ensures Grouped(cats, filtered)[i].total >= 0.0 {
      SumFilterBounded(filtered, InCategory(cats[i].id), Amount);
    }
  }

  /** When no total is negative, the rows left out (total 0) add nothing:
      the shown rows carry the whole sum. */
  lemma HiddenRowsAddNothing(rows: seq<CategoryRow>)
    requires forall i :: 0 <= i < |rows| ==> rows[i].total >= 0.0
    ensures Sum(Filter(rows, IsShown), RowTotal) == Sum(rows, RowTotal)
  {
    SumSplit(rows, IsShown, IsHidden, RowTotal);
    var hidden := Filter(rows, IsHidden);
    assert forall k :: 0 <= k < |hidden| ==> hidden[k] in rows;
    SumZero(hidden, RowTotal);
  }

  /** `categories.map` of `updateCategory`: the category with that id gets the
      new name, colour and icon; nothing else changes. */
  function WithUpdated(cats: seq<Category>, id: string, name: string, color: string, icon: string)
    : (r: seq<Category>)
    ensures |r| == |cats|
    ensures forall i :: 0 <= i < |cats| ==> r[i].id == cats[i].id
    ensures forall i :: 0 <= i < |cats| && cats[i].id != id ==> r[i] == cats[i]
    ensures forall i :: 0 <= i < |cats| && cats[i].id == id ==> r[i] == Category(id, name, color, icon)
  {
    seq(|cats|, i requires 0 <= i < |cats| =>
      if cats[i].id == id then cats[i].(name := name, color := color, icon := icon) else cats[i])
  }

  /** The page state: the ledger, the categories and the category being
      edited. */
  class ExpenseTracker {
    var expenses: seq<Expense>
    var categories: seq<Category>
    var editingCategory: Option<Category>

    constructor()
      ensures expenses == [] && categories == DefaultCategories && editingCategory == None
      ensures NoOrphans(expenses, categories) && DistinctIds(categories)
    {
      expenses, categories, editingCategory := [], DefaultCategories, None;
      DefaultCategoriesNumbered();
    }

    /** `addExpense`: no category or an amount of 0 or less is refused;
        otherwise one expense is appended. */
    method AddExpense(id: string, amount: real, categoryId: string, note: string, date: string, createdAt: string)
      returns (added: bool)
      modifies this
      ensures added <==> categoryId != "" && amount > 0.0
      ensures added ==> expenses == old(expenses) + [Expense(id, amount, categoryId, note, date, createdAt)]
      ensures !added ==> expenses == old(expenses)
      ensures categories == old(categories) && editingCategory == old(editingCategory)
      ensures AmountsPositive(old(expenses)) ==> AmountsPositive(expenses)
      ensures NoOrphans(old(expenses), categories) && HasCategory(categories, categoryId) ==> NoOrphans(expenses, categories)
    {
      if categoryId == "" || amount <= 0.0 {
        return false;
      }
      expenses := expenses + [Expense(id, amount, categoryId, note, date, createdAt)];
      added := true;
    }

    /** `deleteExpense(id)`: the expenses with that id go, the rest keep their
        order. */
    method DeleteExpense(id: string)
      modifies this
      ensures expenses == Filter(old(expenses), (e: Expense) => e.id != id)
      ensures forall e :: e in expenses <==> e in old(expenses) && e.id != id
      ensures categories == old(categories) && editingCategory == old(editingCategory)
      ensures AmountsPositive(old(expenses)) ==> AmountsPositive(expenses)
      ensures NoOrphans(old(expenses), categories) ==> NoOrphans(expenses, categories)
    {
      expenses := Filter(expenses, (e: Expense) => e.id != id);
      assert forall i :: 0 <= i < |expenses| ==> expenses[i] in old(expenses);
    }

    /** `addCategory`: an empty name is refused; otherwise one category is
        appended. */
    method AddCategory(id: string, name: string, color: string, icon: string) returns (added: bool)
      modifies this
      ensures added <==> name != ""
      ensures added ==> categories == old(categories) + [Category(id, name, color, icon)]
      ensures !added ==> categories == old(categories)
      ensures expenses == old(expenses) && editingCategory == old(editingCategory)
      ensures NoOrphans(expenses, old(categories)) ==> NoOrphans(expenses, categories)
      ensures DistinctIds(old(categories)) && !HasCategory(old(categories), id) ==> DistinctIds(categories)
    {
      if name == "" {
        return false;
      }
      categories := categories + [Category(id, name, color, icon)];
      added := true;
      forall i | 0 <= i < |expenses| && HasCategory(old(categories), expenses[i].categoryId)
        ensures HasCategory(categories, expenses[i].categoryId)
      {
        var k :| 0 <= k < |old(categories)| && old(categories)[k].id == expenses[i].categoryId;
        assert categories[k] == old(categories)[k];
      }
    }

    /** `openEditCategory(category)`. */
    method OpenEditCategory(c: Category)
      modifies this
      ensures editingCategory == Some(c)
      ensures expenses == old(expenses) && categories == old(categories)
    {
      editingCategory := Some(c);
    }

    /** `updateCategory`: without a target or with an empty name nothing
        happens; otherwise the target's name, colour and icon are replaced and
        the edit closes. */
    method UpdateCategory(name: string, color: string, icon: string) returns (updated: bool)
      modifies this
      ensures updated <==> old(editingCategory).Some? && name != ""
      ensures updated ==>
                categories == WithUpdated(old(categories), old(editingCategory).value.id, name, color, icon)
                && editingCategory == None
      ensures !updated ==> categories == old(categories) && editingCategory == old(editingCategory)
      ensures expenses == old(expenses)
      ensures NoOrphans(expenses, old(categories)) ==> NoOrphans(expenses, categories)
      ensures DistinctIds(old(categories)) ==> DistinctIds(categories)
    {
      if editingCategory.None? || name == "" {
        return false;
      }
      categories := WithUpdated(categories, editingCategory.value.id, name, color, icon);
      editingCategory := None;
      updated := true;
      forall i | 0 <= i < |expenses| && HasCategory(old(categories), expenses[i].categoryId)
        ensures HasCategory(categories, expenses[i].categoryId)
      {
        var k :| 0 <= k < |old(categories)| && old(categories)[k].id == expenses[i].categoryId;
        assert categories[k].id == old(categories)[k].id;
      }
    }

    /** `deleteCategory(id)`: refused while any expense is filed under the
        category, so deleting never leaves an expense without its category. */
    method DeleteCategory(id: string) returns (deleted: bool)
      modifies this
      ensures deleted <==> !HasExpensesIn(expenses, id)
      ensures deleted ==> categories == Filter(old(categories), (c: Category) => c.id != id)
      ensures !deleted ==> categories == old(categories)
      ensures deleted ==> !HasCategory(categories, id)
      ensures expenses == old(expenses) && editingCategory == old(editingCategory)
      ensures NoOrphans(expenses, old(categories)) ==> NoOrphans(expenses, categories)
    {
      if HasExpensesIn(expenses, id) {
        return false;
      }
      categories := Filter(categories, (c: Category) => c.id != id);
      deleted := true;
      forall i | 0 <= i < |expenses| && HasCategory(old(categories), expenses[i].categoryId)
        ensures HasCategory(categories, expenses[i].categoryId)
      {
        var k :| 0 <= k < |old(categories)| && old(categories)[k].id == expenses[i].categoryId;
        assert old(categories)[k] in categories;
      }
      assert forall k :: 0 <= k < |categories| ==> categories[k] in categories;
    }
  }
}
