/** The dashboard's wealth-level card: its own copy of the ten-level table, the
    progress bar towards the next level, the completed/current flags of the
    table rows, and the congratulation shown once when the level goes up. */
module DashboardWealthLevels {
  import opened Wrappers
  import opened JsNumbers
  import Lib = WealthLevelsLib

  /** The dashboard's table: the library's bounds, with two names spelled
      differently (row 6 and row 10). */
  const Levels: seq<Lib.WealthLevel> := [
    Lib.WealthLevel(1, "Iniciador", 0, Lib.AtMost(499)),
    Lib.WealthLevel(2, "Constructor", 500, Lib.AtMost(999)),
    Lib.WealthLevel(3, "Visionario", 1000, Lib.AtMost(4999)),
    Lib.WealthLevel(4, "Arquitecto", 5000, Lib.AtMost(19999)),
    Lib.WealthLevel(5, "Estratega", 20000, Lib.AtMost(99999)),
    Lib.WealthLevel(6, "Impulsor", 100000, Lib.AtMost(499999)),
    Lib.WealthLevel(7, "Magnate", 500000, Lib.AtMost(999999)),
    Lib.WealthLevel(8, "Millonario", 1000000, Lib.AtMost(1999999)),
    Lib.WealthLevel(9, "Multi-Millonario", 2000000, Lib.AtMost(9999999)),
    Lib.WealthLevel(10, "Patrimonio Legendario", 10000000, Lib.Unbounded)
  ]

  /** Both tables have the same numbering and the same bounds row by row. */
  lemma TablesAgree()
    ensures Lib.WellFormed(Levels)
    ensures |Levels| == |Lib.WealthLevels|
    ensures forall i :: 0 <= i < |Levels| ==>
              Levels[i].level == Lib.WealthLevels[i].level
              && Levels[i].minWealth == Lib.WealthLevels[i].minWealth
              && Levels[i].maxWealth == Lib.WealthLevels[i].maxWealth
    ensures Levels[5].name != Lib.WealthLevels[5].name && Levels[9].name != Lib.WealthLevels[9].name
  {
    Lib.TableWellFormed();
    var t, u := Levels, Lib.WealthLevels;
    forall i | 0 <= i < |t|
      ensures t[i].level == u[i].level && t[i].minWealth == u[i].minWealth && t[i].maxWealth == u[i].maxWealth
    {
      assert i == 0 || i == 1 || i == 2 || i == 3 || i == 4 || i == 5 || i == 6 || i == 7 || i == 8 || i == 9;
    }
    forall i | 0 <= i < |t| - 1
      ensures t[i].minWealth < t[i + 1].minWealth && t[i].maxWealth == Lib.AtMost(t[i + 1].minWealth - 1)
    {
      assert u[i].minWealth < u[i + 1].minWealth && u[i].maxWealth == Lib.AtMost(u[i + 1].minWealth - 1);
    }
  }

  /** Two tables with the same bounds row by row give the same lookup. */
  lemma {:induction false} SameBoundsSameLookup(a: seq<Lib.WealthLevel>, b: seq<Lib.WealthLevel>, w: real)
    requires |a| == |b|
    requires forall i :: 0 <= i < |a| ==> a[i].minWealth == b[i].minWealth && a[i].maxWealth == b[i].maxWealth
    ensures Lib.FindContaining(a, w) == Lib.FindContaining(b, w)
  {
    if |a| > 0 {
      assert Lib.Contains(a[0], w) == Lib.Contains(b[0], w);
      SameBoundsSameLookup(a[1..], b[1..], w);
    }
  }

  /** `getCurrentLevel(wealth)`. */
  function GetCurrentLevel(w: real): (l: Lib.WealthLevel)
    ensures l in Levels
    ensures Lib.FindContaining(Levels, w).Some? ==> Lib.Contains(l, w)
    ensures Lib.FindContaining(Levels, w).None? ==> l == Levels[0]
  {
    Lib.CurrentLevel(Levels, w)
  }

  /** The card always shows the same level number as the library lookup. */
  lemma SameLevelAsLibrary(w: real)
    ensures GetCurrentLevel(w).level == Lib.GetCurrentWealthLevel(w).level
    ensures GetCurrentLevel(w).minWealth == Lib.GetCurrentWealthLevel(w).minWealth
    ensures GetCurrentLevel(w).maxWealth == Lib.GetCurrentWealthLevel(w).maxWealth
  {
    TablesAgree();
    SameBoundsSameLookup(Levels, Lib.WealthLevels, w);
  }

  /** `nextLevel`: the row numbered one above the current row, absent at the top. */
  function NextLevel(w: real): (r: Option<Lib.WealthLevel>)
    ensures r.Some? ==> r.value in Levels && r.value.level == GetCurrentLevel(w).level + 1
    ensures r.None? <==> GetCurrentLevel(w).level == 10
  {
    TablesAgree();
    Lib.NextLevel(Levels, w)
  }

  /** The dashboard's progress rule over any well-formed table: 100 at the top
      row, otherwise the share of the current row's inclusive range already
      covered, as a percentage capped at 100. */
  function CappedProgress(levels: seq<Lib.WealthLevel>, w: real): (r: real)
    requires Lib.WellFormed(levels)
    ensures r <= 100.0
    ensures Lib.NextLevel(levels, w).None? ==> r == 100.0
    ensures w >= Lib.CurrentLevel(levels, w).minWealth as real ==> r >= 0.0
  {
    var i := Lib.LevelIndex(levels, w);
    if i + 1 < |levels| then
      Lib.MinWealthIncreasing(levels, i, i + 1);
      var cur := levels[i];
      var share := (w - cur.minWealth as real) / (cur.maxWealth.bound - cur.minWealth + 1) as real * 100.0;
      if share <= 100.0 then share else 100.0
    else 100.0
  }

  /** Rounding the capped share gives the library's rounded progress capped at
      100: a row's range `max - min + 1` is the distance to the next lower bound. */
  lemma CappedMatchesRounded(levels: seq<Lib.WealthLevel>, w: real)
    requires Lib.WellFormed(levels)
    ensures MathRound(CappedProgress(levels, w))
         == (if Lib.Progress(levels, w) <= 100 then Lib.Progress(levels, w) else 100)
  {
    var i := Lib.LevelIndex(levels, w);
    assert MathRound(100.0) == 100;
    if i + 1 < |levels| {
      Lib.MinWealthIncreasing(levels, i, i + 1);
      var cur := levels[i];
      var x := (w - cur.minWealth as real) / (levels[i + 1].minWealth - cur.minWealth) as real * 100.0;
      assert Lib.NextLevel(levels, w) == Some(levels[i + 1]);
      assert Lib.Progress(levels, w) == MathRound(x);
      if x > 100.0 {
        MathRoundMonotone(100.0, x);
      }
    }
  }

  /** Two tables with the same bounds row by row give the same library progress. */
  lemma SameBoundsSameProgress(a: seq<Lib.WealthLevel>, b: seq<Lib.WealthLevel>, w: real)
    requires Lib.WellFormed(a) && Lib.WellFormed(b) && |a| == |b|
    requires forall i :: 0 <= i < |a| ==> a[i].minWealth == b[i].minWealth && a[i].maxWealth == b[i].maxWealth
    ensures Lib.LevelIndex(a, w) == Lib.LevelIndex(b, w)
    ensures Lib.Progress(a, w) == Lib.Progress(b, w)
  {
    SameBoundsSameLookup(a, b, w);
    Lib.ProgressByIndex(a, w);
    Lib.ProgressByIndex(b, w);
    var i := Lib.LevelIndex(a, w);
    if i + 1 < |a| {
      assert a[i].minWealth == b[i].minWealth && a[i + 1].minWealth == b[i + 1].minWealth;
    }
  }

  /** `getProgressToNextLevel()` on the dashboard table. */
  function ProgressToNextLevel(w: real): (r: real)
    ensures r <= 100.0
    ensures NextLevel(w).None? ==> r == 100.0
    ensures w >= GetCurrentLevel(w).minWealth as real ==> r >= 0.0
  {
    TablesAgree();
    CappedProgress(Levels, w)
  }

  /** The percentage printed under the bar, `Math.round` of the card's capped
      share, is the library's `getWealthProgress` capped at 100. */
  lemma DisplayedProgressMatchesLibrary(w: real)
    ensures MathRound(ProgressToNextLevel(w))
         == (if Lib.GetWealthProgress(w) <= 100 then Lib.GetWealthProgress(w) else 100)
  {
    TablesAgree();
    Lib.TableWellFormed();
    CappedMatchesRounded(Levels, w);
    SameBoundsSameProgress(Levels, Lib.WealthLevels, w);
  }

  /** A row is the current one when its number is the current level's. */
  predicate IsCurrentLevel(w: real, row: Lib.WealthLevel)
  {
    row.level == GetCurrentLevel(w).level
  }

  /** A row is completed when the wealth is above its upper bound (never for
      the open-ended top row). */
  predicate IsCompleted(w: real, row: Lib.WealthLevel)
  {
    row.maxWealth.AtMost? && w > row.maxWealth.bound as real
  }

  /** When some row contains the wealth, exactly one row is marked current and
      the completed rows are exactly those before it. */
  lemma RowFlags(w: real)
    requires Lib.FindContaining(Levels, w).Some?
    ensures forall j :: 0 <= j < |Levels| ==>
              (IsCurrentLevel(w, Levels[j]) <==> j == Lib.LevelIndex(Levels, w))
    ensures forall j :: 0 <= j < |Levels| ==>
              (IsCompleted(w, Levels[j]) <==> j < Lib.LevelIndex(Levels, w))
  {
    TablesAgree();
    var i := Lib.LevelIndex(Levels, w);
    forall j | 0 <= j < |Levels|
      ensures IsCompleted(w, Levels[j]) <==> j < i
    {
      if j < i {
        Lib.MinWealthIncreasing(Levels, j, i);
      } else if j < |Levels| - 1 {
        Lib.MinWealthIncreasing(Levels, i, j);
        Lib.MinWealthIncreasing(Levels, j, j + 1);
        if i < j {
          Lib.MinWealthIncreasing(Levels, i, i + 1);
          Lib.MinWealthIncreasing(Levels, i + 1, j + 1);
        }
      }
    }
  }

  /** Every integer wealth of zero or more is contained in some row. */
  lemma IntegerWealthCovered(w: int)
    requires w >= 0
    ensures Lib.FindContaining(Levels, w as real).Some?
  {
    TablesAgree();
    Lib.IntegerBracketed(Levels, w);
  }

  /** The congratulation fires when a level was saved before and the current
      level is above it. */
  predicate LevelUpFires(saved: Option<int>, current: int)
    ensures LevelUpFires(saved, current) ==> saved.Some? && saved.value < current
    ensures saved.None? || current <= saved.value ==> !LevelUpFires(saved, current)
  {
    saved.Some? && current > saved.value
  }

  /** Between two integer wealths of zero or more, one run of the effect
      congratulates only when the wealth went up: the level stored for `w1`
      is never below the level of a wealth `w2 <= w1`. */
  lemma LevelUpOnlyOnRise(w1: int, w2: int)
    requires 0 <= w1 && 0 <= w2
    ensures LevelUpFires(Some(GetCurrentLevel(w1 as real).level), GetCurrentLevel(w2 as real).level) ==> w1 < w2
  {
    if w2 <= w1 {
      Lib.LevelAndProgressMonotone(w2, w1);
      SameLevelAsLibrary(w1 as real);
      SameLevelAsLibrary(w2 as real);
    }
  }

  /** The level last shown, as kept in `patripoly_previous_level`. */
  class LevelTracker {
    var savedLevel: Option<int>

    constructor(saved: Option<int>)
      ensures savedLevel == saved
    {
      savedLevel := saved;
    }

    /** The level-up effect: decide on the congratulation, then store the
        current level. */
    method CheckLevelUp(w: real) returns (congratulate: bool)
      modifies this
      ensures congratulate == LevelUpFires(old(savedLevel), GetCurrentLevel(w).level)
      ensures savedLevel == Some(GetCurrentLevel(w).level)
    {
      var current := GetCurrentLevel(w).level;
      congratulate := savedLevel.Some? && current > savedLevel.value;
      savedLevel := Some(current);
    }
  }

  /** Showing the same wealth twice congratulates at most once. */
  method ShowTwice(tracker: LevelTracker, w: real) returns (first: bool, second: bool)
    modifies tracker
    ensures !second
    ensures first == LevelUpFires(old(tracker.savedLevel), GetCurrentLevel(w).level)
  {
    first := tracker.CheckLevelUp(w);
    second := tracker.CheckLevelUp(w);
  }
}
