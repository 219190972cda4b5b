/** The wealth-level table of the shared library: ten levels by net worth,
    the lookup of the level a net worth falls in, the level after it, and the
    rounded percentage of the way to the next level. */
module WealthLevelsLib {
  import opened Wrappers
  import opened JsNumbers

  /** The upper bound of a level: an inclusive integer, or `Infinity`. */
  datatype Ceiling = AtMost(bound: int) | Unbounded

  /** One row of a level table (the display text a row also carries is not kept). */
  datatype WealthLevel = WealthLevel(level: int, name: string, minWealth: int, maxWealth: Ceiling)

  /** `wealth >= level.minWealth && wealth <= level.maxWealth`. */
  predicate Contains(l: WealthLevel, w: real)
  {
    w >= l.minWealth as real && (l.maxWealth.Unbounded? || w <= l.maxWealth.bound as real)
  }

  /** The level names, one constant each. */
  const Name1: string := "Iniciador"
  const Name2: string := "Constructor"
  const Name3: string := "Visionario"
  const Name4: string := "Arquitecto"
  const Name5: string := "Estratega"
  const Name6: string := "Ejecutivo"
  const Name7: string := "Magnate"
  const Name8: string := "Millonario"
  const Name9: string := "Multi-Millonario"
  const Name10: string := "Patrimono Legendario"

  const WealthLevels: seq<WealthLevel> := [
    WealthLevel(1, Name1, 0, AtMost(499)),
    WealthLevel(2, Name2, 500, AtMost(999)),
    WealthLevel(3, Name3, 1000, AtMost(4999)),
    WealthLevel(4, Name4, 5000, AtMost(19999)),
    WealthLevel(5, Name5, 20000, AtMost(99999)),
    WealthLevel(6, Name6, 100000, AtMost(499999)),
    WealthLevel(7, Name7, 500000, AtMost(999999)),
    WealthLevel(8, Name8, 1000000, AtMost(1999999)),
    WealthLevel(9, Name9, 2000000, AtMost(9999999)),
    WealthLevel(10, Name10, 10000000, Unbounded)
  ]

  /** The shape every level table has: rows numbered 1, 2, ... in order, each
      range non-empty and ending one below where the next begins, the last
      one open-ended. */
  predicate WellFormed(levels: seq<WealthLevel>)
  {
    && |levels| > 0
    && (forall i :: 0 <= i < |levels| ==> levels[i].level == i + 1)
    && (forall i :: 0 <= i < |levels| - 1 ==>
          levels[i].minWealth < levels[i + 1].minWealth
          && levels[i].maxWealth == AtMost(levels[i + 1].minWealth - 1))
    && levels[|levels| - 1].maxWealth.Unbounded?
  }

  lemma TableWellFormed()
    ensures WellFormed(WealthLevels)
    ensures |WealthLevels| == 10 && WealthLevels[0].minWealth == 0
  {
    var t := WealthLevels;
    forall i | 0 <= i < |t| ensures t[i].level == i + 1 {
      assert i == 0 || i == 1 || i == 2 || i == 3 || i == 4 || i == 5 || i == 6 || i == 7 || i == 8 || i == 9;
    }
    forall i | 0 <= i < |t| - 1
      ensures t[i].minWealth < t[i + 1].minWealth && t[i].maxWealth == AtMost(t[i + 1].minWealth - 1)
    {
      assert i == 0 || i == 1 || i == 2 || i == 3 || i == 4 || i == 5 || i == 6 || i == 7 || i == 8;
    }
  }

  /** `levels.find(l => contains(l, w))`, as the index of the first match. */
  function FindContaining(levels: seq<WealthLevel>, w: real): (r: Option<nat>)
    ensures r.Some? ==> r.value < |levels| && Contains(levels[r.value], w)
    ensures r.Some? ==> forall j :: 0 <= j < r.value ==> !Contains(levels[j], w)
    ensures r.None? ==> forall j :: 0 <= j < |levels| ==> !Contains(levels[j], w)
  {
    if |levels| == 0 then None
    else if Contains(levels[0], w) then Some(0)
    else match FindContaining(levels[1..], w)
      case None => None
      case Some(i) => Some(i + 1)
  }

  /** `levels.find(l => l.level === n)`, as the index of the first match. */
  function FindNumbered(levels: seq<WealthLevel>, n: int): (r: Option<nat>)
    ensures r.Some? ==> r.value < |levels| && levels[r.value].level == n
    ensures r.None? ==> forall j :: 0 <= j < |levels| ==> levels[j].level != n
  {
    if |levels| == 0 then None
    else if levels[0].level == n then Some(0)
    else match FindNumbered(levels[1..], n)
      case None => None
      case Some(i) => Some(i + 1)
  }

  /** The index of the current level: the first row containing `w`, or the
      first row when none does (`... || LEVELS[0]`). */
  function LevelIndex(levels: seq<WealthLevel>, w: real): (i: nat)
    requires |levels| > 0
    ensures i < |levels|
    ensures FindContaining(levels, w).Some? ==> Contains(levels[i], w)
    ensures FindContaining(levels, w).None? ==> i == 0
  {
    FindContaining(levels, w).GetOr(0)
  }

  /** In a well-formed table the row numbered `n` is at index `n - 1`. */
  lemma {:induction false} NumberedAt(levels: seq<WealthLevel>, n: int)
    requires WellFormed(levels)
    ensures 1 <= n <= |levels| ==> FindNumbered(levels, n) == Some(n - 1)
    ensures !(1 <= n <= |levels|) ==> FindNumbered(levels, n).None?
  {
    var r := FindNumbered(levels, n);
    if r.Some? {
      assert levels[r.value].level == r.value + 1;
    }
    if 1 <= n <= |levels| {
      assert levels[n - 1].level == n;
    }
  }

  /** The next row: the one numbered one above the current row. */
  function NextIndex(levels: seq<WealthLevel>, w: real): (r: Option<nat>)
    requires WellFormed(levels)
    ensures r.Some? <==> LevelIndex(levels, w) + 1 < |levels|
    ensures r.Some? ==> r.value == LevelIndex(levels, w) + 1
  {
    var cur := LevelIndex(levels, w);
    NumberedAt(levels, levels[cur].level + 1);
    FindNumbered(levels, levels[cur].level + 1)
  }

  /** Lower bounds increase along a well-formed table. */
  lemma {:induction false} MinWealthIncreasing(levels: seq<WealthLevel>, a: nat, b: nat)
    requires WellFormed(levels)
    requires a <= b < |levels|
    ensures levels[a].minWealth <= levels[b].minWealth
    ensures a < b ==> levels[a].maxWealth == AtMost(levels[a + 1].minWealth - 1)
                      && levels[a + 1].minWealth <= levels[b].minWealth
    decreases b - a
  {
    if a < b {
      MinWealthIncreasing(levels, a + 1, b);
    }
  }

  /** In a well-formed table no two rows contain the same wealth. */
  lemma RowsDisjoint(levels: seq<WealthLevel>, w: real, i: nat, j: nat)
    requires WellFormed(levels)
    requires i < j < |levels|
    requires Contains(levels[i], w)
    ensures !Contains(levels[j], w)
  {
    MinWealthIncreasing(levels, i, j);
  }

  /** Some row at or after `k` contains `w` once `w` reaches row `k`'s bound. */
  lemma {:induction false} CoveredFrom(levels: seq<WealthLevel>, w: int, k: nat)
    requires WellFormed(levels)
    requires k < |levels| && levels[k].minWealth <= w
    ensures exists i :: k <= i < |levels| && Contains(levels[i], w as real)
    decreases |levels| - k
  {
    if k == |levels| - 1 || w <= levels[k + 1].minWealth - 1 {
      assert Contains(levels[k], w as real);
    } else {
      CoveredFrom(levels, w, k + 1);
    }
  }

  /** An integer wealth at or above the first bound lies in exactly one row,
      and that row is the one the lookup returns: its lower bound is at most
      `w` and the next row's lower bound is above `w`. */
  lemma IntegerBracketed(levels: seq<WealthLevel>, w: int)
    requires WellFormed(levels) && levels[0].minWealth <= w
    ensures FindContaining(levels, w as real).Some?
    ensures levels[LevelIndex(levels, w as real)].minWealth <= w
    ensures LevelIndex(levels, w as real) + 1 < |levels| ==>
              w < levels[LevelIndex(levels, w as real) + 1].minWealth
    ensures forall j :: 0 <= j < |levels| && Contains(levels[j], w as real) ==>
              j == LevelIndex(levels, w as real)
  {
    CoveredFrom(levels, w, 0);
    var i := LevelIndex(levels, w as real);
    forall j | 0 <= j < |levels| && Contains(levels[j], w as real)
      ensures j == i
    {
      if i < j {
        RowsDisjoint(levels, w as real, i, j);
      }
    }
  }

  /** For integer wealth the level number never decreases as wealth grows. */
  lemma LevelIndexMonotone(levels: seq<WealthLevel>, w1: int, w2: int)
    requires WellFormed(levels) && levels[0].minWealth <= w1 <= w2
    ensures LevelIndex(levels, w1 as real) <= LevelIndex(levels, w2 as real)
  {
    IntegerBracketed(levels, w1);
    IntegerBracketed(levels, w2);
    var i1, i2 := LevelIndex(levels, w1 as real), LevelIndex(levels, w2 as real);
    if i2 < i1 {
      MinWealthIncreasing(levels, i2, i1);
    }
  }

  /** Wealth strictly between one row's upper bound and the next row's lower
      bound lies in no row at all. */
  lemma GapUncovered(levels: seq<WealthLevel>, w: real, i: nat)
    requires WellFormed(levels) && i + 1 < |levels|
    requires (levels[i + 1].minWealth - 1) as real < w < levels[i + 1].minWealth as real
    ensures FindContaining(levels, w).None?
  {
    forall j | 0 <= j < |levels| ensures !Contains(levels[j], w) {
      if j <= i {
        MinWealthIncreasing(levels, j, i);
        if j < i {
          MinWealthIncreasing(levels, j, i);
        }
      } else {
        MinWealthIncreasing(levels, i + 1, j);
      }
    }
  }

  /** The row a lookup shows: the first row containing `w`, or the first row. */
  function CurrentLevel(levels: seq<WealthLevel>, w: real): (l: WealthLevel)
    requires |levels| > 0
    ensures l in levels
    ensures FindContaining(levels, w).Some? ==> Contains(l, w)
    ensures FindContaining(levels, w).None? ==> l == levels[0]
  {
    levels[LevelIndex(levels, w)]
  }

  /** The row numbered one above the current row, `null` at the top row. */
  function NextLevel(levels: seq<WealthLevel>, w: real): (r: Option<WealthLevel>)
    requires WellFormed(levels)
    ensures r.Some? ==> r.value in levels && r.value.level == CurrentLevel(levels, w).level + 1
    ensures r.None? <==> CurrentLevel(levels, w).level == |levels|
  {
    match NextIndex(levels, w)
    case None => None
    case Some(j) => Some(levels[j])
  }

  /** The next row is the row after the current one, when there is one. */
  lemma NextLevelFollows(levels: seq<WealthLevel>, w: real)
    requires WellFormed(levels)
    ensures NextLevel(levels, w)
         == if LevelIndex(levels, w) + 1 < |levels| then Some(levels[LevelIndex(levels, w) + 1]) else None
  {
  }

  /** The library's progress rule over any well-formed table: 100 at the top
      row, otherwise the rounded percentage of the distance from the current
      row's lower bound to the next row's lower bound, which is never zero. */
  function Progress(levels: seq<WealthLevel>, w: real): (r: int)
    requires WellFormed(levels)
    ensures NextLevel(levels, w).None? ==> r == 100
    ensures NextLevel(levels, w).Some? ==>
              NextLevel(levels, w).value.minWealth > CurrentLevel(levels, w).minWealth
  {
    var cur := CurrentLevel(levels, w);
    match NextLevel(levels, w)
    case None => 100
    case Some(next) =>
      MinWealthIncreasing(levels, LevelIndex(levels, w), LevelIndex(levels, w) + 1);
      MathRound((w - cur.minWealth as real) / (next.minWealth - cur.minWealth) as real * 100.0)
  }

  /** The progress written with the row indices: the rounded share of the way
      from row `i`'s lower bound to row `i + 1`'s, or 100 on the last row. */
  lemma ProgressByIndex(levels: seq<WealthLevel>, w: real)
    requires WellFormed(levels)
    ensures var i := LevelIndex(levels, w);
            Progress(levels, w) == if i + 1 < |levels| then StepShare(levels[i].minWealth, levels[i + 1].minWealth, w) else 100
  {
    NextLevelFollows(levels, w);
    var i := LevelIndex(levels, w);
    if i + 1 < |levels| {
      MinWealthIncreasing(levels, i, i + 1);
    }
  }

  /** The rounded percentage of the way from `lo` to a larger `hi`. */
  function StepShare(lo: int, hi: int, w: real): int
  {
    if lo < hi then MathRound((w - lo as real) / (hi - lo) as real * 100.0) else 0
  }

  /** The rounded share of `num` out of a larger `den`, as a percentage, lies in 0..100. */
  lemma RoundedShareBounded(num: real, den: real)
    requires 0.0 <= num < den
    ensures 0 <= MathRound(num / den * 100.0) <= 100
  {
    assert num / den < 1.0 by {
      assert num / den * den == num;
    }
    MathRoundMonotone(num / den * 100.0, 100.0);
    MathRoundMonotone(0.0, num / den * 100.0);
  }

  /** For integer wealth at or above the first bound the progress lies in 0..100. */
  lemma ProgressBoundedIn(levels: seq<WealthLevel>, w: int)
    requires WellFormed(levels) && levels[0].minWealth <= w
    ensures 0 <= Progress(levels, w as real) <= 100
  {
    IntegerBracketed(levels, w);
    var i := LevelIndex(levels, w as real);
    if i + 1 < |levels| {
      RoundedShareBounded((w - levels[i].minWealth) as real,
                          (levels[i + 1].minWealth - levels[i].minWealth) as real);
    }
  }

  /** For integer wealth below the top row the progress is the integer quotient
      `(200 d + r) / (2 r)`, where `d` is the distance covered within the row and
      `r` the distance to the next row. */
  lemma ProgressFormulaIn(levels: seq<WealthLevel>, w: int, cur: WealthLevel, next: WealthLevel)
    requires WellFormed(levels) && levels[0].minWealth <= w
    requires cur == CurrentLevel(levels, w as real) && NextLevel(levels, w as real) == Some(next)
    ensures 0 <= w - cur.minWealth < next.minWealth - cur.minWealth
    ensures Progress(levels, w as real)
            == (200 * (w - cur.minWealth) + (next.minWealth - cur.minWealth))
               / (2 * (next.minWealth - cur.minWealth))
  {
    IntegerBracketed(levels, w);
    RoundedPercent(w - cur.minWealth, next.minWealth - cur.minWealth);
  }

  /** Every lower bound below the top row belongs to its own row and is 0% of
      the way to the next. */
  lemma ProgressZeroAtStartIn(levels: seq<WealthLevel>, i: nat)
    requires WellFormed(levels) && i + 1 < |levels|
    ensures CurrentLevel(levels, levels[i].minWealth as real) == levels[i]
    ensures Progress(levels, levels[i].minWealth as real) == 0
  {
    var w := levels[i].minWealth;
    MinWealthIncreasing(levels, 0, i);
    MinWealthIncreasing(levels, i, i + 1);
    IntegerBracketed(levels, w);
    assert Contains(levels[i], w as real);
    assert LevelIndex(levels, w as real) == i;
    var next := levels[i + 1];
    assert NextLevel(levels, w as real) == Some(next);
    assert (w - w) as real / (next.minWealth - w) as real * 100.0 == 0.0;
  }

  /** Dividing by a positive number keeps the order. */
  lemma DivideMonotone(a: real, b: real, d: real)
    requires a <= b && d > 0.0
    ensures a / d * 100.0 <= b / d * 100.0
  {
    assert b / d - a / d == (b - a) / d;
  }

  /** Within one row the progress does not decrease as wealth grows. */
  lemma ProgressMonotoneIn(levels: seq<WealthLevel>, w1: real, w2: real)
    requires WellFormed(levels) && w1 <= w2
    requires LevelIndex(levels, w1) == LevelIndex(levels, w2)
    ensures Progress(levels, w1) <= Progress(levels, w2)
  {
    var cur := CurrentLevel(levels, w1);
    if NextLevel(levels, w1).Some? {
      var next := NextLevel(levels, w1).value;
      var den := (next.minWealth - cur.minWealth) as real;
      MinWealthIncreasing(levels, LevelIndex(levels, w1), LevelIndex(levels, w1) + 1);
      DivideMonotone(w1 - cur.minWealth as real, w2 - cur.minWealth as real, den);
      MathRoundMonotone((w1 - cur.minWealth as real) / den * 100.0,
                        (w2 - cur.minWealth as real) / den * 100.0);
    }
  }

  /** `getCurrentWealthLevel(wealth)`. */
  function GetCurrentWealthLevel(w: real): (l: WealthLevel)
    ensures l in WealthLevels
    ensures FindContaining(WealthLevels, w).Some? ==> Contains(l, w)
    ensures FindContaining(WealthLevels, w).None? ==> l == WealthLevels[0]
  {
    CurrentLevel(WealthLevels, w)
  }

  /** `getNextWealthLevel(wealth)`: the level numbered one above the current
      one, and `null` exactly at the top level. */
  function GetNextWealthLevel(w: real): (r: Option<WealthLevel>)
    ensures r.Some? ==> r.value in WealthLevels
                        && r.value.level == GetCurrentWealthLevel(w).level + 1
    ensures r.None? <==> GetCurrentWealthLevel(w).level == 10
  {
    TableWellFormed();
    NextLevel(WealthLevels, w)
  }

  /** `getWealthProgress(wealth)`. */
  function GetWealthProgress(w: real): (r: int)
    ensures GetCurrentWealthLevel(w).level == 10 ==> r == 100
  {
    TableWellFormed();
    Progress(WealthLevels, w)
  }

  /** For an integer net worth of zero or more the progress lies in 0..100. */
  lemma ProgressBounded(w: int)
    requires w >= 0
    ensures 0 <= GetWealthProgress(w as real) <= 100
  {
    TableWellFormed();
    ProgressBoundedIn(WealthLevels, w);
  }

  /** For an integer net worth of zero or more, below the top level, the
      progress is `(200 d + r) / (2 r)` with `d` the distance covered within the
      level and `r` the distance from its lower bound to the next one. */
  lemma ProgressIntegerFormula(w: int, cur: WealthLevel, next: WealthLevel)
    requires w >= 0
    requires cur == GetCurrentWealthLevel(w as real) && GetNextWealthLevel(w as real) == Some(next)
    ensures 0 <= w - cur.minWealth < next.minWealth - cur.minWealth
    ensures GetWealthProgress(w as real)
            == (200 * (w - cur.minWealth) + (next.minWealth - cur.minWealth))
               / (2 * (next.minWealth - cur.minWealth))
  {
    TableWellFormed();
    ProgressFormulaIn(WealthLevels, w, cur, next);
  }

  /** Each level's lower bound shows that level at 0% progress. */
  lemma ProgressZeroAtLevelStart(i: nat)
    requires i < 9
    ensures GetCurrentWealthLevel(WealthLevels[i].minWealth as real) == WealthLevels[i]
    ensures GetWealthProgress(WealthLevels[i].minWealth as real) == 0
  {
    TableWellFormed();
    ProgressZeroAtStartIn(WealthLevels, i);
  }

  /** For integer net worth the level never goes down as net worth grows, and
      within one level neither does the progress. */
  lemma LevelAndProgressMonotone(w1: int, w2: int)
    requires 0 <= w1 <= w2
    ensures GetCurrentWealthLevel(w1 as real).level <= GetCurrentWealthLevel(w2 as real).level
    ensures GetCurrentWealthLevel(w1 as real) == GetCurrentWealthLevel(w2 as real) ==>
              GetWealthProgress(w1 as real) <= GetWealthProgress(w2 as real)
  {
    TableWellFormed();
    LevelIndexMonotone(WealthLevels, w1, w2);
    var i1, i2 := LevelIndex(WealthLevels, w1 as real), LevelIndex(WealthLevels, w2 as real);
    if GetCurrentWealthLevel(w1 as real) == GetCurrentWealthLevel(w2 as real) {
      assert WealthLevels[i1].level == i1 + 1 && WealthLevels[i2].level == i2 + 1;
      ProgressMonotoneIn(WealthLevels, w1 as real, w2 as real);
    }
  }

  /** A net worth that no row holds is shown at the first level, with the
      progress measured from its floor of 0 over its 500-wide range. */
  lemma FallbackProgress(w: real)
    requires FindContaining(WealthLevels, w).None?
    ensures GetCurrentWealthLevel(w).level == 1
    ensures GetWealthProgress(w) == MathRound(w / 5.0)
  {
    TableWellFormed();
    assert LevelIndex(WealthLevels, w) == 0;
    assert NextLevel(WealthLevels, w) == Some(WealthLevels[1]);
    assert (w - 0.0) / 500.0 * 100.0 == w / 5.0;
  }

  /** A net worth strictly between two inclusive integer bounds, such as 999.5
      (above 999 and below 1000), matches no row, so the lookup falls back to
      the first level and the progress shows 200. */
  lemma FractionalGapFallsBack(w: real)
    requires 999.0 < w < 1000.0
    ensures GetCurrentWealthLevel(w).level == 1
    ensures GetWealthProgress(w) == 200
  {
    TableWellFormed();
    GapUncovered(WealthLevels, w, 1);
    FallbackProgress(w);
  }

  /** For an integer net worth of zero or more the level shown is the one
      level whose range holds it. */
  lemma CurrentLevelUnique(w: int)
    requires w >= 0
    ensures Contains(GetCurrentWealthLevel(w as real), w as real)
    ensures forall l :: l in WealthLevels && Contains(l, w as real) ==> l == GetCurrentWealthLevel(w as real)
  {
    TableWellFormed();
    IntegerBracketed(WealthLevels, w);
  }

  /** No row holds a negative net worth: every row starts at 0 or above. */
  lemma NegativeUncovered(w: real)
    requires w < 0.0
    ensures FindContaining(WealthLevels, w).None?
  {
    TableWellFormed();
    forall j | 0 <= j < |WealthLevels| ensures !Contains(WealthLevels[j], w) {
      MinWealthIncreasing(WealthLevels, 0, j);
    }
  }

  /** A negative net worth is shown at the first level, with the progress
      measured from that level's floor of 0 over its 500-wide range: it is
      `Math.round(w / 5)`, never positive (a net worth of -1000 shows -200). */
  lemma NegativeWealth(w: real)
    requires w < 0.0
    ensures GetCurrentWealthLevel(w).level == 1
    ensures GetWealthProgress(w) == MathRound(w / 5.0) <= 0
    ensures w == -1000.0 ==> GetWealthProgress(w) == -200
  {
    NegativeUncovered(w);
    FallbackProgress(w);
    MathRoundMonotone(w / 5.0, 0.0);
  }

  /** The top of a level already rounds to 100 (499 is 99.8% of the way to
      500), and the top level always shows 100. */
  lemma ProgressAtLevelTops(w: int)
    requires w == 499 || w >= 10000000
    ensures GetWealthProgress(w as real) == 100
  {
    if w == 499 {
      ProgressAt499();
    } else {
      TopLevelProgress(w);
    }
  }

  lemma ProgressAt499()
    ensures GetWealthProgress(499.0) == 100
  {
    TableWellFormed();
    FirstLevelBelow500(499.0);
    assert (499.0 - 0.0) / 500.0 * 100.0 == 99.8;
  }

  /** A net worth from 0 up to 499 is at the first level, below the second. */
  lemma FirstLevelBelow500(w: real)
    requires 0.0 <= w <= 499.0
    ensures GetCurrentWealthLevel(w) == WealthLevels[0]
    ensures GetNextWealthLevel(w) == Some(WealthLevels[1])
  {
    TableWellFormed();
    assert Contains(WealthLevels[0], w);
  }

  lemma TopLevelProgress(w: int)
    requires w >= 10000000
    ensures GetWealthProgress(w as real) == 100
  {
    TableWellFormed();
    IntegerBracketed(WealthLevels, w);
    assert Contains(WealthLevels[9], w as real);
  }
}
