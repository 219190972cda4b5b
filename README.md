# Patripoly rules, modelled in Dafny

Patripoly is a React personal-finance app. Its pages are mostly display code,
but many of them carry small, exact rules. This project models those rules and
proves properties of them:

- the ten-row wealth-level table (`src/lib/wealth-levels.ts`) and the
  dashboard's near-copy with its level-up effect;
- the Duplicador challenge: doubling a symbolic 1 € over 21 flips, plus its
  badges, level card and journey map;
- the ledgers kept by the savings fund, expenses, referral programme,
  lifestyle, passive-income, active-income and net-worth pages. Each is
  modelled with its validation, its guards and what each handler leaves
  unchanged;
- the threshold classifiers: net-worth rank, financial-health indicators,
  password screening, initials, relative dates, club members and level
  colours.

There is one Dafny module per source file. A few shared modules support them:

- `Wrappers`: `Option`.
- `Seqs`: `Sum` as a left fold like `reduce`, `Filter`, `Count`, sub-sequences.
- `Text`: JavaScript whitespace, `trim`, `split(' ')`, upper-casing, initials.
- `JsNumbers`: the special results of a JavaScript division by zero, plus
  `Math.round`, `Math.min` and `%`.
- `StoredJson`: the stored JSON objects and JavaScript truthiness.

Code that works on values is written as functions. Where a page keeps state
and its handlers replace it, the page is a class: its methods change the
fields and their `ensures` clauses state the whole new state, including what
stays unchanged. Where possible, a method's new state is written as a function
of the old one, and lemmas about that function carry the proofs. Money is
`real`, so the rounding of JavaScript doubles is not modelled. Flips and doubling amounts
are `int`. Ids, dates, "now", parsed numbers and random suffixes are
parameters.

Edge cases of the code that the model keeps as they are:

- `getCurrentWealthLevel` finds exactly one row for every integer net worth
  of zero or more (`CurrentLevelUnique`). A fractional value in a gap between
  two inclusive integer bounds, such as 999.5, finds none, and neither does a
  negative value. Both fall back to level 1.
- The library progress is not confined to 0..100. It is 200 for 999.5 and
  -200 for -1000.
- Divisions by zero are not guarded. A stored empty lifestyle list makes the
  savings goal 0, and the fund page then shows NaN or ±Infinity
  (`AhorrosFondo.EmptyListGoalDividesByZero`).
- The completion guard ("a log for the current flip") exists only as the
  disabled state of the button, so `CompleteFlip` takes it as a precondition.
- The dashboard table names row 6 "Impulsor" where the library says
  "Ejecutivo". Row 10 is "Patrimonio Legendario" in the dashboard and
  "Patrimono Legendario" in the library. The bounds are identical
  (`DashboardWealthLevels.TablesAgree`).

Behaviours worth knowing, proved as stated:

- The referral programme's funds check ignores completed payouts, so it can
  accept a payout larger than the balance it displays, even while the request
  button is enabled.
- Deleting a savings deposit can make the fund balance negative.
- The amount remaining to the 1 000 000 € target becomes -48 576 at flip 21.
- Saving the profile rewrites the settings without `participateInClub`, which
  takes the user out of the club's member list.
- Of the ten wealth-table level names, every one except "Millonario" gets
  the default colour in the club.
- The wealth-levels page hands the card a net worth of 0 before its saved
  assets are loaded, so the card's level-up effect first stores level 1.
  Every visit whose loaded net worth is above level 1 then congratulates,
  a first visit and a repeat at the same level included
  (`WealthPage.Visit`, `WealthPage.DefaultVisitCongratulates`).

## Model

| member | source | states |
|---|---|---|
| WealthLevelsLib.TableWellFormed | src/lib/wealth-levels.ts:9-20 | The table has levels 1..10 in order. Each row's upper bound is one below the next row's lower bound. The first row starts at 0 and the last row is unbounded. |
| WealthLevelsLib.FindContaining | src/lib/wealth-levels.ts:23 | `find` returns the first row containing the wealth, or nothing when no row does. |
| WealthLevelsLib.FindNumbered | src/lib/wealth-levels.ts:28 | `find` by level number returns a row with that number, or nothing when there is none. |
| WealthLevelsLib.LevelIndex | src/lib/wealth-levels.ts:23 | The index shown is a row containing the wealth, or row 0 when no row does. |
| WealthLevelsLib.NumberedAt | src/lib/wealth-levels.ts:28 | In a well-formed table the row numbered n is at index n-1. No row has a number outside 1..length. |
| WealthLevelsLib.NextIndex | src/lib/wealth-levels.ts:26-29 | The next row exists exactly when the current row is not the last. It is the row right after the current one. |
| WealthLevelsLib.MinWealthIncreasing | src/lib/wealth-levels.ts:9-20 | Lower bounds never decrease along the table. Each row ends one below where the next begins. |
| WealthLevelsLib.RowsDisjoint | src/lib/wealth-levels.ts:9-20 | No wealth lies in two rows. |
| WealthLevelsLib.CoveredFrom | src/lib/wealth-levels.ts:9-20 | An integer wealth at or above row k's lower bound lies in some row at or after k. |
| WealthLevelsLib.IntegerBracketed | src/lib/wealth-levels.ts:22-24 | An integer wealth at or above the first bound is found. It lies in exactly one row and below the next row's lower bound. |
| WealthLevelsLib.LevelIndexMonotone | src/lib/wealth-levels.ts:22-24 | For integer wealth the row index never decreases as wealth grows. |
| WealthLevelsLib.GapUncovered | src/lib/wealth-levels.ts:23 | A wealth strictly between one row's upper bound and the next row's lower bound is in no row. |
| WealthLevelsLib.CurrentLevel | src/lib/wealth-levels.ts:22-24 | The level shown is in the table. It contains the wealth when some row does, and otherwise it is the first row. |
| WealthLevelsLib.NextLevel | src/lib/wealth-levels.ts:26-29 | The next level is numbered one above the current one. It is absent exactly at the last row. |
| WealthLevelsLib.NextLevelFollows | src/lib/wealth-levels.ts:26-29 | The next level is the row after the current one when there is one, and `null` otherwise. |
| WealthLevelsLib.Progress | src/lib/wealth-levels.ts:31-41 | Progress is 100 when there is no next level. Otherwise the next floor lies strictly above the current one, so the division is defined. |
| WealthLevelsLib.ProgressByIndex | src/lib/wealth-levels.ts:37-40 | The progress is the rounded share of the way from the current row's floor to the next row's floor, or 100 at the last row. |
| WealthLevelsLib.ProgressBoundedIn | src/lib/wealth-levels.ts:37-40 | For integer wealth at or above the first bound, the progress lies in 0..100. |
| WealthLevelsLib.ProgressFormulaIn | src/lib/wealth-levels.ts:37-40 | For integer wealth below the last row, the progress equals the integer quotient `(200 d + r) / (2 r)`. |
| WealthLevelsLib.ProgressZeroAtStartIn | src/lib/wealth-levels.ts:37-40 | Every row's lower bound below the last row shows that row at 0%. |
| WealthLevelsLib.ProgressMonotoneIn | src/lib/wealth-levels.ts:37-40 | Within one row the progress never decreases as wealth grows. |
| WealthLevelsLib.GetCurrentWealthLevel | src/lib/wealth-levels.ts:22-24 | It returns a table row containing the wealth when one exists, and "Iniciador" otherwise. |
| WealthLevelsLib.GetNextWealthLevel | src/lib/wealth-levels.ts:26-29 | It returns the level numbered current+1, and `null` exactly at level 10. |
| WealthLevelsLib.GetWealthProgress | src/lib/wealth-levels.ts:31-35 | It is 100 at level 10. |
| WealthLevelsLib.ProgressBounded | src/lib/wealth-levels.ts:37-40 | For integer wealth ≥ 0 the progress is in 0..100. |
| WealthLevelsLib.ProgressIntegerFormula | src/lib/wealth-levels.ts:37-40 | For integer wealth ≥ 0 below level 10, progress = floor((200 d + r) / (2 r)). Here d = wealth − current floor and r = next floor − current floor. |
| WealthLevelsLib.ProgressZeroAtLevelStart | src/lib/wealth-levels.ts:37-40 | At each level's minWealth (levels 1..9) that level is shown at 0%. |
| WealthLevelsLib.LevelAndProgressMonotone | src/lib/wealth-levels.ts:22-40 | For integer wealth ≥ 0 the level never goes down as wealth grows. Within the same level the progress never goes down either. |
| WealthLevelsLib.FallbackProgress | src/lib/wealth-levels.ts:22-40 | A wealth no row holds shows level 1, with progress `Math.round(w / 5)`. |
| WealthLevelsLib.FractionalGapFallsBack | src/lib/wealth-levels.ts:22-40 | A wealth strictly between 999 and 1000 falls back to level 1, with progress 200. |
| WealthLevelsLib.CurrentLevelUnique | src/lib/wealth-levels.ts:22-24 | For integer wealth ≥ 0 the level returned contains the wealth and is the only row that does. |
| WealthLevelsLib.NegativeUncovered | src/lib/wealth-levels.ts:9-20 | No row holds a negative wealth. |
| WealthLevelsLib.NegativeWealth | src/lib/wealth-levels.ts:22-40 | Negative wealth shows level 1 with progress `Math.round(w / 5)` ≤ 0. For -1000 the progress is -200. |
| WealthLevelsLib.ProgressAtLevelTops | src/lib/wealth-levels.ts:35-40 | The progress is 100 at 499 (99.8 rounds up) and at every wealth ≥ 10 000 000. |
| WealthLevelsLib.ProgressAt499 | src/lib/wealth-levels.ts:37-40 | 499 is 99.8% of the way to 500, which rounds to 100. |
| WealthLevelsLib.FirstLevelBelow500 | src/lib/wealth-levels.ts:10-29 | Wealth from 0 to 499 is at "Iniciador", and the next level is "Constructor". |
| WealthLevelsLib.TopLevelProgress | src/lib/wealth-levels.ts:35 | Wealth ≥ 10 000 000 has no next level and progress 100. |
| JsNumbers.MathRound | src/lib/wealth-levels.ts:40 | `Math.round` gives the integer within half a unit, with halves rounded up. |
| JsNumbers.RoundedPercent | src/lib/wealth-levels.ts:37-40 | For integer p and q > 0, `Math.round(p / q * 100)` equals `(200p + q) / (2q)`. |
| JsNumbers.Div | src/pages/AhorrosFondo.tsx:204-207 | A JavaScript division is a finite quotient for a non-zero divisor. For a zero divisor it is +Infinity, -Infinity or NaN, by the sign of the dividend. |
| JsNumbers.CappedPercent | src/pages/AhorrosFondo.tsx:201 | `Math.min(part / whole * 100, 100)` is never +Infinity. With a positive whole it is finite, equals 100 exactly when part ≥ whole, is otherwise the exact ratio, and is negative for a negative part. |
| JsNumbers.MinWith | src/pages/AhorrosFondo.tsx:201 | `Math.min(x, c)`: NaN stays NaN, +Infinity gives c, -Infinity stays, and a finite x gives the smaller of x and c. |
| JsNumbers.JsRem | src/components/duplicador/FlipLevelCard.tsx:55 | `%` truncates towards zero: the remainder has the sign of the dividend. |
| DashboardWealthLevels.TablesAgree | src/components/dashboard/WealthLevels.tsx:8-109 | The dashboard table is well formed and has the library's numbers and bounds row by row. Its names differ at rows 6 and 10. |
| DashboardWealthLevels.SameBoundsSameLookup | src/components/dashboard/WealthLevels.tsx:119-123 | Two tables with the same bounds find the same row for every wealth. |
| DashboardWealthLevels.GetCurrentLevel | src/components/dashboard/WealthLevels.tsx:119-123 | The card's level is a row containing the wealth when one does, and row 1 otherwise. |
| DashboardWealthLevels.SameLevelAsLibrary | src/components/dashboard/WealthLevels.tsx:119-125 | For every wealth the card shows the library's level number and bounds. |
| DashboardWealthLevels.NextLevel | src/components/dashboard/WealthLevels.tsx:126 | The next level is numbered current+1, and is absent exactly at level 10. |
| DashboardWealthLevels.CappedProgress | src/components/dashboard/WealthLevels.tsx:128-134 | The card's progress is at most 100. It is 100 with no next level, and at least 0 when the wealth is at or above the level's floor. |
| DashboardWealthLevels.CappedMatchesRounded | src/components/dashboard/WealthLevels.tsx:128-134 | Because max+1 equals the next min, rounding the card's capped ratio gives the library's rounded progress capped at 100. |
| DashboardWealthLevels.SameBoundsSameProgress | src/components/dashboard/WealthLevels.tsx:128-134 | Tables with the same bounds give the same row and the same library progress. |
| DashboardWealthLevels.ProgressToNextLevel | src/components/dashboard/WealthLevels.tsx:128-134 | The dashboard progress is at most 100, is 100 at the top level, and is non-negative from the level's floor upwards. |
| DashboardWealthLevels.DisplayedProgressMatchesLibrary | src/components/dashboard/WealthLevels.tsx:128-134 | The displayed percentage is `getWealthProgress` capped at 100, for every wealth. |
| DashboardWealthLevels.RowFlags | src/components/dashboard/WealthLevels.tsx:214-216 | When some row holds the wealth, exactly one row is flagged current. The completed rows (wealth > maxWealth) are exactly the rows before it, so level 10 is never completed. |
| DashboardWealthLevels.IntegerWealthCovered | src/components/dashboard/WealthLevels.tsx:119-123 | Every integer wealth ≥ 0 lies in some dashboard row. |
| DashboardWealthLevels.LevelUpOnlyOnRise | src/components/dashboard/WealthLevels.tsx:119-156 | Between two integer wealths ≥ 0, one run of the effect congratulates only if the new wealth is above the one whose level was stored. |
| DashboardWealthLevels.LevelUpFires | src/components/dashboard/WealthLevels.tsx:147-156 | One run of the effect congratulates iff a level was stored and the current level is above it. It never does so without a stored level, or at or below the stored one. |
| DashboardWealthLevels.LevelTracker.constructor | src/components/dashboard/WealthLevels.tsx:147-148 | The tracker starts from the level stored under `patripoly_previous_level`, or from nothing. |
| DashboardWealthLevels.LevelTracker.CheckLevelUp | src/components/dashboard/WealthLevels.tsx:146-159 | It congratulates iff the stored level exists and is below the current one. Afterwards the stored level is the current level. |
| DashboardWealthLevels.ShowTwice | src/components/dashboard/WealthLevels.tsx:146-159 | Running the effect twice for the same wealth congratulates at most once. |
| Duplicador.Pow2 | src/pages/Duplicador.tsx:61 | `2 ** n` is at least 1. |
| Duplicador.Pow2Monotone | src/pages/Duplicador.tsx:61 | Powers of two grow with the exponent, at least doubling per step. |
| Duplicador.ExpectedAmount | src/pages/Duplicador.tsx:60-62 | The amount at flip 1 is 1, and every amount is at least 1. |
| Duplicador.ExpectedAmountDoubles | src/pages/Duplicador.tsx:60-62 | Each flip's amount is twice the previous flip's. |
| Duplicador.ExpectedAmountLandmarks | src/pages/Duplicador.tsx:60-62 | Flip 11 is 1 024 and flip 21 is 1 048 576. The 1 000 000 target is first reached at flip 21. |
| Duplicador.HasLogFor | src/pages/Duplicador.tsx:315 | A log exists for the flip iff `actionLogs.filter(log => log.flip === flip)` is not empty. |
| Duplicador.Reachable | src/pages/Duplicador.tsx:26-30 | A state reachable from a reset has its amount in 1..2^20 (1 048 576). |
| Duplicador.CanCompleteFlip | src/pages/Duplicador.tsx:311-316 | "Completar Flip" is shown and enabled iff the flip is below 21 and the filtered log list for the current flip is not empty. |
| Duplicador.CompletedAmount | src/pages/Duplicador.tsx:95-103 | A completed challenge is at flip 21 with 1 048 576. |
| Duplicador.ReachableAmountBounds | src/pages/Duplicador.tsx:95-103 | From reset, the amount stays in 1..1 048 576 and reaches the target only at flip 21. |
| Duplicador.UpcomingFlips | src/pages/Duplicador.tsx:381-383 | The panel lists min(5, 21 − flip) flips (none at or after 21), numbered flip+1 onward, each with its expected amount. |
| Duplicador.UpcomingDoubles | src/pages/Duplicador.tsx:381-383 | Each upcoming amount is double the one before it. |
| Duplicador.CompletedFlips | src/pages/Duplicador.tsx:404 | "Flips completados" is one less than the current flip. `FlipProgressMap.CompletedFlipsOnMap` proves it equals the number of completed nodes on the map. |
| Duplicador.ProgressPercentage | src/pages/Duplicador.tsx:64 | The bar is the current flip as a share of 21, times 100. |
| Duplicador.ProgressOfReachable | src/pages/Duplicador.tsx:64 | From reset the bar is above 0 and at most 100. It is full exactly when the challenge is completed. |
| Duplicador.RemainingToTarget | src/pages/Duplicador.tsx:374 | The remaining amount plus the current amount is the 1 000 000 target. |
| Duplicador.RemainingInReachable | src/pages/Duplicador.tsx:374 | The remaining amount is positive before completion and -48 576 once completed. |
| Duplicador.Challenge.constructor | src/pages/Duplicador.tsx:26-30 | The first visit is flip 1, amount 1, no logs, not completed, intro shown. The invariant holds. |
| Duplicador.Challenge.Start | src/pages/Duplicador.tsx:130-131 | "Comenzar" hides the intro and changes nothing else. |
| Duplicador.Challenge.AddAction | src/pages/Duplicador.tsx:66-92 | A blank description is rejected with no change. Otherwise exactly one log is appended, tagged with the current flip and amount and holding the untrimmed description. Flip, amount and flags are unchanged. |
| Duplicador.Challenge.CompleteFlip | src/pages/Duplicador.tsx:94-110 | At flip 21 it does nothing. Below 21 the flip goes up by one and the amount doubles; completed iff the new flip is 21. The invariant `amount = 2^(flip−1)`, `completed ⇔ flip = 21` is kept. |
| Duplicador.Challenge.Reset | src/pages/Duplicador.tsx:112-119 | It returns to flip 1, amount 1, no logs, not completed, intro shown. |
| AchievementBadges.Unlocked | src/components/duplicador/AchievementBadges.tsx:124-126 | The unlocked badges are, in table order, exactly those whose condition holds. |
| AchievementBadges.Locked | src/components/duplicador/AchievementBadges.tsx:128-130 | The locked badges are, in table order, exactly those whose condition fails. |
| AchievementBadges.Partition | src/components/duplicador/AchievementBadges.tsx:124-130 | Unlocked and locked are disjoint, together they make up the ten badges, and their sizes add to 10. |
| AchievementBadges.RuleMonotone | src/components/duplicador/AchievementBadges.tsx:38-119 | Any condition that holds still holds with a flip, amount and log count at least as large. |
| AchievementBadges.UnlockedMonotone | src/components/duplicador/AchievementBadges.tsx:38-126 | Progress never re-locks a badge. |
| AchievementBadges.ImparableIsHalfway | src/components/duplicador/AchievementBadges.tsx:56-65 | "Imparable" (flip > 10) and "Mitad del Camino" (flip ≥ 11) unlock together. |
| AchievementBadges.MillonarioOnlyAtTheEnd | src/components/duplicador/AchievementBadges.tsx:101 | With amount = 2^(flip−1), "Millonario" unlocks exactly at flip 21. |
| AchievementBadges.NothingUnlockedAtStart | src/components/duplicador/AchievementBadges.tsx:38-130 | At flip 1 with 1 € and no logs nothing is unlocked and all ten are locked. |
| AchievementBadges.AllUnlockedAtTheEnd | src/components/duplicador/AchievementBadges.tsx:38-126 | At flip 21 with 1 048 576 and at least ten logs, all ten badges are unlocked. |
| FlipLevelCard.LevelDataNumbered | src/components/duplicador/FlipLevelCard.tsx:16-28 | There are 11 tiers, numbered 1..11. |
| FlipLevelCard.GetFlipLevel | src/components/duplicador/FlipLevelCard.tsx:30-42 | The tier is one of the 11 tiers. |
| FlipLevelCard.FlipLevelFormula | src/components/duplicador/FlipLevelCard.tsx:30-42 | For flip ≥ 1 the tier is min(⌈flip/2⌉, 11). Any flip ≤ 2, including 0 and below, is tier 1. |
| FlipLevelCard.FlipLevelMonotone | src/components/duplicador/FlipLevelCard.tsx:30-42 | The tier never decreases with the flip. Every flip above 20 is "Leyenda". |
| FlipLevelCard.NextTier | src/components/duplicador/FlipLevelCard.tsx:46 | `getFlipLevel(flip + 2)` is one tier ahead until it saturates at tier 11. |
| FlipLevelCard.LevelProgress | src/components/duplicador/FlipLevelCard.tsx:55 | The tier bar is 50 for odd flips and 100 for even flips. With JavaScript's `%`, flips below 1 give 50 or 0. |
| FlipLevelCard.FormatCurrency | src/components/duplicador/FlipLevelCard.tsx:49-53 | The M€ branch is taken iff amount ≥ 1 000 000, K€ iff 1 000 ≤ amount < 1 000 000, and the plain amount otherwise. Each shows amount / 10^6, amount / 10^3 or the amount. |
| FlipProgressMap.FormatAmount | src/components/duplicador/FlipProgressMap.tsx:13-18 | The label is for 2^(flip−1). The M branch is taken iff that amount is ≥ 1 000 000 and shows amount / 10^6. The K branch is taken iff it is in 1 000..999 999 and shows amount / 10^3. Otherwise the plain amount is shown. |
| FlipProgressMap.FormatAmountThresholds | src/components/duplicador/FlipProgressMap.tsx:13-18 | Labels are plain up to flip 10, K from flip 11, and M only at flip 21. |
| FlipProgressMap.HasActionsForFlip | src/components/duplicador/FlipProgressMap.tsx:20-22 | It holds iff some log has that flip. |
| FlipProgressMap.NodeFor | src/components/duplicador/FlipProgressMap.tsx:28-45 | A node is completed, current or locked exactly as its flip is below, at or above the current flip. Its label is shown iff it is not locked, and is `formatAmount(flip)`. It has the dot iff a log exists for its flip, and a connector iff it is not the last node. |
| FlipProgressMap.Nodes | src/components/duplicador/FlipProgressMap.tsx:28-45 | There are exactly maxFlips nodes, numbered 1..maxFlips. Each is exactly one of completed (< current), current or locked (> current). Labels appear only on unlocked nodes, connectors on all but the last, and the dot iff a log exists for that flip. |
| FlipProgressMap.CompletedNodeCount | src/components/duplicador/FlipProgressMap.tsx:30 | min(current − 1, maxFlips) nodes are completed (none when current ≤ 1). |
| FlipProgressMap.OneCurrentNode | src/components/duplicador/FlipProgressMap.tsx:31 | In a reachable state exactly one of the 21 nodes is current: the node of the current flip. |
| FlipProgressMap.CompletedFlipsOnMap | src/pages/Duplicador.tsx:404 | In a reachable state the "Flips completados" figure lies in 0..20 and equals the number of nodes the journey map draws as completed. |
| AhorrosFondo.LevelsOrdered | src/pages/AhorrosFondo.tsx:24-60 | The five levels are numbered 1..5 and require strictly increasing months. |
| AhorrosFondo.TotalSavings | src/pages/AhorrosFondo.tsx:168-170 | The balance is the sum of the deposits plus the sum of the (negative) withdrawals. |
| AhorrosFondo.MonthlyCostOfLiving | src/pages/AhorrosFondo.tsx:172-179 | The cost is the total of the stored lifestyle items, or 2 500 when nothing is stored. A stored empty list gives 0. |
| AhorrosFondo.EmergencyFundGoal | src/pages/AhorrosFondo.tsx:181-183 | The goal is six times the monthly cost, so 15 000 by default. |
| AhorrosFondo.MonthsCovered | src/pages/AhorrosFondo.tsx:204-208 | With a non-zero monthly cost the months covered are finite and, multiplied by the cost, give the balance. With no stored items they are balance / 2 500. A zero cost gives Infinity or NaN. |
| AhorrosFondo.ProgressPercentage | src/pages/AhorrosFondo.tsx:198-202 | It is never above 100 and never +Infinity. With a positive goal it is finite, 100 iff the balance reaches the goal, otherwise the exact ratio, and negative for a negative balance. |
| AhorrosFondo.DefaultGoalProgress | src/pages/AhorrosFondo.tsx:198-202 | With nothing stored the progress is min(balance / 150, 100). |
| AhorrosFondo.EmptyListGoalDividesByZero | src/pages/AhorrosFondo.tsx:172-202 | A stored empty list makes the goal 0. The progress is then 100 for a positive balance, NaN for zero and -Infinity for a negative balance. |
| AhorrosFondo.AchievedPrefix | src/pages/AhorrosFondo.tsx:462 | The achieved levels always form a prefix of the table. |
| AhorrosFondo.GetCurrentLevel | src/pages/AhorrosFondo.tsx:185-196 | The descending loop returns a table level. It is achieved (or is level 1), and no higher level is achieved. |
| AhorrosFondo.CurrentIsLastAchieved | src/pages/AhorrosFondo.tsx:190-194 | With at least half a month covered, the current level is achieved and the achieved levels are exactly those up to it. |
| AhorrosFondo.SavingsFund.constructor | src/pages/AhorrosFondo.tsx:63 | The fund starts from the saved ledger. |
| AhorrosFondo.SavingsFund.AddSaving | src/pages/AhorrosFondo.tsx:88-116 | An empty name or an amount ≤ 0 is refused with no change. Otherwise exactly one deposit is appended and the balance rises by the amount. |
| AhorrosFondo.SavingsFund.AddWithdrawal | src/pages/AhorrosFondo.tsx:118-156 | It checks in order: invalid name or amount, then amount above the balance. On success one withdrawal holding −amount is appended and the balance falls by the amount, staying ≥ 0. Otherwise nothing changes. |
| AhorrosFondo.SavingsFund.DeleteSaving | src/pages/AhorrosFondo.tsx:158-166 | Every entry with the id goes, the rest keep their order, and there is no balance check. |
| AhorrosFondo.DeleteCanOverdraw | src/pages/AhorrosFondo.tsx:158-170 | Depositing 100, withdrawing 50, then deleting the deposit leaves a balance of -50. |
| Gastos.DefaultCategoriesNumbered | src/pages/Gastos.tsx:34-43 | There are 8 default categories with ids "1".."8", all distinct. |
| Gastos.FilteredExpenses | src/pages/Gastos.tsx:218-224 | An expense is kept, in order, iff its category matches (or "all" is selected) and its date starts with the month. |
| Gastos.MonthlyTotal | src/pages/Gastos.tsx:230-232 | With positive amounts the monthly total lies between 0 and the total of all expenses. |
| Gastos.Grouped | src/pages/Gastos.tsx:236-244 | There is one row per category, in category order. |
| Gastos.RowFor | src/pages/Gastos.tsx:236-244 | A row belongs to its category. A non-zero total means at least one expense was counted. With nothing filtered the share is 0; otherwise it is `total / monthlyTotal × 100`, computed as JavaScript division. |
| Gastos.Insert | src/pages/Gastos.tsx:247 | Inserting into a list sorted by descending total keeps it sorted and adds exactly that row. |
| Gastos.SortByTotalDesc | src/pages/Gastos.tsx:247 | The sort is a permutation of its input, ordered by descending total. |
| Gastos.ExpensesByCategory | src/pages/Gastos.tsx:234-248 | The rows are exactly the categories with total > 0, as a permutation, sorted by descending total. |
| Gastos.RowsDescribeCategories | src/pages/Gastos.tsx:236-245 | Each row shown belongs to a category. Its total (> 0) and count (> 0) are those of the filtered expenses in that category. |
| Gastos.PositiveCategoriesShown | src/pages/Gastos.tsx:245 | Every category with a positive total is shown. |
| Gastos.RowPercentageBounded | src/pages/Gastos.tsx:243 | With positive amounts, each row's percentage is finite and in (0, 100]. |
| Gastos.RowShareBounded | src/pages/Gastos.tsx:243 | A category with a positive total has a finite percentage in (0, 100]. |
| Gastos.GroupedTotalsCover | src/pages/Gastos.tsx:236-238 | When every expense's category exists and ids are distinct, the row totals add up to the total of the expenses. |
| Gastos.SortSum | src/pages/Gastos.tsx:247 | Sorting does not change the sum of the totals. |
| Gastos.RowTotalsAddUp | src/pages/Gastos.tsx:230-248 | With distinct category ids, no orphan expenses and positive amounts, the rows shown add up to the monthly total. |
| Gastos.WithUpdated | src/pages/Gastos.tsx:170-174 | Only the category with the id gets the new name, colour and icon. Ids, length and the other categories are unchanged. |
| Gastos.ExpenseTracker.constructor | src/pages/Gastos.tsx:46-50 | It starts with no expenses, the default categories and nothing being edited. There are no orphans and ids are distinct. |
| Gastos.ExpenseTracker.AddExpense | src/pages/Gastos.tsx:92-126 | An empty category or an amount ≤ 0 is refused with no change. Otherwise exactly one expense is appended and the categories are unchanged. |
| Gastos.ExpenseTracker.DeleteExpense | src/pages/Gastos.tsx:128-136 | The expenses with that id go, the rest keep their order, and nothing else changes. |
| Gastos.ExpenseTracker.AddCategory | src/pages/Gastos.tsx:138-165 | An empty name is refused. Otherwise exactly one category is appended and the expenses are unchanged. |
| Gastos.ExpenseTracker.OpenEditCategory | src/pages/Gastos.tsx:208-216 | It sets the category being edited and changes nothing else. |
| Gastos.ExpenseTracker.UpdateCategory | src/pages/Gastos.tsx:167-185 | It does nothing without a target or with an empty name. Otherwise it rewrites only the target's name, colour and icon and closes the edit. Distinct ids and "no orphans" are kept. |
| Gastos.ExpenseTracker.DeleteCategory | src/pages/Gastos.tsx:187-206 | While any expense uses the id it refuses with no change. Otherwise it removes the category, so it never orphans an expense. |
| ProgramaPromotor.PaymentMethod | src/pages/ProgramaPromotor.tsx:154-168 | The method is `paymentInfo.method`, or empty when it is unset. |
| ProgramaPromotor.AvailableBalance | src/pages/ProgramaPromotor.tsx:187 | Available + pending + completed = earnings. |
| ProgramaPromotor.EnabledMinimumPasses | src/pages/ProgramaPromotor.tsx:553 | While the button is enabled (displayed balance ≥ 50) and completed payouts are not negative, a request for the minimum 50 passes the funds check. It is accepted iff a payment method is set. |
| ProgramaPromotor.ScreenPayout | src/pages/ProgramaPromotor.tsx:136-161 | It checks in order: amount < 50, then amount > earnings − pending, then a missing method. The first failure decides. Each outcome is stated as an iff. |
| ProgramaPromotor.AcceptedAboveDisplayedBalance | src/pages/ProgramaPromotor.tsx:145 | With earnings 200 and 100 paid out, the button is enabled (100 is displayed) and 150 is accepted, although it is more than the 100 displayed. |
| ProgramaPromotor.AcceptedWithinBalanceWithoutCompleted | src/pages/ProgramaPromotor.tsx:145 | With nothing completed, an accepted amount lies between 50 and the displayed balance. |
| ProgramaPromotor.InitialConsistent | src/pages/ProgramaPromotor.tsx:42-55 | The initial state's pending total matches its (empty) requests. |
| ProgramaPromotor.CodePrefix | src/pages/ProgramaPromotor.tsx:87 | The prefix is the first min(6, n) non-whitespace characters of the name, upper-cased. |
| ProgramaPromotor.UserName | src/pages/ProgramaPromotor.tsx:84-85 | A missing or empty name becomes "Usuario". |
| ProgramaPromotor.ReferralCode | src/pages/ProgramaPromotor.tsx:83-88 | The code is the name prefix (at most 6 characters) followed by the upper-cased random suffix. |
| ProgramaPromotor.CodePrefixOfPlainName | src/pages/ProgramaPromotor.tsx:87 | A name without whitespace keeps its first six characters, upper-cased. |
| ProgramaPromotor.CodePrefixOfBlankName | src/pages/ProgramaPromotor.tsx:87 | An all-whitespace name gives an empty prefix. |
| ProgramaPromotor.StatusColor | src/pages/ProgramaPromotor.tsx:189-197 | Pending is yellow, approved blue, completed green and rejected red. An unknown status is grey. |
| ProgramaPromotor.StatusText | src/pages/ProgramaPromotor.tsx:199-207 | Pending reads "Pendiente", approved "Aprobado", completed "Completado" and rejected "Rechazado". An unknown status is returned verbatim. |
| ProgramaPromotor.StatusesDistinguished | src/pages/ProgramaPromotor.tsx:189-207 | Different known statuses get different colours and different labels. |
| ProgramaPromotor.Promoter.constructor | src/pages/ProgramaPromotor.tsx:42-55 | It starts from the initial data, with no requests and amount 0. The state is consistent. |
| ProgramaPromotor.Promoter.SetPayoutAmount | src/pages/ProgramaPromotor.tsx:545 | The field takes `parseFloat(value) || 0`, and nothing else changes. |
| ProgramaPromotor.Promoter.ActivateProgram | src/pages/ProgramaPromotor.tsx:90-103 | It changes only `isActivated` (set) and `referralCode` (new code), and keeps consistency. |
| ProgramaPromotor.Promoter.UpdatePaymentInfo | src/pages/ProgramaPromotor.tsx:124-133 | Exactly one payment field takes the value. Every other field and the rest of the state are unchanged. |
| ProgramaPromotor.Promoter.RequestPayout | src/pages/ProgramaPromotor.tsx:135-185 | Callable only while the button is enabled (line 553). A failed check changes nothing. On success one pending request for the amount and method is appended, only `pendingPayouts` grows (by the amount), and the field is reset to 0. Pending ≤ earnings and "pending = sum of pending requests" are preserved. |
| CalidadVida.ProgressPercentage | src/pages/CalidadVida.tsx:46-48 | It is 0 when the total is ≤ 0, and owned / total × 100 otherwise. |
| CalidadVida.TotalDesiredCost | src/pages/CalidadVida.tsx:46 | The total cost is never negative when no cost is. |
| CalidadVida.OwnedCost | src/pages/CalidadVida.tsx:47 | With no negative cost, the owned cost lies between 0 and the total cost. |
| CalidadVida.CostBounds | src/pages/CalidadVida.tsx:46-48 | With costs ≥ 0: 0 ≤ owned ≤ total, owned + desired = total, and the progress is in 0..100. |
| CalidadVida.CostOf | src/pages/CalidadVida.tsx:69 | `parseFloat(text) || 0`: an unparseable cost becomes 0. |
| CalidadVida.ImageOf | src/pages/CalidadVida.tsx:84 | An image that trims to empty becomes undefined. Otherwise it is the trimmed text. |
| Text.TrimCharacterization | src/pages/CalidadVida.tsx:60 | `!s.trim()` holds iff every character is whitespace. Otherwise the trimmed text starts and ends with a non-whitespace character. |
| CalidadVida.WithToggled | src/pages/CalidadVida.tsx:133-137 | Only items with the id change ownership. Length and all other fields are unchanged. |
| CalidadVida.ToggleTwice | src/pages/CalidadVida.tsx:133-137 | Toggling twice restores the list. |
| CalidadVida.ToggleKeepsTotal | src/pages/CalidadVida.tsx:133-137 | Toggling leaves the total cost unchanged. |
| CalidadVida.WithEdited | src/pages/CalidadVida.tsx:110-114 | Items with the id get the new name, cost and image and keep their id and ownership. Other items are unchanged. |
| CalidadVida.EditKeepsCostsNonNegative | src/pages/CalidadVida.tsx:100-114 | An edit with a cost ≥ 0 keeps every cost ≥ 0. |
| CalidadVida.Without | src/pages/CalidadVida.tsx:126 | The items with the id go and the rest keep their order. |
| CalidadVida.FilteredItems | src/pages/CalidadVida.tsx:152 | It is the unowned items, in order, when the switch is on, and all items otherwise. |
| CalidadVida.LifestylePlanner.constructor | src/pages/CalidadVida.tsx:26-29 | It starts with the saved items, nothing being edited, and the switch off. |
| CalidadVida.LifestylePlanner.AddItem | src/pages/CalidadVida.tsx:59-95 | It refuses a blank name, then a negative cost. Otherwise one unowned item with the trimmed name and optional image is appended. Costs stay ≥ 0. |
| CalidadVida.LifestylePlanner.StartEditing | src/pages/CalidadVida.tsx:145-150 | It sets the item being edited and nothing else. |
| CalidadVida.LifestylePlanner.EditItem | src/pages/CalidadVida.tsx:97-123 | It does nothing without a target or with a blank name, and refuses a negative cost. Otherwise it rewrites the target and closes the edit. Costs stay ≥ 0. |
| CalidadVida.LifestylePlanner.DeleteItem | src/pages/CalidadVida.tsx:125-131 | It removes the id and keeps the order. Costs stay ≥ 0. |
| CalidadVida.LifestylePlanner.ToggleOwnership | src/pages/CalidadVida.tsx:133-137 | It toggles the items with the id and nothing else. |
| CalidadVida.LifestylePlanner.SetShowOnlyDesired | src/pages/CalidadVida.tsx:27 | It sets the switch and nothing else. |
| Cashflow.MonthlyAmount | src/pages/Cashflow.tsx:66-72 | Quarterly is amount / 3, yearly is amount / 12, and anything else is the amount. The sign is kept. |
| Cashflow.TotalMonthlyIncome | src/pages/Cashflow.tsx:74-76 | The monthly total is never negative when no amount is. |
| Cashflow.SampleTotal | src/pages/Cashflow.tsx:38-76 | The two sample sources give 850 a month. |
| Cashflow.YearlyAmount | src/pages/Cashflow.tsx:423 | A source's yearly amount is twelve of its monthly amounts (4 × amount quarterly, the amount yearly, 12 × amount otherwise). |
| Cashflow.AnnualProjection | src/pages/Cashflow.tsx:423 | 12 × the monthly total is the yearly income: quarterly sources count 4 times, yearly ones once, others 12 times. |
| Cashflow.ProgressToGoal | src/pages/Cashflow.tsx:78 | For a positive goal it is finite and ≤ 100, and below 100 it is the exact ratio. |
| Cashflow.CongratulationWhenGoalReached | src/pages/Cashflow.tsx:204 | The congratulation shows iff the monthly income reaches the goal. |
| Cashflow.CategoryInfo | src/pages/Cashflow.tsx:109-111 | It returns the category with that value, or "other" (index 5) when there is none. |
| Cashflow.FindCategory | src/pages/Cashflow.tsx:110 | `find` with the `|| categories[5]` fallback. |
| Cashflow.UnknownCategoryIsOther | src/pages/Cashflow.tsx:109-111 | An unknown value gives "Otros". |
| Cashflow.GroupedSources | src/pages/Cashflow.tsx:113-119 | Groups keep table order and only non-empty categories. Each holds its category's sources and their monthly total, and every used category gets a group. |
| Cashflow.CashflowTracker.constructor | src/pages/Cashflow.tsx:38-57 | It starts with the two sample sources and a goal of 2 000. |
| Cashflow.CashflowTracker.AddSource | src/pages/Cashflow.tsx:80-107 | It refuses only an empty name, amount text or category (0 and negative amounts are accepted). Otherwise one source is appended and the total grows by its monthly amount. |
| Cashflow.CashflowTracker.RaiseGoal | src/pages/Cashflow.tsx:291 | The goal grows by exactly 500, so it stays ≥ 2 000 and the progress stays finite. |
| IngresosActivos.MonthlyAmount | src/pages/IngresosActivos.tsx:83-96 | Weekly ×4.33, bi-weekly ×2.17, yearly /12, one-time 0, otherwise the amount. Never negative for a non-negative amount. |
| IngresosActivos.TotalMonthlyIncome | src/pages/IngresosActivos.tsx:98-100 | The monthly total is never negative when no amount is. |
| IngresosActivos.OneTimeIgnored | src/pages/IngresosActivos.tsx:89-100 | One-time incomes never contribute to the total. |
| IngresosActivos.TotalNonNegative | src/pages/IngresosActivos.tsx:98-100 | With positive amounts the total is ≥ 0. |
| IngresosActivos.AveragePerSource | src/pages/IngresosActivos.tsx:161 | There is an average iff there is at least one income, and average × count = total. |
| IngresosActivos.FrequencyLabel | src/pages/IngresosActivos.tsx:102-111 | Monthly reads "Mensual", bi-weekly "Quincenal", weekly "Semanal", yearly "Anual" and one-time "Pago único". An unknown frequency is returned verbatim. |
| IngresosActivos.FrequencyLabelsDistinct | src/pages/IngresosActivos.tsx:102-111 | Different frequencies get different labels. |
| IngresosActivos.IncomeLedger.constructor | src/pages/IngresosActivos.tsx:23 | It starts with the saved incomes. |
| IngresosActivos.IncomeLedger.AddIncome | src/pages/IngresosActivos.tsx:44-71 | An empty name or an amount ≤ 0 (unparseable counts as 0) is refused with no change. Otherwise one income is appended and the total grows by its monthly amount. |
| IngresosActivos.IncomeLedger.DeleteIncome | src/pages/IngresosActivos.tsx:73-81 | The incomes with the id go and the rest keep their order. |
| Patrimonio.NetWorthIsSumOfContributions | src/pages/Patrimonio.tsx:68-70 | The net worth (assets − liabilities) is the sum of +value for assets, −value for liabilities and 0 for other types. |
| Patrimonio.TotalAssets | src/pages/Patrimonio.tsx:68 | With no negative value, the assets' total lies between 0 and the value of all items. |
| Patrimonio.TotalLiabilities | src/pages/Patrimonio.tsx:69 | With no negative value, the liabilities' total lies between 0 and the value of all items. |
| Patrimonio.NetWorth | src/pages/Patrimonio.tsx:70 | Net worth plus liabilities equals assets, so with no negative value it never exceeds the assets. `NetWorthIsSumOfContributions` ties it to the per-item contributions. |
| Patrimonio.Contribution | src/pages/Patrimonio.tsx:68-70 | An asset adds its value, a liability subtracts it, and any other type adds nothing. `NetWorthIsSumOfContributions` proves the contributions sum to the net worth. |
| Patrimonio.NetWorthAppend | src/pages/Patrimonio.tsx:68-70 | Appending an item moves the net worth by its contribution. |
| Patrimonio.SampleNetWorth | src/pages/Patrimonio.tsx:50-70 | The sample gives a net worth of 110 000. |
| Patrimonio.RankIndex | src/pages/Patrimonio.tsx:100-107 | Rank thresholds: ≥ 500k Top 5%, ≥ 200k Top 20%, ≥ 100k Top 40%, ≥ 50k Promedio, else Inicial, each as an iff. |
| Patrimonio.NetWorthRank | src/pages/Patrimonio.tsx:100-107 | The rank is the table entry for the rank index, whatever the country. |
| Patrimonio.RankMonotone | src/pages/Patrimonio.tsx:100-107 | The rank is monotone in net worth and does not depend on the selected country. |
| Patrimonio.SampleRank | src/pages/Patrimonio.tsx:100-107 | The sample ranks "Top 40%". |
| Patrimonio.CategoryAssets | src/pages/Patrimonio.tsx:117-119 | An item is kept, in order, iff both its category and its type match. |
| Patrimonio.Portfolio.constructor | src/pages/Patrimonio.tsx:50-55 | It starts with the four sample items. |
| Patrimonio.Portfolio.AddAsset | src/pages/Patrimonio.tsx:72-98 | An empty name, value text or category is refused. Otherwise one item with the parsed value is appended and the net worth moves by its contribution. |
| Patrimonio.AddingAssetNeverLowersRank | src/pages/Patrimonio.tsx:100-107 | Adding an asset of value ≥ 0 never lowers the rank. |
| FinancialHealth.MonthlyShareOfWealth | src/components/dashboard/FinancialHealthSection.tsx:25-26 | The cashflow minimum and the cost-of-living maximum are 0.75% of patrimonio. |
| FinancialHealth.Indicators | src/components/dashboard/FinancialHealthSection.tsx:25-32 | cashflowHealthy iff cashflow > 0.75% of patrimonio. costoVidaHealthy iff gastos < 0.75%. ahorroHealthy iff nivelAhorro > 3 × gastos. |
| FinancialHealth.EqualityIsUnhealthy | src/components/dashboard/FinancialHealthSection.tsx:30-32 | Equality with a threshold is unhealthy for all three indicators. |
| FinancialHealth.BothHealthyMeansIncomeCoversCosts | src/components/dashboard/FinancialHealthSection.tsx:30-31 | Healthy cashflow and healthy costs together mean cashflow > gastos. |
| FinancialHealth.NoWealthNoHealthyCosts | src/components/dashboard/FinancialHealthSection.tsx:31 | With no positive patrimonio, costs ≥ 0 are never healthy. |
| WealthPage.PatrimonioTotal | src/pages/WealthLevels.tsx:11-26 | With no saved assets the wealth is 25 000. Otherwise it is the sum of contributions (+asset, −liability, 0 for other types). This is the value after the load effect. The initial 0 the card sees first is part of `WealthPage.Visit`. |
| WealthPage.SavedEmptyListIsZero | src/pages/WealthLevels.tsx:15-21 | A saved empty list gives 0, not the default. |
| WealthPage.OtherTypesIgnored | src/pages/WealthLevels.tsx:17-18 | An item of any other type leaves the wealth unchanged. |
| WealthPage.Visit | src/pages/WealthLevels.tsx:9-47 | The card first runs its level-up effect at the initial wealth 0, which stores level 1. After loading, whatever level was stored before the visit, it congratulates iff the loaded wealth is above level 1, and the loaded level is stored. |
| WealthPage.InitialWealthIsLevelOne | src/pages/WealthLevels.tsx:9 | The initial wealth 0 is level 1 on the card. |
| WealthPage.DefaultVisitCongratulates | src/pages/WealthLevels.tsx:22-25 | With no saved assets the loaded 25 000 is level 5, so every such visit congratulates after the first render stored level 1. |
| StoredJson.Field | src/pages/Profile.tsx:93-99 | Reading a missing key gives `undefined`, modelled as Null. |
| StoredJson.StringOr | src/pages/Profile.tsx:93-98 | `v || fallback` gives a non-empty string as-is and a falsy value as the fallback. |
| StoredJson.StringRoundTrip | src/pages/Profile.tsx:93-108 | A stored string reads back as itself, or as the fallback when it is empty. |
| Profile.LoadedProfile | src/pages/Profile.tsx:88-100 | Name and email come from the stored user, with `''` as the fallback. Every settings field falls back on its own (`|| ''`, `|| 'USD'`, `|| 'US'`, `|| 'Free'`, truthiness for the promoter flag), so a stored object without a key loads that key's default. Missing settings load as USD, US, Free and promoter inactive. |
| Profile.SavedUser | src/pages/Profile.tsx:106-109 | Saving overwrites name and email and keeps every other stored key. |
| Profile.SavedSettings | src/pages/Profile.tsx:112-119 | The saved settings have exactly the five keys, without `participateInClub`. |
| Profile.SaveLoadRoundTrip | src/pages/Profile.tsx:92-119 | Saving then loading gives the profile back iff currency, country and plan are non-empty (empty ones come back as defaults). |
| Profile.ScreenPassword | src/pages/Profile.tsx:128-153 | It checks in order: a missing field, then a mismatch, then length < 6. Each outcome is an iff: a mismatch beats a short password, and length 6 is accepted. |
| Profile.UserInitials | src/pages/Profile.tsx:172 | The initials are the upper-cased first characters of the space-separated pieces; empty pieces add nothing. `getUserInitials` in src/pages/ClubPatripoly.tsx:253-255 is the same rule. |
| Text.Split | src/pages/Profile.tsx:172 | `split(' ')` gives at least one piece. No piece contains the separator, and joining the pieces with it gives back the string. |
| Text.InitialsAreWordStarts | src/pages/Profile.tsx:172 | The initials are the upper-cased characters that start the name or follow a space, read left to right. |
| Profile.ProfilePage.constructor | src/pages/Profile.tsx:64-81 | It starts from the initial profile with empty password fields. |
| Profile.ProfilePage.Load | src/pages/Profile.tsx:83-102 | Without a stored user nothing changes. Otherwise the profile is loaded with defaults. |
| Profile.ProfilePage.SetPasswords | src/pages/Profile.tsx:74-78 | It sets the three password fields and nothing else. |
| Profile.ProfilePage.ChangePassword | src/pages/Profile.tsx:127-166 | The outcome is the ordered screen. Success clears the three fields; a rejection leaves them unchanged. |
| ClubPatripoly.LoadMembers | src/pages/ClubPatripoly.tsx:103-144 | The user is listed iff user and settings exist and `participateInClub` is truthy, always before the four static members. Level is `getCurrentWealthLevel(wealth).name`, with 25 000 when no assets are saved. |
| ClubPatripoly.MemberIdsDistinct | src/pages/ClubPatripoly.tsx:67-140 | The member ids are distinct. |
| ClubPatripoly.SavedProfileLeavesClub | src/pages/ClubPatripoly.tsx:112-116 | After the profile page saves its settings, only the static members are listed. |
| ClubPatripoly.DefaultWealthLevel | src/pages/ClubPatripoly.tsx:118-132 | With no saved assets, a participating user is at "Estratega". |
| ClubPatripoly.OnlineCount | src/pages/ClubPatripoly.tsx:477 | The online badge is 4 with the user listed and 3 otherwise. |
| ClubPatripoly.LevelColor | src/pages/ClubPatripoly.tsx:257-266 | An unmapped level gets "bg-muted". |
| ClubPatripoly.WealthLevelColors | src/pages/ClubPatripoly.tsx:257-266 | A member level from the wealth table is "bg-gradient-wealth" at level 8 ("Millonario") and "bg-muted" otherwise. |
| ClubPatripoly.TableColors | src/pages/ClubPatripoly.tsx:257-266 | Of the ten wealth-table names only level 8 gets a colour other than "bg-muted". |
| ClubPatripoly.FormatDate | src/pages/ClubPatripoly.tsx:235-244 | Floored elapsed hours bucket as < 1 "Hace unos minutos", < 24 "Hace {h}h", < 48 "Ayer", else a date. An unparseable date falls to the date bucket. |
| ClubPatripoly.FutureIsRecent | src/pages/ClubPatripoly.tsx:238-240 | A timestamp in the future shows "Hace unos minutos". |
| ClubPatripoly.Forum.constructor | src/pages/ClubPatripoly.tsx:146-177 | It starts with the three sample posts and an empty input. |
| ClubPatripoly.Forum.SetNewPost | src/pages/ClubPatripoly.tsx:62 | It sets the input and nothing else. |
| ClubPatripoly.Forum.PublishPost | src/pages/ClubPatripoly.tsx:212-233 | A whitespace-only post does nothing. Otherwise one post by "Tú" with 0 likes and 0 comments is prepended, the earlier posts keep their order, and the input is cleared. |

## Left out

- Rendering, animations, icons, dialogs, tabs and toasts. A toast appears only as a returned outcome or flag.
- Persistence: `localStorage` reads and writes are replaced by the state they hold. Stored values enter as parameters (`Option` for a missing key). JSON parsing is not modelled. Stored JSON is a flat map of null, booleans, numbers and strings, so nested objects, arrays and a stored `"null"` user are not modelled.
- Restoring a partially saved Duplicador state (`data.currentFlip || 1` and so on) is not modelled. The class starts at a first visit or a reset.
- Clocks, randomness and the browser: `Date.now()` ids, `new Date()` timestamps, `Math.random` suffixes, the clipboard and navigation are parameters or are left out. `FormatDate` takes the elapsed milliseconds, or `None` when the date does not parse.
- Number formatting (`Intl.NumberFormat`, `toFixed`, `toLocaleString`, `toLocaleDateString`): only the choice of branch and the value are modelled.
- Floating point: amounts are exact rationals, so IEEE-754 rounding of products such as ×4.33 and ×0.0075 is not modelled.
- Text parsing of amounts: `parseFloat` is replaced by its result, passed as a parameter (`Option` where `|| 0` applies). In Cashflow and Patrimonio an unparseable amount text gives NaN in the source; the model takes the parsed value as a real number.
- Text: upper-casing is ASCII-only (accented letters are kept as they are), and whitespace is JavaScript's full `trim`/`\s` set (the ASCII controls `\t`..`\r`, space, U+00A0, U+1680, U+2000–U+200A, U+2028, U+2029, U+202F, U+205F, U+3000 and U+FEFF). Strings are sequences of Unicode characters, whereas JavaScript's `length`, `substring` and `s[0]` count UTF-16 code units, so the two differ for characters outside the Basic Multilingual Plane (such as emoji).
- ScreenPassword (`Profile.ScreenPassword`): the six-character minimum counts characters, not UTF-16 code units. A password of three emoji is six code units, which the page accepts, but three characters, so the model calls it too short.
- CodePrefix (`ProgramaPromotor.CodePrefix`): `substring(0, 6)` keeps six UTF-16 code units. The model keeps six characters, so a name written in emoji keeps six of them where the page keeps three.
- UserInitials (`Profile.UserInitials`): `n[0]` is one UTF-16 code unit, which is half of a character outside the Basic Multilingual Plane. The model takes the whole character.
- Gastos.SortByTotalDesc: sortedness and permutation are proved, but not the stability of JavaScript's `sort` for equal totals.
- Duplicador.ExpectedAmount: requires flip ≥ 1; `Math.pow(2, flip - 1)` for flip < 1 gives fractions, which the page never reaches.
- Duplicador.UpcomingFlips: requires flip ≥ 1, as `calculateExpectedAmount` does.
- FlipProgressMap.FormatAmount: requires flip ≥ 1 for the same reason; the map only draws flips 1..maxFlips.
- Duplicador.Challenge.CompleteFlip: requires a log for the current flip, a guard the page enforces only through the disabled button.
- ProgramaPromotor.Promoter.RequestPayout: requires a displayed balance of at least 50 (`PayoutEnabled`), a guard the page enforces only through the disabled button. `requestPayout` itself does not check it. Its ensures appends to the list in append order. In the page, rendering the payouts tab (the tab holding the request button) sorts the stored list in place, newest `requestDate` first (src/pages/ProgramaPromotor.tsx:580-582). The stored order, and so the dashboard's `slice(0, 5)` at line 419, is then by date, not by insertion. Dates come from the clock, which the model leaves out.
- DashboardWealthLevels.LevelTracker.CheckLevelUp: the stored previous level is `Option<int>`. A stored text that `parseInt` turns into NaN, which never triggers the congratulation, is not modelled.
- StoredJson.StringOr: a truthy stored value that is not a string (a number or `true`) reads as the fallback, whereas `value || fallback` would pass it through.
- ClubPatripoly.LoadMembers: the member list is a function of the stored data rather than a `push` into a local array and a `setAllMembers` state update.
- ClubPatripoly.LevelColor: only the default is stated in its contract; the mapped colours are stated for the wealth-table names by `WealthLevelColors` and `TableColors`.
- Comments, likes and meetings in the club, the study centre, the paywall, authentication, routing and the dashboard sample data are not part of this model.
