/** The Duplicador badges: ten fixed conditions on the challenge state
    (current flip, logged actions, current amount), split into the unlocked
    and the locked ones in table order. */
module AchievementBadges {
  import opened Seqs
  import D = Duplicador

  /** The condition a badge checks. */
  datatype Rule =
    | FlipAbove(flip: int)       // currentFlip > n
    | FlipAtLeast(flip: int)     // currentFlip >= n
    | AmountAtLeast(amount: int) // currentAmount >= n
    | LogsAtLeast(count: int)    // actionLogs.length >= n

  datatype Achievement = Achievement(id: string, name: string, rule: Rule)

  /** The challenge state the badges are computed from. */
  datatype Progress = Progress(flip: int, logs: seq<D.ActionLog>, amount: int)

  const Achievements: seq<Achievement> := [
    Achievement("first_flip", "Primer Paso", FlipAbove(1)),
    Achievement("five_flips", "En Racha", FlipAbove(5)),
    Achievement("ten_flips", "Imparable", FlipAbove(10)),
    Achievement("halfway", "Mitad del Camino", FlipAtLeast(11)),
    Achievement("thousand", "Primer Mil", AmountAtLeast(1000)),
    Achievement("ten_thousand", "Diez Mil", AmountAtLeast(10000)),
    Achievement("hundred_thousand", "Seis Cifras", AmountAtLeast(100000)),
    Achievement("millionaire", "Millonario", AmountAtLeast(1000000)),
    Achievement("documenter", "Documentador", LogsAtLeast(10)),
    Achievement("rocket", "Al Infinito", FlipAbove(15))
  ]

  /** `a.check(currentFlip, actionLogs, currentAmount)`. */
  predicate Check(r: Rule, p: Progress)
  {
    match r
    case FlipAbove(n) => p.flip > n
    case FlipAtLeast(n) => p.flip >= n
    case AmountAtLeast(n) => p.amount >= n
    case LogsAtLeast(n) => |p.logs| >= n
  }

  /** `s` has no element twice. */
  predicate Distinct<T(==)>(s: seq<T>)
  {
    forall i, j :: 0 <= i < j < |s| ==> s[i] != s[j]
  }

  /** `achievements.filter(a => a.check(...))`. */
  function Unlocked(p: Progress): (r: seq<Achievement>)
    ensures IsSubseq(r, Achievements)
    ensures forall a :: a in r <==> a in Achievements && Check(a.rule, p)
  {
    Filter(Achievements, (a: Achievement) => Check(a.rule, p))
  }

  /** `achievements.filter(a => !a.check(...))`. */
  function Locked(p: Progress): (r: seq<Achievement>)
    ensures IsSubseq(r, Achievements)
    ensures forall a :: a in r <==> a in Achievements && !Check(a.rule, p)
  {
    Filter(Achievements, (a: Achievement) => !Check(a.rule, p))
  }

  /** The unlocked and locked badges never share a badge, together hold every
      badge once, and their counts add up to the ten of the table. */
  lemma Partition(p: Progress)
    ensures forall a :: !(a in Unlocked(p) && a in Locked(p))
    ensures multiset(Unlocked(p)) + multiset(Locked(p)) == multiset(Achievements)
    ensures |Unlocked(p)| + |Locked(p)| == |Achievements| == 10
  {
    FilterPartition(Achievements, (a: Achievement) => Check(a.rule, p),
                    (a: Achievement) => !Check(a.rule, p));
  }

  /** State `q` has got at least as far as state `p`. */
  predicate AtLeastAsFar(p: Progress, q: Progress)
  {
    p.flip <= q.flip && p.amount <= q.amount && |p.logs| <= |q.logs|
  }

  /** Every condition is monotone: moving further never locks a badge again. */
  lemma RuleMonotone(r: Rule, p: Progress, q: Progress)
    requires AtLeastAsFar(p, q) && Check(r, p)
    ensures Check(r, q)
  {
  }

  /** So the unlocked set only grows as the challenge advances. */
  lemma UnlockedMonotone(p: Progress, q: Progress)
    requires AtLeastAsFar(p, q)
    ensures forall a :: a in Unlocked(p) ==> a in Unlocked(q)
  {
    forall a | a in Unlocked(p) ensures a in Unlocked(q) {
      RuleMonotone(a.rule, p, q);
    }
  }

  /** For whole flips "Imparable" (flip > 10) and "Mitad del Camino"
      (flip >= 11) are unlocked in exactly the same states. */
  lemma ImparableIsHalfway(p: Progress)
    ensures Achievements[2] in Unlocked(p) <==> Achievements[3] in Unlocked(p)
  {
  }

  /** On a reachable challenge state "Millonario" is unlocked exactly at
      flip 21, the completed challenge. */
  lemma MillonarioOnlyAtTheEnd(p: Progress, completed: bool)
    requires D.Reachable(p.flip, p.amount, completed)
    ensures Achievements[7] in Unlocked(p) <==> p.flip == D.MaxFlips
  {
    D.ReachableAmountBounds(p.flip, p.amount, completed);
  }

  /** At the start, flip 1 with 1 € and nothing logged, every badge is locked. */
  lemma NothingUnlockedAtStart()
    ensures Unlocked(Progress(1, [], 1)) == []
    ensures Locked(Progress(1, [], 1)) == Achievements
  {
    var p := Progress(1, [], 1);
    assert forall i :: 0 <= i < |Achievements| ==> !Check(Achievements[i].rule, p);
    FilterAll(Achievements, (a: Achievement) => !Check(a.rule, p));
    Partition(p);
  }

  /** A completed challenge with at least ten logged actions has unlocked
      all ten badges. */
  lemma AllUnlockedAtTheEnd(logs: seq<D.ActionLog>)
    requires |logs| >= 10
    ensures Unlocked(Progress(D.MaxFlips, logs, D.ExpectedAmount(D.MaxFlips))) == Achievements
  {
    D.ExpectedAmountLandmarks();
    var p := Progress(D.MaxFlips, logs, D.ExpectedAmount(D.MaxFlips));
    forall i | 0 <= i < |Achievements| ensures Check(Achievements[i].rule, p) {
      assert i == 0 || i == 1 || i == 2 || i == 3 || i == 4 || i == 5 || i == 6 || i == 7 || i == 8 || i == 9;
    }
    FilterAll(Achievements, (a: Achievement) => Check(a.rule, p));
  }
}
