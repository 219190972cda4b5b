/** The Duplicador challenge: double a symbolic 1 € twenty times, logging at
    least one action per step ("flip"), from flip 1 up to flip 21. */
module Duplicador {
  import Text
  import opened Seqs

  const MaxFlips: int := 21
  const TargetAmount: int := 1000000

  /** One documented action; it is tagged with the flip and amount current
      when it was logged. */
  datatype ActionLog = ActionLog(id: string, flip: int, description: string, date: string, amount: int)

  /** `2 ** n`. */
  function Pow2(n: nat): (r: nat)
    ensures r >= 1
  {
    if n == 0 then 1 else 2 * Pow2(n - 1)
  }

  /** Powers of two grow with the exponent. */
  lemma {:induction false} Pow2Monotone(a: nat, b: nat)
    requires a <= b
    ensures Pow2(a) <= Pow2(b)
    ensures a < b ==> 2 * Pow2(a) <= Pow2(b)
    decreases b
  {
    if a < b {
      Pow2Monotone(a, b - 1);
    }
  }

  /** `calculateExpectedAmount(flip)`: the amount at a flip, 1 at flip 1 and
      doubling at every further flip. */
  function ExpectedAmount(flip: int): (r: int)
    requires flip >= 1
    ensures r >= 1
    ensures flip == 1 ==> r == 1
  {
    Pow2(flip - 1)
  }

  /** Every flip doubles the amount of the one before it. */
  lemma ExpectedAmountDoubles(flip: int)
    requires flip >= 1
    ensures ExpectedAmount(flip + 1) == 2 * ExpectedAmount(flip)
  {
  }

  /** The amounts the challenge names: 1 024 at flip 11 and 1 048 576, the
      "≈ 1 M€", at flip 21; the target of one million is first passed at flip 21. */
  lemma ExpectedAmountLandmarks()
    ensures ExpectedAmount(11) == 1024
    ensures ExpectedAmount(20) == 524288
    ensures ExpectedAmount(MaxFlips) == 1048576
    ensures ExpectedAmount(20) < TargetAmount <= ExpectedAmount(MaxFlips)
  {
  }

  /** `actionLogs.filter(log => log.flip === flip)`. */
  function LogsFor(logs: seq<ActionLog>, flip: int): seq<ActionLog>
  {
    Filter(logs, (l: ActionLog) => l.flip == flip)
  }

  /** Some action was logged for `flip`: exactly when the filtered list the
      page counts is not empty. */
  predicate HasLogFor(logs: seq<ActionLog>, flip: int)
    ensures HasLogFor(logs, flip) <==> |LogsFor(logs, flip)| > 0
  {
    var logged := LogsFor(logs, flip);
    assert |logged| > 0 ==> logged[0] in logs;
    assert forall i :: 0 <= i < |logs| && logs[i].flip == flip ==> logs[i] in logged;
    exists i :: 0 <= i < |logs| && logs[i].flip == flip
  }

  /** The states reachable from a reset: the flip lies in 1..21, the amount is
      the expected amount for it, and the challenge counts as completed
      exactly at flip 21. */
  predicate Reachable(flip: int, amount: int, completed: bool)
    ensures Reachable(flip, amount, completed) ==> 1 <= amount <= ExpectedAmount(MaxFlips)
  {
    if 1 <= flip <= MaxFlips then
      Pow2Monotone(flip - 1, MaxFlips - 1);
      amount == ExpectedAmount(flip) && (completed <==> flip == MaxFlips)
    else
      false
  }

  /** A completed challenge stands at flip 21 with 1 048 576 €. */
  lemma CompletedAmount(flip: int, amount: int)
    requires Reachable(flip, amount, true)
    ensures flip == 21 && amount == 1048576
  {
    ExpectedAmountLandmarks();
  }

  /** In a reachable state the amount is at most 1 048 576 and is at least one
      million only at flip 21. */
  lemma {:induction false} ReachableAmountBounds(flip: int, amount: int, completed: bool)
    requires Reachable(flip, amount, completed)
    ensures 1 <= amount <= 1048576
    ensures amount >= TargetAmount <==> flip == MaxFlips
  {
    ExpectedAmountLandmarks();
    Pow2Monotone(flip - 1, 20);
    if flip < MaxFlips {
      Pow2Monotone(flip - 1, 19);
    }
  }

  /** The "Completar Flip" button is shown below flip 21 and enabled once an
      action has been logged for the current flip. */
  predicate CanCompleteFlip(flip: int, logs: seq<ActionLog>)
    ensures CanCompleteFlip(flip, logs) <==>
              flip < MaxFlips && |LogsFor(logs, flip)| != 0
  {
    flip < MaxFlips && HasLogFor(logs, flip)
  }

  /** One entry of the "Próximos Flips" panel. */
  datatype Upcoming = Upcoming(flip: int, amount: int)

  /** The upcoming-flips panel: `min(5, 21 - flip)` flips, numbered on from
      the current one, each with its expected amount. */
  function UpcomingFlips(flip: int): (r: seq<Upcoming>)
    requires flip >= 1
    ensures |r| == (if MaxFlips - flip <= 0 then 0 else if MaxFlips - flip < 5 then MaxFlips - flip else 5)
    ensures forall i :: 0 <= i < |r| ==> flip < r[i].flip <= MaxFlips && r[i].flip == flip + i + 1
    ensures forall i :: 0 <= i < |r| ==> r[i].amount == ExpectedAmount(r[i].flip)
  {
    var n := if MaxFlips - flip <= 0 then 0 else if MaxFlips - flip < 5 then MaxFlips - flip else 5;
    seq(n, i requires 0 <= i => Upcoming(flip + i + 1, ExpectedAmount(flip + i + 1)))
  }

  /** Each upcoming amount doubles the one before it. */
  lemma UpcomingDoubles(flip: int)
    requires flip >= 1
    ensures var r := UpcomingFlips(flip);
            forall i :: 0 < i < |r| ==> r[i].amount == 2 * r[i - 1].amount
  {
    var r := UpcomingFlips(flip);
    forall i | 0 < i < |r| ensures r[i].amount == 2 * r[i - 1].amount {
      ExpectedAmountDoubles(flip + i);
    }
  }

  /** The number shown as "Flips completados". */
  function CompletedFlips(flip: int): (n: int)
    ensures n + 1 == flip
  {
    flip - 1
  }

  /** `progressPercentage`: the current flip as a share of the 21 flips. */
  function ProgressPercentage(flip: int): (r: real)
    ensures r * (MaxFlips as real) == flip as real * 100.0
  {
    flip as real / MaxFlips as real * 100.0
  }

  /** In a reachable state the bar is never empty (it starts at 100/21) and it
      is full exactly when the challenge is completed. */
  lemma ProgressOfReachable(flip: int, amount: int, completed: bool)
    requires Reachable(flip, amount, completed)
    ensures 0.0 < ProgressPercentage(flip) <= 100.0
    ensures ProgressPercentage(flip) == 100.0 <==> completed
  {
    var r := ProgressPercentage(flip);
    assert r * 21.0 == flip as real * 100.0;
  }

  /** "Restante para el objetivo": the target less the current amount. */
  function RemainingToTarget(amount: int): (r: int)
    ensures r + amount == TargetAmount
  {
    TargetAmount - amount
  }

  /** The remaining amount is positive before flip 21 and becomes -48 576 once
      the challenge is completed, since 2^20 overshoots the target. */
  lemma RemainingInReachable(flip: int, amount: int, completed: bool)
    requires Reachable(flip, amount, completed)
    ensures !completed ==> RemainingToTarget(amount) > 0
    ensures completed ==> RemainingToTarget(amount) == -48576
  {
    ReachableAmountBounds(flip, amount, completed);
    ExpectedAmountLandmarks();
  }

  /** The challenge page state. */
  class Challenge {
    var currentFlip: int
    var currentAmount: int
    var actionLogs: seq<ActionLog>
    var isCompleted: bool
    var showIntro: bool

    ghost predicate Valid()
      reads this
    {
      Reachable(currentFlip, currentAmount, isCompleted)
    }

    /** The state of a first visit: flip 1, 1 €, no logs, the intro shown. */
    constructor()
      ensures Valid()
      ensures currentFlip == 1 && currentAmount == 1 && actionLogs == []
      ensures !isCompleted && showIntro
    {
      currentFlip, currentAmount, actionLogs := 1, 1, [];
      isCompleted, showIntro := false, true;
    }

    /** "Comenzar Challenge": leave the intro. */
    method Start()
      modifies this
      ensures !showIntro
      ensures currentFlip == old(currentFlip) && currentAmount == old(currentAmount)
      ensures actionLogs == old(actionLogs) && isCompleted == old(isCompleted)
    {
      showIntro := false;
    }

    /** `handleAddAction`: a blank description is refused and nothing changes;
        otherwise one log, tagged with the current flip and amount and holding
        the description as typed, is appended. */
    method AddAction(id: string, description: string, date: string) returns (accepted: bool)
      modifies this
      ensures accepted <==> !Text.IsBlank(description)
      ensures accepted ==> actionLogs == old(actionLogs)
                                         + [ActionLog(id, old(currentFlip), description, date, old(currentAmount))]
      ensures !accepted ==> actionLogs == old(actionLogs)
      ensures currentFlip == old(currentFlip) && currentAmount == old(currentAmount)
      ensures isCompleted == old(isCompleted) && showIntro == old(showIntro)
    {
      if Text.IsBlank(description) {
        return false;
      }
      actionLogs := actionLogs + [ActionLog(id, currentFlip, description, date, currentAmount)];
      accepted := true;
    }

    /** `handleCompleteFlip`, reachable only through the enabled button: below
        flip 21 it moves to the next flip and its doubled amount, and marks the
        challenge completed on reaching flip 21; at flip 21 it does nothing. */
    method CompleteFlip()
      requires Valid()
      requires HasLogFor(actionLogs, currentFlip)
      modifies this
      ensures Valid()
      ensures old(currentFlip) >= MaxFlips ==>
                currentFlip == old(currentFlip) && currentAmount == old(currentAmount)
                && isCompleted == old(isCompleted)
      ensures old(currentFlip) < MaxFlips ==>
                currentFlip == old(currentFlip) + 1 && currentAmount == 2 * old(currentAmount)
                && (isCompleted <==> currentFlip == MaxFlips)
      ensures actionLogs == old(actionLogs) && showIntro == old(showIntro)
    {
      if currentFlip < MaxFlips {
        var nextFlip := currentFlip + 1;
        ExpectedAmountDoubles(currentFlip);
        currentFlip, currentAmount := nextFlip, ExpectedAmount(nextFlip);
        if nextFlip == MaxFlips {
          isCompleted := true;
        }
      }
    }

    /** `resetChallenge`: back to the first-visit state, logs discarded. */
    method Reset()
      modifies this
      ensures Valid()
      ensures currentFlip == 1 && currentAmount == 1 && actionLogs == []
      ensures !isCompleted && showIntro
    {
      currentFlip, currentAmount, actionLogs := 1, 1, [];
      isCompleted, showIntro := false, true;
    }
  }
}
