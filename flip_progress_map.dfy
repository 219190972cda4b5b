/** The Duplicador journey map: one node per flip, each completed, current or
    locked, with its amount label, its "actions logged" dot and the connector
    to the next node. */
module FlipProgressMap {
  import opened Wrappers
  import opened Seqs
  import D = Duplicador
  import Card = FlipLevelCard

  /** `formatAmount(flip)`: the label of `2 ** (flip - 1)`, with the same
      million/thousand thresholds as the level card. */
  function FormatAmount(flip: int): (l: Card.CurrencyLabel)
    requires flip >= 1
    ensures l.Millions? <==> D.ExpectedAmount(flip) >= 1000000
    ensures l.Thousands? <==> 1000 <= D.ExpectedAmount(flip) < 1000000
    ensures l.Millions? ==> l.value * 1000000.0 == D.ExpectedAmount(flip) as real
    ensures l.Thousands? ==> l.value * 1000.0 == D.ExpectedAmount(flip) as real
    ensures l.Units? ==> l.units == D.ExpectedAmount(flip)
  {
    Card.FormatCurrency(D.ExpectedAmount(flip))
  }

  /** The label switches to thousands at flip 11 (1 024) and to millions at
      flip 21 (1 048 576). */
  lemma FormatAmountThresholds(flip: int)
    requires 1 <= flip <= D.MaxFlips
    ensures FormatAmount(flip).Units? <==> flip <= 10
    ensures FormatAmount(flip).Millions? <==> flip == D.MaxFlips
  {
    D.ExpectedAmountLandmarks();
    if flip <= 10 {
      D.Pow2Monotone(flip - 1, 9);
    } else {
      D.Pow2Monotone(10, flip - 1);
    }
    if flip < D.MaxFlips {
      D.Pow2Monotone(flip - 1, 19);
    }
  }

  /** `hasActionsForFlip(flip)`: `actionLogs.some(log => log.flip === flip)`. */
  function HasActionsForFlip(logs: seq<D.ActionLog>, flip: int): (b: bool)
    ensures b <==> D.HasLogFor(logs, flip)
  {
    if |logs| == 0 then false
    else logs[0].flip == flip || HasActionsForFlip(logs[1..], flip)
  }

  datatype Status = Completed | Current | Locked

  datatype Node = Node(
    flip: int,
    status: Status,
    amountLabel: Option<Card.CurrencyLabel>, // shown unless locked
    hasActions: bool,
    hasConnector: bool,                      // a line on to the next node
    tier: Card.Tier)

  /** The node drawn for `flip`. */
  function NodeFor(flip: int, currentFlip: int, maxFlips: int, logs: seq<D.ActionLog>): (n: Node)
    requires flip >= 1
    ensures n.flip == flip
    ensures (n.status == Completed <==> flip < currentFlip)
            && (n.status == Current <==> flip == currentFlip)
            && (n.status == Locked <==> flip > currentFlip)
    ensures n.amountLabel.Some? <==> flip <= currentFlip
    ensures n.amountLabel.Some? ==> n.amountLabel.value == FormatAmount(flip)
    ensures n.hasActions <==> D.HasLogFor(logs, flip)
    ensures n.hasConnector <==> flip < maxFlips
  {
    var status := if flip < currentFlip then Completed else if flip == currentFlip then Current else Locked;
    Node(flip, status,
         if status == Locked then None else Some(FormatAmount(flip)),
         HasActionsForFlip(logs, flip),
         flip < maxFlips,
         Card.GetFlipLevel(flip))
  }

  /** `Array.from({ length: maxFlips }, (_, i) => ...)`: the nodes for flips
      1..maxFlips, classified against the current flip. */
  function Nodes(currentFlip: int, maxFlips: nat, logs: seq<D.ActionLog>): (r: seq<Node>)
    ensures |r| == maxFlips
    ensures forall i :: 0 <= i < |r| ==> r[i].flip == i + 1
    ensures forall i :: 0 <= i < |r| ==>
              (r[i].status == Completed <==> r[i].flip < currentFlip)
              && (r[i].status == Current <==> r[i].flip == currentFlip)
              && (r[i].status == Locked <==> r[i].flip > currentFlip)
    ensures forall i :: 0 <= i < |r| ==> (r[i].amountLabel.Some? <==> r[i].status != Locked)
    ensures forall i :: 0 <= i < |r| ==> (r[i].hasConnector <==> i < |r| - 1)
    ensures forall i :: 0 <= i < |r| ==> (r[i].hasActions <==> D.HasLogFor(logs, i + 1))
  {
    seq(maxFlips, i requires 0 <= i => NodeFor(i + 1, currentFlip, maxFlips, logs))
  }

  predicate IsCompletedNode(n: Node)
  {
    n.status == Completed
  }

  /** Counting the elements of a sequence that satisfy `p` exactly below
      position `k`. */
  lemma {:induction false} CountBelow<T(!new)>(s: seq<T>, p: T -> bool, k: int)
    requires k >= 0
    requires forall i :: 0 <= i < |s| ==> (p(s[i]) <==> i < k)
    ensures Count(s, p) == if k <= |s| then k else |s|
  {
    if |s| > 0 && k > 0 {
      CountBelow(s[1..], p, k - 1);
    }
  }

  /** The map shows `min(currentFlip - 1, maxFlips)` completed nodes (none
      when the current flip is below 1). */
  lemma CompletedNodeCount(currentFlip: int, maxFlips: nat, logs: seq<D.ActionLog>)
    ensures Count(Nodes(currentFlip, maxFlips, logs), IsCompletedNode)
         == if currentFlip <= 1 then 0 else if currentFlip - 1 <= maxFlips then currentFlip - 1 else maxFlips
  {
    var k := if currentFlip <= 1 then 0 else currentFlip - 1;
    CountBelow(Nodes(currentFlip, maxFlips, logs), IsCompletedNode, k);
  }

  /** In a reachable challenge state exactly one of the 21 nodes is current. */
  lemma OneCurrentNode(currentFlip: int, amount: int, completed: bool, logs: seq<D.ActionLog>)
    requires D.Reachable(currentFlip, amount, completed)
    ensures forall i, j :: 0 <= i < j < D.MaxFlips ==>
              !(Nodes(currentFlip, D.MaxFlips, logs)[i].status == Current
                && Nodes(currentFlip, D.MaxFlips, logs)[j].status == Current)
    ensures Nodes(currentFlip, D.MaxFlips, logs)[currentFlip - 1].status == Current
  {
  }

  /** "Flips completados" on the stats card counts the completed nodes of the
      map: in a reachable state it is between 0 and 20 and equals the number
      of nodes drawn as completed. */
  lemma CompletedFlipsOnMap(currentFlip: int, amount: int, completed: bool, logs: seq<D.ActionLog>)
    requires D.Reachable(currentFlip, amount, completed)
    ensures 0 <= D.CompletedFlips(currentFlip) <= D.MaxFlips - 1
    ensures D.CompletedFlips(currentFlip) == Count(Nodes(currentFlip, D.MaxFlips, logs), IsCompletedNode)
  {
    CompletedNodeCount(currentFlip, D.MaxFlips, logs);
  }
}
