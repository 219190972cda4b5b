/** The quality-of-life page: a list of desired monthly expenses ("lifestyle
    items"), each either already owned or still desired, and the share of
    the desired monthly cost already owned. */
module CalidadVida {
  import opened Wrappers
  import opened Seqs
  import Text

  datatype LifestyleItem = LifestyleItem(
    id: string, name: string, monthlyCost: real, isOwned: bool, imageUrl: Option<string>)

  function Cost(item: LifestyleItem): real
  {
    item.monthlyCost
  }

  predicate IsOwned(item: LifestyleItem)
  {
    item.isOwned
  }

  predicate IsDesired(item: LifestyleItem)
  {
    !item.isOwned
  }

  /** `totalDesiredCost`: the monthly cost of every item; never negative
      when no cost is. */
  function TotalDesiredCost(items: seq<LifestyleItem>): (t: real)
    ensures CostsNonNegative(items) ==> t >= 0.0
  {
    if CostsNonNegative(items) then
      SumNonNegative(items, Cost);
      Sum(items, Cost)
    else
      Sum(items, Cost)
  }

  /** `ownedCost`: the monthly cost of the owned items; with no negative
      cost, between 0 and the total. */
  function OwnedCost(items: seq<LifestyleItem>): (o: real)
    ensures CostsNonNegative(items) ==> 0.0 <= o <= TotalDesiredCost(items)
  {
    if CostsNonNegative(items) then
      SumFilterBounded(items, IsOwned, Cost);
      Sum(Filter(items, IsOwned), Cost)
    else
      Sum(Filter(items, IsOwned), Cost)
  }

  /** `progressPercentage`: the owned share of the total cost, 0 when the
      total is not positive. */
  function ProgressPercentage(items: seq<LifestyleItem>): (r: real)
    ensures TotalDesiredCost(items) <= 0.0 ==> r == 0.0
    ensures TotalDesiredCost(items) > 0.0 ==> r * TotalDesiredCost(items) == OwnedCost(items) * 100.0
  {
    var total := TotalDesiredCost(items);
    if total > 0.0 then OwnedCost(items) / total * 100.0 else 0.0
  }

  /** Every cost is zero or more, as the add and edit forms enforce. */
  predicate CostsNonNegative(items: seq<LifestyleItem>)
  {
    forall i :: 0 <= i < |items| ==> items[i].monthlyCost >= 0.0
  }

  /** With no negative cost, the owned cost lies between 0 and the total, the
      owned and desired costs add up to the total, and the progress lies in
      0..100. */
  lemma CostBounds(items: seq<LifestyleItem>)
    requires CostsNonNegative(items)
    ensures 0.0 <= OwnedCost(items) <= TotalDesiredCost(items)
    ensures OwnedCost(items) + Sum(Filter(items, IsDesired), Cost) == TotalDesiredCost(items)
    ensures 0.0 <= ProgressPercentage(items) <= 100.0
  {
    SumFilterBounded(items, IsOwned, Cost);
    SumSplit(items, IsOwned, IsDesired, Cost);
    var total := TotalDesiredCost(items);
    if total > 0.0 {
      PercentOfWhole(OwnedCost(items), total);
    }
  }

  /** A part between 0 and a positive whole is 0 to 100 percent of it. */
  lemma PercentOfWhole(part: real, whole: real)
    requires 0.0 <= part <= whole && whole > 0.0
    ensures 0.0 <= part / whole * 100.0 <= 100.0
  {
    assert part / whole <= 1.0 by {
      assert part / whole * whole == part;
    }
  }

  /** `parseFloat(text) || 0`: the parsed number, 0 when nothing parses (NaN). */
  function CostOf(parsed: Option<real>): (c: real)
    ensures parsed.None? ==> c == 0.0
    ensures parsed.Some? ==> c == parsed.value
  {
    parsed.GetOr(0.0)
  }

  /** `image.trim() || undefined`. */
  function ImageOf(image: string): (r: Option<string>)
    ensures r.None? <==> Text.IsBlank(image)
    ensures r.Some? ==> r.value == Text.Trim(image)
  {
    if Text.IsBlank(image) then None else Some(Text.Trim(image))
  }

  /** `toggleOwnership(id)`: the items with that id change hands. */
  function WithToggled(items: seq<LifestyleItem>, id: string): (r: seq<LifestyleItem>)
    ensures |r| == |items|
    ensures forall i :: 0 <= i < |items| ==>
              if items[i].id == id then r[i] == items[i].(isOwned := !items[i].isOwned)
              else r[i] == items[i]
  {
    seq(|items|, i requires 0 <= i < |items| =>
      if items[i].id == id then items[i].(isOwned := !items[i].isOwned) else items[i])
  }

  /** Toggling the same item twice gives back the original list. */
  lemma ToggleTwice(items: seq<LifestyleItem>, id: string)
    ensures WithToggled(WithToggled(items, id), id) == items
  {
  }

  /** Toggling changes nobody's cost, so the total stays the same. */
  lemma ToggleKeepsTotal(items: seq<LifestyleItem>, id: string)
    ensures TotalDesiredCost(WithToggled(items, id)) == TotalDesiredCost(items)
  {
    SumPointwise(WithToggled(items, id), items, Cost);
  }

  /** `handleEditItem`'s map: the items with that id get the new name, cost and
      image and keep their id and ownership. */
  function WithEdited(items: seq<LifestyleItem>, id: string, name: string, cost: real,
                      image: Option<string>): (r: seq<LifestyleItem>)
    ensures |r| == |items|
    ensures forall i :: 0 <= i < |items| && items[i].id != id ==> r[i] == items[i]
    ensures forall i :: 0 <= i < |items| && items[i].id == id ==>
              r[i] == LifestyleItem(id, name, cost, items[i].isOwned, image)
  {
    seq(|items|, i requires 0 <= i < |items| =>
      if items[i].id == id then items[i].(name := name, monthlyCost := cost, imageUrl := image)
      else items[i])
  }

  /** Editing with a cost of zero or more keeps every cost at zero or more. */
  lemma EditKeepsCostsNonNegative(items: seq<LifestyleItem>, id: string, name: string, cost: real,
                                  image: Option<string>)
    requires CostsNonNegative(items) && cost >= 0.0
    ensures CostsNonNegative(WithEdited(items, id, name, cost, image))
  {
    var r := WithEdited(items, id, name, cost, image);
    forall i | 0 <= i < |r| ensures r[i].monthlyCost >= 0.0 {
      if items[i].id == id {
        assert r[i].monthlyCost == cost;
      } else {
        assert r[i] == items[i];
      }
    }
  }

  /** `items.filter(item => item.id !== id)`. */
  function Without(items: seq<LifestyleItem>, id: string): (r: seq<LifestyleItem>)
    ensures IsSubseq(r, items)
    ensures forall x :: x in r <==> x in items && x.id != id
  {
    Filter(items, (x: LifestyleItem) => x.id != id)
  }

  /** `filteredItems`: only the desired items when the switch is on. */
  function FilteredItems(items: seq<LifestyleItem>, showOnlyDesired: bool): (r: seq<LifestyleItem>)
    ensures IsSubseq(r, items)
    ensures !showOnlyDesired ==> r == items
    ensures showOnlyDesired ==> forall x :: x in r <==> x in items && !x.isOwned
  {
    SubseqRefl(items);
    if showOnlyDesired then Filter(items, IsDesired) else items
  }

  datatype AddOutcome = Added | BlankName | NegativeCost

  datatype EditOutcome = Edited | NothingToEdit | EditNegativeCost

  /** The page state. */
  class LifestylePlanner {
    var items: seq<LifestyleItem>
    var editingItem: Option<LifestyleItem>
    var showOnlyDesired: bool

    constructor(saved: seq<LifestyleItem>)
      ensures items == saved && editingItem == None && !showOnlyDesired
    {
      items, editingItem, showOnlyDesired := saved, None, false;
    }

    /** `handleAddItem`: a blank name or a negative cost is refused; otherwise
        a desired item with the trimmed name is appended. */
    method AddItem(id: string, name: string, costInput: Option<real>, image: string)
      returns (outcome: AddOutcome)
      modifies this
      ensures outcome == BlankName <==> Text.IsBlank(name)
      ensures outcome == NegativeCost <==> !Text.IsBlank(name) && CostOf(costInput) < 0.0
      ensures outcome == Added ==>
                items == old(items) + [LifestyleItem(id, Text.Trim(name), CostOf(costInput), false, ImageOf(image))]
      ensures outcome != Added ==> items == old(items)
      ensures editingItem == old(editingItem) && showOnlyDesired == old(showOnlyDesired)
      ensures CostsNonNegative(old(items)) ==> CostsNonNegative(items)
    {
      if Text.IsBlank(name) {
        return BlankName;
      }
      var cost := CostOf(costInput);
      if cost < 0.0 {
        return NegativeCost;
      }
      items := items + [LifestyleItem(id, Text.Trim(name), cost, false, ImageOf(image))];
      outcome := Added;
    }

    /** `startEditing(item)`. */
    method StartEditing(item: LifestyleItem)
      modifies this
      ensures editingItem == Some(item)
      ensures items == old(items) && showOnlyDesired == old(showOnlyDesired)
    {
      editingItem := Some(item);
    }

    /** `handleEditItem`: without a target or with a blank name nothing
        happens; a negative cost is refused; otherwise the target's name, cost
        and image are replaced and the edit closes. */
    method EditItem(name: string, costInput: Option<real>, image: string) returns (outcome: EditOutcome)
      modifies this
      ensures outcome == NothingToEdit <==> old(editingItem).None? || Text.IsBlank(name)
      ensures outcome == EditNegativeCost <==>
                old(editingItem).Some? && !Text.IsBlank(name) && CostOf(costInput) < 0.0
      ensures outcome == Edited ==>
                items == WithEdited(old(items), old(editingItem).value.id, Text.Trim(name),
                                    CostOf(costInput), ImageOf(image))
                && editingItem == None
      ensures outcome != Edited ==> items == old(items) && editingItem == old(editingItem)
      ensures showOnlyDesired == old(showOnlyDesired)
      ensures CostsNonNegative(old(items)) ==> CostsNonNegative(items)
    {
      if editingItem.None? || Text.IsBlank(name) {
        return NothingToEdit;
      }
      var cost := CostOf(costInput);
      if cost < 0.0 {
        return EditNegativeCost;
      }
      if CostsNonNegative(items) {
        EditKeepsCostsNonNegative(items, editingItem.value.id, Text.Trim(name), cost, ImageOf(image));
      }
      items := WithEdited(items, editingItem.value.id, Text.Trim(name), cost, ImageOf(image));
      editingItem := None;
      outcome := Edited;
    }

    /** `handleDeleteItem(id)`. */
    method DeleteItem(id: string)
      modifies this
      ensures items == Without(old(items), id)
      ensures CostsNonNegative(old(items)) ==> CostsNonNegative(items)
      ensures editingItem == old(editingItem) && showOnlyDesired == old(showOnlyDesired)
    {
      items := Without(items, id);
    }

    /** `toggleOwnership(id)`. */
    method ToggleOwnership(id: string)
      modifies this
      ensures items == WithToggled(old(items), id)
      ensures CostsNonNegative(old(items)) ==> CostsNonNegative(items)
      ensures editingItem == old(editingItem) && showOnlyDesired == old(showOnlyDesired)
    {
      items := WithToggled(items, id);
    }

    /** The "only desired" switch. */
    method SetShowOnlyDesired(on: bool)
      modifies this
      ensures showOnlyDesired == on
      ensures items == old(items) && editingItem == old(editingItem)
    {
      showOnlyDesired := on;
    }
  }
}
