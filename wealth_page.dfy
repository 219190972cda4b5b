/** The wealth-levels page: the net worth it feeds to the level table, read
    from the saved assets with a default when none are saved. */
module WealthPage {
  import opened Wrappers
  import opened Seqs
  import Patrimonio
  import Lib = WealthLevelsLib
  import Card = DashboardWealthLevels

  const DefaultWealth: real := 25000.0

  /** The load effect: with no saved assets the net worth is 25 000;
      otherwise the 'asset' values less the 'liability' values, every other
      type ignored. */
  function PatrimonioTotal(savedAssets: Option<seq<Patrimonio.Asset>>): (w: real)
    ensures savedAssets.None? ==> w == DefaultWealth
    ensures savedAssets.Some? ==> w == Sum(savedAssets.value, Patrimonio.Contribution)
  {
    match savedAssets
    case None => DefaultWealth
    case Some(items) =>
      Patrimonio.NetWorthIsSumOfContributions(items);
      Patrimonio.NetWorth(items)
  }

  /** A saved empty list gives 0, not the default. */
  lemma SavedEmptyListIsZero()
    ensures PatrimonioTotal(Some([])) == 0.0
  {
  }

  /** Items of any other type leave the net worth unchanged. */
  lemma OtherTypesIgnored(items: seq<Patrimonio.Asset>, x: Patrimonio.Asset)
    requires x.kind != "asset" && x.kind != "liability"
    ensures PatrimonioTotal(Some(items + [x])) == PatrimonioTotal(Some(items))
  {
    SumAppend(items, x, Patrimonio.Contribution);
  }

  /** One visit of the page. The card first renders with the initial net
      worth 0, so its level-up effect runs at level 1 and stores 1. The load
      effect then sets the net worth; when that changes the level, the
      card's effect runs again and compares against the stored 1 (when it
      does not, the effect is not re-run, and running it would change
      nothing). Whatever level was stored before, the second run
      congratulates exactly when the loaded net worth is above level 1. */
  method Visit(card: Card.LevelTracker, savedAssets: Option<seq<Patrimonio.Asset>>)
    returns (atMount: bool, afterLoad: bool)
    modifies card
    ensures atMount == Card.LevelUpFires(old(card.savedLevel), 1)
    ensures afterLoad <==> Card.GetCurrentLevel(PatrimonioTotal(savedAssets)).level > 1
    ensures card.savedLevel == Some(Card.GetCurrentLevel(PatrimonioTotal(savedAssets)).level)
  {
    InitialWealthIsLevelOne();
    atMount := card.CheckLevelUp(0.0);
    afterLoad := card.CheckLevelUp(PatrimonioTotal(savedAssets));
  }

  /** The net worth 0 of the first render is level 1. */
  lemma InitialWealthIsLevelOne()
    ensures Card.GetCurrentLevel(0.0).level == 1
  {
    Card.SameLevelAsLibrary(0.0);
    Lib.FirstLevelBelow500(0.0);
  }

  /** With no saved assets the loaded 25 000 is level 5, so every visit
      congratulates after loading, even the first one and even when level 5
      was stored on the previous visit. */
  lemma DefaultVisitCongratulates()
    ensures Card.GetCurrentLevel(PatrimonioTotal(None)).level == 5
    ensures Card.LevelUpFires(Some(Card.GetCurrentLevel(0.0).level), Card.GetCurrentLevel(PatrimonioTotal(None)).level)
  {
    InitialWealthIsLevelOne();
    Card.SameLevelAsLibrary(DefaultWealth);
    Lib.CurrentLevelUnique(25000);
    assert Lib.WealthLevels[4] in Lib.WealthLevels && Lib.Contains(Lib.WealthLevels[4], 25000.0);
  }
}
