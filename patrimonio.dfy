/** The net-worth page: assets and liabilities by category, the net worth
    they give, and a rank by fixed thresholds. */
module Patrimonio {
  import opened Seqs

  /** `kind` is the source's `type`: 'asset' or 'liability'. */
  datatype Asset = Asset(id: string, name: string, value: real, category: string, kind: string)

  /** The items the page starts with. */
  const SampleAssets: seq<Asset> := [
    Asset("1", "Casa Principal", 250000.0, "real-estate", "asset"),
    Asset("2", "Coche", 15000.0, "vehicles", "asset"),
    Asset("3", "Cuenta de Ahorros", 25000.0, "savings", "asset"),
    Asset("4", "Hipoteca Casa", 180000.0, "mortgage", "liability")
  ]

  predicate IsAsset(a: Asset)
  {
    a.kind == "asset"
  }

  predicate IsLiability(a: Asset)
  {
    a.kind == "liability"
  }

  function Value(a: Asset): real
  {
    a.value
  }

  /** No item has a negative value, as the add form's inputs suggest. */
  predicate ValuesNonNegative(items: seq<Asset>)
  {
    forall i :: 0 <= i < |items| ==> items[i].value >= 0.0
  }

  /** `totalAssets`: with no negative value, between 0 and the value of all
      items. */
  function TotalAssets(items: seq<Asset>): (t: real)
    ensures ValuesNonNegative(items) ==> 0.0 <= t <= Sum(items, Value)
  {
    if ValuesNonNegative(items) then
      SumFilterBounded(items, IsAsset, Value);
      Sum(Filter(items, IsAsset), Value)
    else
      Sum(Filter(items, IsAsset), Value)
  }

  /** `totalLiabilities`: with no negative value, between 0 and the value of
      all items. */
  function TotalLiabilities(items: seq<Asset>): (t: real)
    ensures ValuesNonNegative(items) ==> 0.0 <= t <= Sum(items, Value)
  {
    if ValuesNonNegative(items) then
      SumFilterBounded(items, IsLiability, Value);
      Sum(Filter(items, IsLiability), Value)
    else
      Sum(Filter(items, IsLiability), Value)
  }

  /** `netWorth`: assets less liabilities, which is the sum of the items'
      contributions (`NetWorthIsSumOfContributions`). */
  function NetWorth(items: seq<Asset>): (n: real)
    ensures n + TotalLiabilities(items) == TotalAssets(items)
    ensures ValuesNonNegative(items) ==> n <= TotalAssets(items)
  {
    TotalAssets(items) - TotalLiabilities(items)
  }

  /** What one item adds to the net worth: its value for an asset, minus its
      value for a liability, nothing for any other type. */
  function Contribution(a: Asset): (c: real)
    ensures IsAsset(a) ==> c == a.value
    ensures IsLiability(a) ==> c == -a.value
    ensures !IsAsset(a) && !IsLiability(a) ==> c == 0.0
  {
    if IsAsset(a) then a.value else if IsLiability(a) then -a.value else 0.0
  }

  /** The net worth is the sum of the items' contributions. */
  lemma {:induction false} NetWorthIsSumOfContributions(items: seq<Asset>)
    ensures NetWorth(items) == Sum(items, Contribution)
  {
    if |items| > 0 {
      var x, rest := items[0], items[1..];
      assert items == [x] + rest;
      NetWorthIsSumOfContributions(rest);
      SumPrepend(x, rest, Contribution);
      if IsAsset(x) {
        SumPrepend(x, Filter(rest, IsAsset), Value);
      }
      if IsLiability(x) {
        SumPrepend(x, Filter(rest, IsLiability), Value);
      }
    }
  }

  /** Appending an item moves the net worth by its contribution. */
  lemma NetWorthAppend(items: seq<Asset>, x: Asset)
    ensures NetWorth(items + [x]) == NetWorth(items) + Contribution(x)
  {
    NetWorthIsSumOfContributions(items + [x]);
    NetWorthIsSumOfContributions(items);
    SumAppend(items, x, Contribution);
  }

  /** Summing four elements. */
  lemma SumOfFour<T>(a: T, b: T, c: T, d: T, f: T -> real)
    ensures Sum([a, b, c, d], f) == f(a) + f(b) + f(c) + f(d)
  {
    assert [a, b, c, d] == [a, b, c] + [d];
    assert [a, b, c] == [a, b] + [c];
    assert [a, b] == [a] + [b];
    assert [a] == [] + [a];
    SumAppend([], a, f);
    SumAppend([a], b, f);
    SumAppend([a, b], c, f);
    SumAppend([a, b, c], d, f);
  }

  /** The sample: 290 000 of assets less a 180 000 mortgage. */
  lemma SampleNetWorth()
    ensures NetWorth(SampleAssets) == 110000.0
  {
    NetWorthIsSumOfContributions(SampleAssets);
    SumOfFour(SampleAssets[0], SampleAssets[1], SampleAssets[2], SampleAssets[3], Contribution);
    assert SampleAssets == [SampleAssets[0], SampleAssets[1], SampleAssets[2], SampleAssets[3]];
  }

  datatype Rank = Rank(level: string, color: string)

  /** The ranks from the lowest to the highest. */
  const Ranks: seq<Rank> := [
    Rank("Inicial", "bg-muted text-muted-foreground"),
    Rank("Promedio", "bg-yellow text-black"),
    Rank("Top 40%", "bg-teal text-white"),
    Rank("Top 20%", "bg-gradient-secondary text-white"),
    Rank("Top 5%", "bg-gradient-primary text-white")
  ]

  /** The position in `Ranks` of the rank of a net worth. */
  function RankIndex(netWorth: real): (i: nat)
    ensures i < |Ranks|
    ensures i == 4 <==> netWorth >= 500000.0
    ensures i == 3 <==> 200000.0 <= netWorth < 500000.0
    ensures i == 2 <==> 100000.0 <= netWorth < 200000.0
    ensures i == 1 <==> 50000.0 <= netWorth < 100000.0
    ensures i == 0 <==> netWorth < 50000.0
  {
    if netWorth >= 500000.0 then 4
    else if netWorth >= 200000.0 then 3
    else if netWorth >= 100000.0 then 2
    else if netWorth >= 50000.0 then 1
    else 0
  }

  /** `getNetWorthRank()`: the selected country is looked up but plays no
      part in the rank. */
  function NetWorthRank(netWorth: real, selectedCountry: string): (r: Rank)
    ensures r == Ranks[RankIndex(netWorth)]
  {
    Ranks[RankIndex(netWorth)]
  }

  /** A larger net worth never ranks lower, and the country never matters. */
  lemma RankMonotone(w1: real, w2: real, c1: string, c2: string)
    requires w1 <= w2
    ensures RankIndex(w1) <= RankIndex(w2)
    ensures NetWorthRank(w1, c1) == NetWorthRank(w1, c2)
  {
  }

  /** The sample ranks "Top 40%". */
  lemma SampleRank(country: string)
    ensures NetWorthRank(NetWorth(SampleAssets), country).level == "Top 40%"
  {
    SampleNetWorth();
  }

  /** `getCategoryAssets(categoryId, type)`. */
  function CategoryAssets(items: seq<Asset>, categoryId: string, kind: string): (r: seq<Asset>)
    ensures IsSubseq(r, items)
    ensures forall a :: a in r <==> a in items && a.category == categoryId && a.kind == kind
  {
    Filter(items, (a: Asset) => a.category == categoryId && a.kind == kind)
  }

  /** The page state. */
  class Portfolio {
    var assets: seq<Asset>

    constructor()
      ensures assets == SampleAssets
    {
      assets := SampleAssets;
    }

    /** `handleAddAsset`: an empty name, value text or category is refused;
        otherwise the item with the parsed value is appended and the net worth
        moves by its contribution. */
    method AddAsset(id: string, name: string, valueText: string, value: real, category: string, kind: string)
      returns (added: bool)
      modifies this
      ensures added <==> name != "" && valueText != "" && category != ""
      ensures added ==> assets == old(assets) + [Asset(id, name, value, category, kind)]
      ensures added ==> NetWorth(assets) == NetWorth(old(assets)) + Contribution(Asset(id, name, value, category, kind))
      ensures !added ==> assets == old(assets)
    {
      if name == "" || valueText == "" || category == "" {
        return false;
      }
      NetWorthAppend(assets, Asset(id, name, value, category, kind));
      assets := assets + [Asset(id, name, value, category, kind)];
      added := true;
    }
  }

  /** Adding an asset of non-negative value never lowers the rank. */
  lemma AddingAssetNeverLowersRank(items: seq<Asset>, x: Asset)
    requires IsAsset(x) && x.value >= 0.0
    ensures RankIndex(NetWorth(items)) <= RankIndex(NetWorth(items + [x]))
  {
    NetWorthAppend(items, x);
    RankMonotone(NetWorth(items), NetWorth(items + [x]), "", "");
  }
}
