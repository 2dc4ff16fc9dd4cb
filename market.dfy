// components/market/TopMovers.tsx and components/market/MarketSummary.tsx:
// the dashboard's movers lists and market summary, computed from the stock
// list. JavaScript's NaN does not arise over reals, except as the average of
// an empty list, which is None here.
module Market {
  import opened Wrappers
  import Seqs
  import ApiTypes

  type Stock = ApiTypes.Stock

  datatype Movers = Gainers | Losers

  const DefaultLimit: nat := 5

  /** The sort key: gainers by changePercent descending, losers ascending. */
  function RankKey(kind: Movers): Stock -> real
  {
    (s: Stock) => if kind == Gainers then -s.changePercent else s.changePercent
  }

  /** Who counts as a mover: a positive change for gainers, a negative one for losers. */
  function Moves(kind: Movers): Stock -> bool
  {
    (s: Stock) => if kind == Gainers then s.change > 0.0 else s.change < 0.0
  }

  /** The copy-sort-filter-slice chain of TopMovers; the input list itself is a value and is not reordered. */
  function TopMovers(stocks: seq<Stock>, kind: Movers, limit: nat): (r: seq<Stock>)
    ensures |r| <= limit
  {
    var ranked := Ranked(stocks, kind);
    if limit < |ranked| then ranked[..limit] else ranked
  }

  /** The movers before the cut: every mover of the input once, best first. */
  function Ranked(stocks: seq<Stock>, kind: Movers): seq<Stock>
  {
    Seqs.Filter(Seqs.SortBy(stocks, RankKey(kind)), Moves(kind))
  }

  lemma RankedProperties(stocks: seq<Stock>, kind: Movers)
    ensures var ranked := Ranked(stocks, kind);
      && Seqs.SortedBy(ranked, RankKey(kind))
      && multiset(ranked) <= multiset(stocks)
      && |ranked| == |Seqs.Filter(stocks, Moves(kind))|
  {
    var sorted := Seqs.SortBy(stocks, RankKey(kind));
    Seqs.SortByProperties(stocks, RankKey(kind));
    var ranked := Seqs.Filter(sorted, Moves(kind));
    Seqs.FilterSorted(sorted, Moves(kind), RankKey(kind));
    Seqs.FilterPermutation(sorted, stocks, Moves(kind));
    assert |ranked| == |multiset(ranked)| == |multiset(Seqs.Filter(stocks, Moves(kind)))|;
    FilterSubMultiset(sorted, Moves(kind));
  }

  /**
   * Every listed stock moved the right way, they come best first, they are
   * drawn from the input, and the list is as long as the limit allows: the
   * number of such movers, capped at the limit.
   */
  lemma TopMoversProperties(stocks: seq<Stock>, kind: Movers, limit: nat)
    ensures var r := TopMovers(stocks, kind, limit);
      && (forall i :: 0 <= i < |r| ==> Moves(kind)(r[i]))
      && Seqs.SortedBy(r, RankKey(kind))
      && multiset(r) <= multiset(stocks)
      && |r| == if limit < |Seqs.Filter(stocks, Moves(kind))| then limit else |Seqs.Filter(stocks, Moves(kind))|
  {
    var ranked := Ranked(stocks, kind);
    RankedProperties(stocks, kind);
    var r := TopMovers(stocks, kind, limit);
    assert r == if limit < |ranked| then ranked[..limit] else ranked;
    if limit < |ranked| {
      assert ranked == r + ranked[limit..];
      assert multiset(r) <= multiset(ranked);
    }
  }

  /**
   * The listed movers are the top ones: a mover of the input that the cut
   * leaves out (one copy too few in the list) ranks no better than any
   * listed stock.
   */
  lemma TopMoversAreBest(stocks: seq<Stock>, kind: Movers, limit: nat, s: Stock)
    requires Moves(kind)(s) && multiset(TopMovers(stocks, kind, limit))[s] < multiset(stocks)[s]
    ensures var r := TopMovers(stocks, kind, limit);
      forall i :: 0 <= i < |r| ==> RankKey(kind)(r[i]) <= RankKey(kind)(s)
  {
    var key := RankKey(kind);
    var sorted := Seqs.SortBy(stocks, key);
    Seqs.SortByProperties(stocks, key);
    var ranked := Ranked(stocks, kind);
    Seqs.FilterSorted(sorted, Moves(kind), key);
    Seqs.FilterCount(sorted, Moves(kind), s);
    var r := TopMovers(stocks, kind, limit);
    if limit < |ranked| {
      assert r == ranked[..limit];
      CutKeepsBest(ranked, limit, key, s);
    } else {
      assert false;
    }
  }

  /** In a sorted list, anything past the cut at n ranks no better than the first n. */
  lemma CutKeepsBest<T>(ranked: seq<T>, n: nat, key: T -> real, s: T)
    requires Seqs.SortedBy(ranked, key) && n < |ranked|
    requires multiset(ranked[..n])[s] < multiset(ranked)[s]
    ensures forall i :: 0 <= i < n ==> key(ranked[..n][i]) <= key(s)
  {
    assert ranked == ranked[..n] + ranked[n..];
    assert s in multiset(ranked[n..]);
    var j :| 0 <= j < |ranked[n..]| && ranked[n..][j] == s;
    assert ranked[n + j] == s;
  }

  lemma FilterSubMultiset<T>(s: seq<T>, p: T -> bool)
    ensures multiset(Seqs.Filter(s, p)) <= multiset(s)
  {
    var f := multiset(Seqs.Filter(s, p));
    forall x ensures f[x] <= multiset(s)[x] {
      Seqs.FilterCount(s, p, x);
    }
    Included(f, multiset(s));
  }

  lemma Included<T>(a: multiset<T>, b: multiset<T>)
    requires forall x :: a[x] <= b[x]
    ensures a <= b
  {
  }

  /** In descending order, a listed gainer's changePercent is at least that of every gainer after it. */
  lemma GainersBestFirst(stocks: seq<Stock>, limit: nat, i: int, j: int)
    requires 0 <= i < j < |TopMovers(stocks, Gainers, limit)|
    ensures TopMovers(stocks, Gainers, limit)[i].changePercent >= TopMovers(stocks, Gainers, limit)[j].changePercent
  {
    TopMoversProperties(stocks, Gainers, limit);
    var r := TopMovers(stocks, Gainers, limit);
    assert RankKey(Gainers)(r[i]) <= RankKey(Gainers)(r[j]);
  }

  /** The caption shown when no stock qualifies. */
  function EmptyCaption(kind: Movers): (r: string)
    ensures r == (if kind == Gainers then "No gainers today" else "No losers today")
  {
    "No " + (if kind == Gainers then "gainers" else "losers") + " today"
  }

  // ---- MarketSummary ----

  function Count(stocks: seq<Stock>, p: Stock -> bool): nat { |Seqs.Filter(stocks, p)| }

  function Up(): Stock -> bool { (s: Stock) => s.change > 0.0 }
  function Down(): Stock -> bool { (s: Stock) => s.change < 0.0 }
  function Flat(): Stock -> bool { (s: Stock) => s.change == 0.0 }

  /** Gainers, losers and unchanged stocks account for every stock once. */
  lemma {:induction false} CountsAddUp(stocks: seq<Stock>)
    ensures Count(stocks, Up()) + Count(stocks, Down()) + Count(stocks, Flat()) == |stocks|
  {
    if stocks != [] {
      CountsAddUp(stocks[1..]);
    }
  }

  /** `stocks.reduce((sum, s) => sum + s.volume, 0)`. */
  function TotalVolume(stocks: seq<Stock>): int
  {
    if stocks == [] then 0 else TotalVolume(stocks[..|stocks| - 1]) + stocks[|stocks| - 1].volume
  }

  function ChangeSum(stocks: seq<Stock>): real
  {
    if stocks == [] then 0.0 else ChangeSum(stocks[..|stocks| - 1]) + stocks[|stocks| - 1].changePercent
  }

  /** The summary's total volume adds up the parts of a split list. */
  lemma {:induction false} TotalVolumeAppend(a: seq<Stock>, b: seq<Stock>)
    ensures TotalVolume(a + b) == TotalVolume(a) + TotalVolume(b)
    decreases |b|
  {
    if b == [] {
      assert a + b == a;
    } else {
      TotalVolumeAppend(a, b[..|b| - 1]);
      assert (a + b)[..|a + b| - 1] == a + b[..|b| - 1];
    }
  }

  /** With non-negative volumes, the total is at least each stock's volume. */
  lemma {:induction false} TotalVolumeBounds(stocks: seq<Stock>, i: int)
    requires forall k :: 0 <= k < |stocks| ==> stocks[k].volume >= 0
    requires 0 <= i < |stocks|
    ensures TotalVolume(stocks) >= stocks[i].volume
  {
    var init := stocks[..|stocks| - 1];
    NonNegativeTotal(init);
    if i < |stocks| - 1 {
      TotalVolumeBounds(init, i);
    }
  }

  lemma {:induction false} NonNegativeTotal(stocks: seq<Stock>)
    requires forall k :: 0 <= k < |stocks| ==> stocks[k].volume >= 0
    ensures TotalVolume(stocks) >= 0
  {
    if stocks != [] {
      NonNegativeTotal(stocks[..|stocks| - 1]);
    }
  }

  /** The mean changePercent; an empty list gives JavaScript's NaN (0 / 0), None here. */
  function AverageChange(stocks: seq<Stock>): (r: Option<real>)
    ensures r.None? <==> stocks == []
    ensures r.Some? ==> r.value * |stocks| as real == ChangeSum(stocks)
  {
    if stocks == [] then None else Some(ChangeSum(stocks) / |stocks| as real)
  }

  datatype TrendColour = Rising | Falling | Neutral

  /** The trend chip: green above zero, red below, neutral at zero and for NaN. */
  function Trend(avg: Option<real>): (r: TrendColour)
    ensures r == Rising <==> avg.Some? && avg.value > 0.0
    ensures r == Falling <==> avg.Some? && avg.value < 0.0
  {
    if avg.Some? && avg.value > 0.0 then Rising
    else if avg.Some? && avg.value < 0.0 then Falling
    else Neutral
  }

  /** The sign shown in front of the average: '+' exactly for a rising market. */
  function TrendSign(avg: Option<real>): (r: string)
    ensures r == "+" <==> Trend(avg) == Rising
    ensures r != "+" ==> r == ""
  {
    if avg.Some? && avg.value > 0.0 then "+" else ""
  }

  /** A market where every stock gained has a rising trend. */
  lemma {:induction false} AllUpMeansRising(stocks: seq<Stock>)
    requires stocks != []
    requires forall k :: 0 <= k < |stocks| ==> stocks[k].changePercent > 0.0
    ensures Trend(AverageChange(stocks)) == Rising
  {
    PositiveSum(stocks);
  }

  lemma {:induction false} PositiveSum(stocks: seq<Stock>)
    requires stocks != []
    requires forall k :: 0 <= k < |stocks| ==> stocks[k].changePercent > 0.0
    ensures ChangeSum(stocks) > 0.0
  {
    if |stocks| > 1 {
      PositiveSum(stocks[..|stocks| - 1]);
    }
  }
}
