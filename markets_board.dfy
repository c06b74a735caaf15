/** The markets page: a fixed list of coverage pools, filtered by outcome type and
    by a case-insensitive search over flight number, route and airline, with the
    totals shown above the list. */
module MarketsBoard {
  import opened Text

  datatype OutcomeType = Delay30 | Delay60 | Delay90 | Cancel

  /** `outcomeLabels` */
  function OutcomeLabel(t: OutcomeType): (caption: string)
    ensures caption != ""
  {
    match t
    case Delay30 => "30 min delay"
    case Delay60 => "60 min delay"
    case Delay90 => "90+ min delay"
    case Cancel => "Cancellation"
  }

  /** Different outcome types get different labels. */
  lemma OutcomeLabelInjective(a: OutcomeType, b: OutcomeType)
    requires a != b
    ensures OutcomeLabel(a) != OutcomeLabel(b)
  {
  }

  /** The outcome selector: every pool, or one outcome type. */
  datatype OutcomeFilter = All | Only(outcome: OutcomeType)

  /** `outcomeFilters`: the buttons above the list. */
  const OutcomeFilters: seq<(string, OutcomeFilter)> := [
    ("All triggers", All),
    ("30 min delay", Only(Delay30)),
    ("60 min delay", Only(Delay60)),
    ("90+ min delay", Only(Delay90)),
    ("Cancellation", Only(Cancel))
  ]

  /** Every outcome type has exactly one filter button, and its caption is that
      outcome's label. */
  lemma FilterButtonsMatchLabels(t: OutcomeType)
    ensures exists k :: 0 <= k < |OutcomeFilters| && OutcomeFilters[k].1 == Only(t)
    ensures forall k :: 0 <= k < |OutcomeFilters| && OutcomeFilters[k].1 == Only(t) ==>
      OutcomeFilters[k].0 == OutcomeLabel(t)
    ensures forall k, k' ::
      && 0 <= k < |OutcomeFilters| && 0 <= k' < |OutcomeFilters|
      && OutcomeFilters[k].1 == Only(t) && OutcomeFilters[k'].1 == Only(t)
      ==> k == k'
  {
    match t
    case Delay30 => assert OutcomeFilters[1].1 == Only(t);
    case Delay60 => assert OutcomeFilters[2].1 == Only(t);
    case Delay90 => assert OutcomeFilters[3].1 == Only(t);
    case Cancel => assert OutcomeFilters[4].1 == Only(t);
  }

  datatype FlightMarket = FlightMarket(
    id: string,
    flightNumber: string,
    departureDate: string,
    route: string,
    yesPrice: real,
    impliedProbability: int,
    totalLiquidity: int,
    coverageDemand: int,
    outcomeType: OutcomeType,
    airline: string)

  const MarketsSeed: seq<FlightMarket> := [
    FlightMarket("DL104-2024-12-01", "DL104", "2024-12-01", "JFK \U{2192} LAX", 0.22, 22, 32500, 12800, Delay60, "Delta"),
    FlightMarket("UA881-2024-12-02", "UA881", "2024-12-02", "SFO \U{2192} NRT", 0.17, 17, 41200, 9800, Cancel, "United"),
    FlightMarket("AF008-2024-12-03", "AF008", "2024-12-03", "CDG \U{2192} JFK", 0.29, 29, 28750, 16500, Delay90, "Air France"),
    FlightMarket("AA079-2024-12-03", "AA079", "2024-12-03", "DFW \U{2192} LHR", 0.12, 12, 19900, 6200, Delay30, "American"),
    FlightMarket("SQ025-2024-12-04", "SQ025", "2024-12-04", "FRA \U{2192} SIN", 0.09, 9, 35600, 4800, Delay30, "Singapore Airlines"),
    FlightMarket("EK202-2024-12-04", "EK202", "2024-12-04", "JFK \U{2192} DXB", 0.31, 31, 44100, 21200, Cancel, "Emirates")
  ]

  predicate MatchesOutcome(selected: OutcomeFilter, m: FlightMarket) {
    selected == All || m.outcomeType == selected.outcome
  }

  predicate MatchesSearch(term: string, m: FlightMarket) {
    var needle := ToLower(term);
    || Contains(ToLower(m.flightNumber), needle)
    || Contains(ToLower(m.route), needle)
    || Contains(ToLower(m.airline), needle)
  }

  /** The `filter` callback. */
  predicate Keep(selected: OutcomeFilter, term: string, m: FlightMarket) {
    MatchesOutcome(selected, m) && MatchesSearch(term, m)
  }

  /** `a` is `b` with some elements left out, the rest in their order. */
  ghost predicate IsSubsequence<T>(a: seq<T>, b: seq<T>)
    decreases |b|
  {
    if a == [] then true
    else if b == [] then false
    else (a[0] == b[0] && IsSubsequence(a[1..], b[1..])) || IsSubsequence(a, b[1..])
  }

  /** `markets.filter(keep)`: the kept markets in their order, each as often as in the
      input. */
  function FilterMarkets(markets: seq<FlightMarket>, selected: OutcomeFilter, term: string): (r: seq<FlightMarket>)
    ensures IsSubsequence(r, markets)
    ensures forall i :: 0 <= i < |r| ==> Keep(selected, term, r[i])
    ensures forall m :: multiset(r)[m] == if Keep(selected, term, m) then multiset(markets)[m] else 0
  {
    if markets == [] then []
    else
      assert markets == [markets[0]] + markets[1..];
      var rest := FilterMarkets(markets[1..], selected, term);
      if Keep(selected, term, markets[0]) then [markets[0]] + rest else rest
  }

  /** `filteredMarkets`: the filter applied to the fixed list. */
  function FilteredMarkets(selected: OutcomeFilter, term: string): seq<FlightMarket> {
    FilterMarkets(MarketsSeed, selected, term)
  }

  /** Every kept market of the input is in the result. */
  lemma FilterKeepsEveryMatch(markets: seq<FlightMarket>, selected: OutcomeFilter, term: string, k: nat)
    requires k < |markets| && Keep(selected, term, markets[k])
    ensures markets[k] in FilterMarkets(markets, selected, term)
  {
  }

  /** With every outcome and an empty search, nothing is filtered out. */
  lemma {:induction false} ShowAllShowsEverything(markets: seq<FlightMarket>)
    ensures FilterMarkets(markets, All, "") == markets
  {
    if markets != [] {
      ContainsEmpty(ToLower(markets[0].flightNumber));
      assert ToLower("") == "";
      ShowAllShowsEverything(markets[1..]);
    }
  }

  /** A selected outcome type shows only pools of that type. */
  lemma SelectedOutcomeOnly(t: OutcomeType, term: string)
    ensures forall m :: m in FilteredMarkets(Only(t), term) ==> m.outcomeType == t
  {
  }

  // ---------------------------------------------------------------------------
  // Aggregates

  /** `xs.reduce((sum, x) => sum + x, acc)`: a left fold. */
  function Reduce(xs: seq<int>, acc: int): int {
    if xs == [] then acc else Reduce(xs[1..], acc + xs[0])
  }

  /** The sum, taken from the last element backwards. */
  function Sum(xs: seq<int>): int {
    if xs == [] then 0 else Sum(xs[..|xs| - 1]) + xs[|xs| - 1]
  }

  lemma {:induction false} SumCons(x: int, xs: seq<int>)
    ensures Sum([x] + xs) == x + Sum(xs)
    decreases |xs|
  {
    if xs != [] {
      var ys := [x] + xs;
      assert ys[..|ys| - 1] == [x] + xs[..|xs| - 1];
      SumCons(x, xs[..|xs| - 1]);
    }
  }

  /** The left fold the page uses computes the sum. */
  lemma {:induction false} ReduceIsSum(xs: seq<int>, acc: int)
    ensures Reduce(xs, acc) == acc + Sum(xs)
    decreases |xs|
  {
    if xs != [] {
      ReduceIsSum(xs[1..], acc + xs[0]);
      assert xs == [xs[0]] + xs[1..];
      SumCons(xs[0], xs[1..]);
    }
  }

  /** A sum of `n` numbers between `lo` and `hi` lies between `n * lo` and `n * hi`. */
  lemma {:induction false} SumBounds(xs: seq<int>, lo: int, hi: int)
    requires forall i :: 0 <= i < |xs| ==> lo <= xs[i] <= hi
    ensures |xs| * lo <= Sum(xs) <= |xs| * hi
    decreases |xs|
  {
    if xs != [] {
      SumBounds(xs[..|xs| - 1], lo, hi);
      assert |xs| * lo == (|xs| - 1) * lo + lo;
      assert |xs| * hi == (|xs| - 1) * hi + hi;
    }
  }

  function Liquidities(ms: seq<FlightMarket>): (r: seq<int>)
    ensures |r| == |ms| && forall i :: 0 <= i < |ms| ==> r[i] == ms[i].totalLiquidity
  {
    seq(|ms|, i requires 0 <= i < |ms| => ms[i].totalLiquidity)
  }

  function Coverages(ms: seq<FlightMarket>): (r: seq<int>)
    ensures |r| == |ms| && forall i :: 0 <= i < |ms| ==> r[i] == ms[i].coverageDemand
  {
    seq(|ms|, i requires 0 <= i < |ms| => ms[i].coverageDemand)
  }

  function Probabilities(ms: seq<FlightMarket>): (r: seq<int>)
    ensures |r| == |ms| && forall i :: 0 <= i < |ms| ==> r[i] == ms[i].impliedProbability
  {
    seq(|ms|, i requires 0 <= i < |ms| => ms[i].impliedProbability)
  }

  /** The figures above the list, before currency and percent formatting. */
  datatype Aggregates = Aggregates(poolsActive: nat, liquidity: int, coverage: int, avgProbability: real)

  /** `aggregated`; the average divides by `filteredMarkets.length || 1`. */
  function Aggregate(filtered: seq<FlightMarket>): (a: Aggregates)
    ensures a.poolsActive == |filtered|
    ensures filtered == [] ==> a.avgProbability == 0.0
  {
    var denominator := if |filtered| != 0 then |filtered| else 1;
    Aggregates(
      |filtered|,
      Reduce(Liquidities(filtered), 0),
      Reduce(Coverages(filtered), 0),
      (Reduce(Probabilities(filtered), 0) as real) / (denominator as real))
  }

  /** The totals are the sums of the fields over the shown pools, and the average
      times the number of pools gives back the sum of probabilities. */
  lemma AggregatesAreSums(filtered: seq<FlightMarket>)
    ensures Aggregate(filtered).liquidity == Sum(Liquidities(filtered))
    ensures Aggregate(filtered).coverage == Sum(Coverages(filtered))
    ensures Aggregate(filtered).avgProbability * (|filtered| as real) == Sum(Probabilities(filtered)) as real
  {
    ReduceIsSum(Liquidities(filtered), 0);
    ReduceIsSum(Coverages(filtered), 0);
    ReduceIsSum(Probabilities(filtered), 0);
  }

  /** Dividing by a positive count keeps a bounded total's bounds. */
  lemma QuotientBounds(total: int, n: int, lo: int, hi: int)
    requires n > 0 && n * lo <= total <= n * hi
    ensures lo as real <= (total as real) / (n as real) <= hi as real
  {
    var q := (total as real) / (n as real);
    assert q * (n as real) == total as real;
    assert (n * lo) as real == (n as real) * (lo as real);
    assert (n * hi) as real == (n as real) * (hi as real);
  }

  /** When every shown pool's probability lies in `lo..hi`, so does the average of a
      non-empty list. */
  lemma AverageWithinBounds(filtered: seq<FlightMarket>, lo: int, hi: int)
    requires filtered != []
    requires forall m :: m in filtered ==> lo <= m.impliedProbability <= hi
    ensures lo as real <= Aggregate(filtered).avgProbability <= hi as real
  {
    var ps := Probabilities(filtered);
    forall i | 0 <= i < |ps|
      ensures lo <= ps[i] <= hi
    {
      assert filtered[i] in filtered;
    }
    SumBounds(ps, lo, hi);
    ReduceIsSum(ps, 0);
    QuotientBounds(Sum(ps), |filtered|, lo, hi);
  }
}
