/**
 * `build_asset_history` and `build_basket_normalized_series`: the daily close series of one
 * asset, and the weighted composite of a basket's market members, each member rebased to 100
 * at its first close and forward-filled over the union of the members' days. Histories come
 * from the quote service's daily history; for the basket they are passed in as the list the
 * service returned for each symbol over the window.
 */
module BasketSeries {
  import opened Wrappers
  import opened Ledger
  import Pricing
  import Sorting
  import Text

  datatype SeriesPoint = SeriesPoint(day: int, value: real)

  /** A basket link with its asset loaded (`link.asset`, `link.weight`). */
  datatype MemberLink = MemberLink(asset: Asset, weight: Option<real>)

  function Sum(xs: seq<real>): real {
    if xs == [] then 0.0 else Sum(xs[..|xs| - 1]) + xs[|xs| - 1]
  }

  /** `build_asset_history`: the closes of a market asset over the window; nothing for a manual one. */
  function AssetHistory(asset: Asset, today: int, days: int, provider: (string, int, int) -> Pricing.HistoryOutcome): (r: seq<SeriesPoint>)
    ensures asset.assetType != Market ==> r == []
    ensures asset.assetType == Market ==>
      var points := Pricing.HistoricalDaily(asset.symbol, today - days, today, provider);
      |r| == |points| && forall i :: 0 <= i < |r| ==> r[i].day == points[i].day && r[i].value == points[i].close
    ensures provider(Text.CanonicalSymbol(asset.symbol), today - days, today).HistoryFailed? ==> r == []
  {
    if asset.assetType != Market then []
    else
      var points := Pricing.HistoricalDaily(asset.symbol, today - days, today, provider);
      seq(|points|, i requires 0 <= i < |points| => SeriesPoint(points[i].day, points[i].close))
  }

  // ---------------------------------------------------------------------------------------------
  // Members and weights.

  /** The links whose asset is a market asset, in order. */
  function MarketLinks(links: seq<MemberLink>): (r: seq<MemberLink>)
    ensures |r| <= |links|
    ensures forall l :: l in r <==> l in links && l.asset.assetType == Market
  {
    if links == [] then []
    else
      var last := links[|links| - 1];
      assert forall l :: l in links <==> l in links[..|links| - 1] || l == last;
      MarketLinks(links[..|links| - 1]) + (if last.asset.assetType == Market then [last] else [])
  }

  /** The filter keeps the links' order: filtering a concatenation concatenates the filtered parts. */
  lemma {:induction false} MarketLinksKeepsOrder(a: seq<MemberLink>, b: seq<MemberLink>)
    ensures MarketLinks(a + b) == MarketLinks(a) + MarketLinks(b)
    decreases |b|
  {
    if b == [] {
      assert a + b == a;
    } else {
      var init := b[..|b| - 1];
      MarketLinksKeepsOrder(a, init);
      assert (a + b)[..|a + b| - 1] == a + init;
    }
  }

  /** The weights that are set, in order. */
  function ExplicitWeights(market: seq<MemberLink>): seq<real> {
    if market == [] then []
    else
      var last := market[|market| - 1];
      ExplicitWeights(market[..|market| - 1]) + (if last.weight.Some? then [last.weight.value] else [])
  }

  /** Each link's weight, an unset one counting as 0. */
  function DefaultedWeights(market: seq<MemberLink>): (r: seq<real>)
    ensures |r| == |market|
  {
    seq(|market|, i requires 0 <= i < |market| => market[i].weight.GetOr(0.0))
  }

  function EqualWeights(n: nat): (r: seq<real>)
    requires n > 0
    ensures |r| == n
  {
    seq(n, _ => 1.0 / n as real)
  }

  /**
   * The raw weights: the set weights (unset ones as 0) if some are set and they add up to
   * more than 0, otherwise 1/n each.
   */
  function LinkWeights(market: seq<MemberLink>): (r: seq<real>)
    requires market != []
    ensures |r| == |market|
  {
    var explicit := ExplicitWeights(market);
    if explicit != [] && Sum(explicit) > 0.0 then DefaultedWeights(market) else EqualWeights(|market|)
  }

  function Normalize(weights: seq<real>, total: real): (r: seq<real>)
    requires total != 0.0
    ensures |r| == |weights|
  {
    seq(|weights|, i requires 0 <= i < |weights| => weights[i] / total)
  }

  lemma {:induction false} DefaultedSumIsExplicitSum(market: seq<MemberLink>)
    ensures Sum(DefaultedWeights(market)) == Sum(ExplicitWeights(market))
  {
    if market != [] {
      var prefix := market[..|market| - 1];
      var last := market[|market| - 1];
      DefaultedSumIsExplicitSum(prefix);
      assert DefaultedWeights(market)[..|market| - 1] == DefaultedWeights(prefix);
      if last.weight.Some? {
        SumAppend(ExplicitWeights(prefix), last.weight.value);
      } else {
        assert ExplicitWeights(market) == ExplicitWeights(prefix);
      }
    }
  }

  lemma SumAppend(xs: seq<real>, x: real)
    ensures Sum(xs + [x]) == Sum(xs) + x
  {
    assert (xs + [x])[..|xs|] == xs;
  }

  lemma {:induction false} ConstantSum(n: nat, c: real)
    ensures Sum(seq(n, _ => c)) == n as real * c
  {
    if n > 0 {
      ConstantSum(n - 1, c);
      assert seq(n, _ => c)[..n - 1] == seq(n - 1, _ => c);
    }
  }

  lemma {:induction false} NormalizeSum(weights: seq<real>, total: real)
    requires total != 0.0
    ensures Sum(Normalize(weights, total)) == Sum(weights) / total
  {
    if weights != [] {
      var prefix := weights[..|weights| - 1];
      NormalizeSum(prefix, total);
      assert Normalize(weights, total)[..|weights| - 1] == Normalize(prefix, total);
      DivisionAdds(Sum(prefix), weights[|weights| - 1], total);
    }
  }

  lemma DivideBySelf(total: real)
    requires total > 0.0
    ensures total / total == 1.0
  {
  }

  lemma DivisionAdds(a: real, b: real, total: real)
    requires total != 0.0
    ensures a / total + b / total == (a + b) / total
  {
  }

  /**
   * With at least one market member the raw weights add up to more than 0, so the source's
   * `weight_sum <= 0` exit is never taken.
   */
  lemma WeightSumPositive(market: seq<MemberLink>)
    requires market != []
    ensures Sum(LinkWeights(market)) > 0.0
  {
    var explicit := ExplicitWeights(market);
    if explicit != [] && Sum(explicit) > 0.0 {
      DefaultedSumIsExplicitSum(market);
    } else {
      var n := |market|;
      ConstantSum(n, 1.0 / n as real);
      assert EqualWeights(n) == seq(n, _ => 1.0 / n as real);
      assert n as real * (1.0 / n as real) == 1.0;
    }
  }

  /** The normalised weights add up to 1. */
  lemma NormalizedWeightsSumToOne(market: seq<MemberLink>)
    requires market != []
    ensures Sum(LinkWeights(market)) > 0.0
    ensures Sum(Normalize(LinkWeights(market), Sum(LinkWeights(market)))) == 1.0
  {
    WeightSumPositive(market);
    var weights := LinkWeights(market);
    var total := Sum(weights);
    NormalizeSum(weights, total);
    DivideBySelf(total);
  }

  /** An unset weight counts as 0 when the set weights add up to more than 0; otherwise all weights are equal. */
  lemma WeightRule(market: seq<MemberLink>, i: nat)
    requires i < |market|
    ensures var explicit := ExplicitWeights(market);
      explicit != [] && Sum(explicit) > 0.0 ==>
        LinkWeights(market)[i] == (if market[i].weight.Some? then market[i].weight.value else 0.0)
    ensures var explicit := ExplicitWeights(market);
      !(explicit != [] && Sum(explicit) > 0.0) ==> LinkWeights(market)[i] == 1.0 / |market| as real
  {
  }

  // ---------------------------------------------------------------------------------------------
  // Member histories.

  /** `{point.date: point.close for point in points}`: a later point of the same day overwrites. */
  function SeriesOf(points: seq<Pricing.HistoricalPoint>): (r: map<int, real>)
    ensures forall d :: d in r <==> exists k :: 0 <= k < |points| && points[k].day == d
  {
    if points == [] then map[]
    else
      var prefix := points[..|points| - 1];
      var last := points[|points| - 1];
      assert forall k :: 0 <= k < |prefix| ==> prefix[k] == points[k];
      SeriesOf(prefix)[last.day := last.close]
  }

  /** A day's close is the one of the last point of that day. */
  lemma {:induction false} LaterPointWins(points: seq<Pricing.HistoricalPoint>, k: nat)
    requires k < |points|
    requires forall j :: k < j < |points| ==> points[j].day != points[k].day
    ensures points[k].day in SeriesOf(points) && SeriesOf(points)[points[k].day] == points[k].close
  {
    if k < |points| - 1 {
      var prefix := points[..|points| - 1];
      LaterPointWins(prefix, k);
    }
  }

  /** The earliest day of a history (`sorted(series.keys())[0]`). */
  function MinDay(points: seq<Pricing.HistoricalPoint>): (r: int)
    requires points != []
    ensures exists k :: 0 <= k < |points| && points[k].day == r
    ensures forall k :: 0 <= k < |points| ==> r <= points[k].day
  {
    if |points| == 1 then points[0].day
    else
      var prefix := points[..|points| - 1];
      var m := MinDay(prefix);
      assert forall k :: 0 <= k < |prefix| ==> prefix[k] == points[k];
      if points[|points| - 1].day < m then points[|points| - 1].day else m
  }

  /** A member's base: the close on its first day, 0 without history. */
  function Base(points: seq<Pricing.HistoricalPoint>): real {
    if points == [] then 0.0 else SeriesOf(points)[MinDay(points)]
  }

  function Days(points: seq<Pricing.HistoricalPoint>): (r: seq<int>)
    ensures |r| == |points| && forall k :: 0 <= k < |points| ==> r[k] == points[k].day
  {
    seq(|points|, k requires 0 <= k < |points| => points[k].day)
  }

  /** The daily history the quote service returned for the link's symbol; none if it is missing. */
  function PointsOf(link: MemberLink, history: map<string, seq<Pricing.HistoricalPoint>>): seq<Pricing.HistoricalPoint> {
    if link.asset.symbol in history then history[link.asset.symbol] else []
  }

  /** Each member's series, in member order (`history_by_symbol`). */
  function Histories(market: seq<MemberLink>, history: map<string, seq<Pricing.HistoricalPoint>>): (r: seq<map<int, real>>)
    ensures |r| == |market|
  {
    if market == [] then []
    else Histories(market[..|market| - 1], history) + [SeriesOf(PointsOf(market[|market| - 1], history))]
  }

  /** Each member's base, in member order (`base_by_symbol`). */
  function Bases(market: seq<MemberLink>, history: map<string, seq<Pricing.HistoricalPoint>>): (r: seq<real>)
    ensures |r| == |market|
  {
    if market == [] then []
    else Bases(market[..|market| - 1], history) + [Base(PointsOf(market[|market| - 1], history))]
  }

  lemma {:induction false} MemberAt(market: seq<MemberLink>, history: map<string, seq<Pricing.HistoricalPoint>>, i: nat)
    requires i < |market|
    ensures Histories(market, history)[i] == SeriesOf(PointsOf(market[i], history))
    ensures Bases(market, history)[i] == Base(PointsOf(market[i], history))
  {
    if i < |market| - 1 {
      MemberAt(market[..|market| - 1], history, i);
    }
  }

  /** Every member's days, in member order (the source's `all_dates` set, before sorting). */
  function AllDays(market: seq<MemberLink>, history: map<string, seq<Pricing.HistoricalPoint>>): seq<int> {
    if market == [] then []
    else AllDays(market[..|market| - 1], history) + Days(PointsOf(market[|market| - 1], history))
  }

  /** The days gathered are exactly the days of the members' series. */
  lemma {:induction false} AllDaysAreMemberDays(market: seq<MemberLink>, history: map<string, seq<Pricing.HistoricalPoint>>, d: int)
    ensures d in AllDays(market, history) <==> exists i :: 0 <= i < |market| && d in Histories(market, history)[i]
  {
    if market != [] {
      var prefix := market[..|market| - 1];
      var points := PointsOf(market[|market| - 1], history);
      AllDaysAreMemberDays(prefix, history, d);
      assert d in Days(points) <==> d in SeriesOf(points) by {
        if d in SeriesOf(points) {
          var k :| 0 <= k < |points| && points[k].day == d;
          assert Days(points)[k] == d;
        }
      }
      var hs := Histories(market, history);
      var before := Histories(prefix, history);
      assert hs == before + [SeriesOf(points)];
      assert AllDays(market, history) == AllDays(prefix, history) + Days(points);
      if d in AllDays(market, history) {
        if d in Days(points) {
          assert d in hs[|market| - 1];
        } else {
          assert d in AllDays(prefix, history);
          var i :| 0 <= i < |prefix| && d in before[i];
          assert hs[i] == before[i];
          assert d in hs[i];
        }
        assert exists j :: 0 <= j < |market| && d in Histories(market, history)[j];
      }
      if exists i :: 0 <= i < |market| && d in hs[i] {
        var i :| 0 <= i < |market| && d in hs[i];
        if i < |prefix| {
          assert hs[i] == before[i] && d in before[i];
          assert exists j :: 0 <= j < |prefix| && d in Histories(prefix, history)[j];
          assert d in AllDays(prefix, history);
        } else {
          assert d in Days(points);
        }
        assert d in AllDays(market, history);
      }
    }
  }

  // ---------------------------------------------------------------------------------------------
  // Forward fill and the composite.

  /** The close last seen for a member after walking the given days in order. */
  function Latest(series: map<int, real>, days: seq<int>): Option<real> {
    if days == [] then None
    else if days[|days| - 1] in series then Some(series[days[|days| - 1]])
    else Latest(series, days[..|days| - 1])
  }

  function Seen(serieses: seq<map<int, real>>, days: seq<int>): (r: seq<Option<real>>)
    ensures |r| == |serieses|
  {
    seq(|serieses|, idx requires 0 <= idx < |serieses| => Latest(serieses[idx], days))
  }

  /** A member's contribution: weight x (last close / base) x 100, or nothing before its first close or without a positive base. */
  function Term(weight: real, base: real, seen: Option<real>): real {
    if seen.None? || base <= 0.0 then 0.0 else weight * ((seen.value / base) * 100.0)
  }

  /** The contributions of the first n members. */
  function Composite(weights: seq<real>, bases: seq<real>, seen: seq<Option<real>>, n: nat): real
    requires n <= |weights| && n <= |bases| && n <= |seen|
  {
    if n == 0 then 0.0 else Composite(weights, bases, seen, n - 1) + Term(weights[n - 1], bases[n - 1], seen[n - 1])
  }

  /** One point per day: the composite of all members after walking the days up to that one. */
  function FillSeries(days: seq<int>, serieses: seq<map<int, real>>, bases: seq<real>, weights: seq<real>): (r: seq<SeriesPoint>)
    requires |bases| == |serieses| && |weights| == |serieses|
    ensures |r| == |days|
  {
    if days == [] then []
    else
      FillSeries(days[..|days| - 1], serieses, bases, weights) +
        [SeriesPoint(days[|days| - 1], Composite(weights, bases, Seen(serieses, days), |serieses|))]
  }

  /** The series `build_basket_normalized_series` returns. */
  function NormalizedSeries(links: seq<MemberLink>, history: map<string, seq<Pricing.HistoricalPoint>>): seq<SeriesPoint> {
    var market := MarketLinks(links);
    if market == [] then [] else WeightedSeries(market, LinkWeights(market), history)
  }

  /** The series once the raw weights are known: nothing if they add up to at most 0. */
  function WeightedSeries(market: seq<MemberLink>, weights: seq<real>, history: map<string, seq<Pricing.HistoricalPoint>>): seq<SeriesPoint>
    requires |weights| == |market|
  {
    var weightSum := Sum(weights);
    if weightSum <= 0.0 then [] else MemberSeries(market, Normalize(weights, weightSum), history)
  }

  /** The series once the normalised weights are known: nothing if no member has a history. */
  function MemberSeries(market: seq<MemberLink>, normalized: seq<real>, history: map<string, seq<Pricing.HistoricalPoint>>): seq<SeriesPoint>
    requires |normalized| == |market|
  {
    var allDays := AllDays(market, history);
    if allDays == [] then []
    else FillSeries(Sorting.SortedDistinctInts(allDays), Histories(market, history), Bases(market, history), normalized)
  }

  // ---------------------------------------------------------------------------------------------
  // Properties of the series.

  /** Point i is day i with the composite of the closes last seen by that day. */
  lemma {:induction false} FillSeriesAt(days: seq<int>, serieses: seq<map<int, real>>, bases: seq<real>, weights: seq<real>, i: nat)
    requires |bases| == |serieses| && |weights| == |serieses| && i < |days|
    ensures FillSeries(days, serieses, bases, weights)[i] ==
      SeriesPoint(days[i], Composite(weights, bases, Seen(serieses, days[..i + 1]), |serieses|))
  {
    var prefix := days[..|days| - 1];
    if i < |days| - 1 {
      FillSeriesAt(prefix, serieses, bases, weights, i);
      assert prefix[..i + 1] == days[..i + 1];
    } else {
      assert days[..i + 1] == days;
    }
  }

  /** The close last seen is the one of the last day walked that the member has, if any. */
  lemma {:induction false} LatestIsLastVisited(series: map<int, real>, days: seq<int>)
    ensures Latest(series, days).None? <==> forall j :: 0 <= j < |days| ==> days[j] !in series
    ensures Latest(series, days).Some? ==>
      exists j :: 0 <= j < |days| && days[j] in series &&
                  Latest(series, days).value == series[days[j]] && forall j' :: j < j' < |days| ==> days[j'] !in series
  {
    if days != [] && days[|days| - 1] !in series {
      var prefix := days[..|days| - 1];
      LatestIsLastVisited(series, prefix);
      if Latest(series, prefix).Some? {
        var j :| 0 <= j < |prefix| && prefix[j] in series && Latest(series, prefix).value == series[prefix[j]] &&
          forall j' :: j < j' < |prefix| ==> prefix[j'] !in series;
        assert days[j] == prefix[j];
      }
    }
  }

  /** A day of the ordered union up to day i is among the first i + 1 days. */
  lemma WalkedDay(days: seq<int>, i: nat, k: int)
    requires Sorting.StrictlyIncreasing(days) && i < |days| && k in days && k <= days[i]
    ensures k in days[..i + 1]
  {
    var m :| 0 <= m < |days| && days[m] == k;
    assert m <= i;
    assert days[..i + 1][m] == k;
  }

  lemma NothingSeenBeforeFirstDay(series: map<int, real>, days: seq<int>, i: nat)
    requires Sorting.StrictlyIncreasing(days) && i < |days|
    requires forall k :: k in series ==> k in days
    ensures Latest(series, days[..i + 1]).None? <==> forall k :: k in series ==> k > days[i]
  {
    var walked := days[..i + 1];
    LatestIsLastVisited(series, walked);
    forall k | k in series && k <= days[i] ensures k in walked {
      WalkedDay(days, i, k);
    }
  }

  lemma SeenIsLatestClose(series: map<int, real>, days: seq<int>, i: nat)
    requires Sorting.StrictlyIncreasing(days) && i < |days|
    requires forall k :: k in series ==> k in days
    requires Latest(series, days[..i + 1]).Some?
    ensures exists k :: k in series && k <= days[i] &&
                        Latest(series, days[..i + 1]).value == series[k] && forall k' :: k' in series && k' <= days[i] ==> k' <= k
  {
    var walked := days[..i + 1];
    LatestIsLastVisited(series, walked);
    var j :| 0 <= j < |walked| && walked[j] in series && Latest(series, walked).value == series[walked[j]] &&
      forall j' :: j < j' < |walked| ==> walked[j'] !in series;
    forall k' | k' in series && k' <= days[i] ensures k' <= days[j] {
      WalkedDay(days, i, k');
      var m :| 0 <= m < |walked| && walked[m] == k';
      assert m <= j;
    }
    assert days[j] <= days[i];
  }

  /**
   * Forward fill: walking the ordered union of the days, a member's value on a day is its close
   * on the latest of its own days up to that day, and it has none before its first day.
   */
  lemma ForwardFillIsLatestClose(series: map<int, real>, days: seq<int>, i: nat)
    requires Sorting.StrictlyIncreasing(days) && i < |days|
    requires forall k :: k in series ==> k in days
    ensures Latest(series, days[..i + 1]).None? <==> forall k :: k in series ==> k > days[i]
    ensures Latest(series, days[..i + 1]).Some? ==>
      exists k :: k in series && k <= days[i] &&
                  Latest(series, days[..i + 1]).value == series[k] && forall k' :: k' in series && k' <= days[i] ==> k' <= k
  {
    NothingSeenBeforeFirstDay(series, days, i);
    if Latest(series, days[..i + 1]).Some? {
      SeenIsLatestClose(series, days, i);
    }
  }

  /** The gathered days are the days of the members' own histories. */
  /** Some market member's history has the day. */
  predicate IsMemberDay(market: seq<MemberLink>, history: map<string, seq<Pricing.HistoricalPoint>>, d: int) {
    exists m :: 0 <= m < |market| && d in SeriesOf(PointsOf(market[m], history))
  }

  lemma MemberDays(market: seq<MemberLink>, history: map<string, seq<Pricing.HistoricalPoint>>, d: int)
    ensures d in AllDays(market, history) <==> IsMemberDay(market, history, d)
  {
    AllDaysAreMemberDays(market, history, d);
    var hs := Histories(market, history);
    forall m | 0 <= m < |market| ensures hs[m] == SeriesOf(PointsOf(market[m], history)) {
      MemberAt(market, history, m);
    }
  }

  /** Once the weights are known, the series has one point per gathered day, in ascending order. */
  lemma MemberSeriesDays(market: seq<MemberLink>, normalized: seq<real>, history: map<string, seq<Pricing.HistoricalPoint>>)
    requires |normalized| == |market|
    ensures var r := MemberSeries(market, normalized, history);
      forall i, j :: 0 <= i < j < |r| ==> r[i].day < r[j].day
    ensures var r := MemberSeries(market, normalized, history);
      forall d :: (exists i :: 0 <= i < |r| && r[i].day == d) <==> d in AllDays(market, history)
  {
    var allDays := AllDays(market, history);
    if allDays != [] {
      var r := MemberSeries(market, normalized, history);
      var ordered := Sorting.SortedDistinctInts(allDays);
      var hs := Histories(market, history);
      var bs := Bases(market, history);
      assert r == FillSeries(ordered, hs, bs, normalized);
      forall i | 0 <= i < |r| ensures r[i].day == ordered[i] {
        FillSeriesAt(ordered, hs, bs, normalized, i);
      }
      forall d | d in allDays ensures exists i :: 0 <= i < |r| && r[i].day == d {
        var i :| 0 <= i < |ordered| && ordered[i] == d;
        assert r[i].day == d;
      }
    }
  }

  /**
   * The series' days are strictly ascending, and they are exactly the days of the market
   * members' histories.
   */
  lemma SeriesDaysAreUnion(links: seq<MemberLink>, history: map<string, seq<Pricing.HistoricalPoint>>)
    ensures var r := NormalizedSeries(links, history);
      forall i, j :: 0 <= i < j < |r| ==> r[i].day < r[j].day
    ensures var r := NormalizedSeries(links, history);
      forall d :: (exists i :: 0 <= i < |r| && r[i].day == d) <==> IsMemberDay(MarketLinks(links), history, d)
  {
    var market := MarketLinks(links);
    if market != [] {
      WeightSumPositive(market);
      NormalizedSeriesStages(links, history);
      var weights := LinkWeights(market);
      MemberSeriesDays(market, Normalize(weights, Sum(weights)), history);
      forall d ensures d in AllDays(market, history) <==> IsMemberDay(market, history, d) {
        MemberDays(market, history, d);
      }
    }
  }

  lemma TermAtBase(weight: real, base: real)
    requires base > 0.0
    ensures Term(weight, base, Some(base)) == weight * 100.0
  {
    assert base / base == 1.0;
  }

  lemma {:induction false} CompositeOfFullTerms(weights: seq<real>, bases: seq<real>, seen: seq<Option<real>>, n: nat)
    requires n <= |weights| && n <= |bases| && n <= |seen|
    requires forall idx :: 0 <= idx < n ==> Term(weights[idx], bases[idx], seen[idx]) == weights[idx] * 100.0
    ensures Composite(weights, bases, seen, n) == 100.0 * Sum(weights[..n])
  {
    if n > 0 {
      CompositeOfFullTerms(weights, bases, seen, n - 1);
      assert weights[..n][..n - 1] == weights[..n - 1];
    }
  }

  lemma StartIsGathered(market: seq<MemberLink>, history: map<string, seq<Pricing.HistoricalPoint>>, first: int)
    requires market != [] && PointsOf(market[0], history) != [] && MinDay(PointsOf(market[0], history)) == first
    ensures first in AllDays(market, history)
  {
    var points := PointsOf(market[0], history);
    var k :| 0 <= k < |points| && points[k].day == first;
    assert first in SeriesOf(points);
    MemberDays(market, history, first);
  }

  lemma GatheredNotBeforeStart(market: seq<MemberLink>, history: map<string, seq<Pricing.HistoricalPoint>>, first: int, d: int)
    requires forall l :: l in market ==> PointsOf(l, history) != [] && MinDay(PointsOf(l, history)) == first
    requires d in AllDays(market, history)
    ensures first <= d
  {
    MemberDays(market, history, d);
    var m :| 0 <= m < |market| && d in SeriesOf(PointsOf(market[m], history));
    assert market[m] in market;
    var points := PointsOf(market[m], history);
    var k :| 0 <= k < |points| && points[k].day == d;
  }

  lemma SmallestComesFirst(s: seq<int>, x: int)
    requires Sorting.StrictlyIncreasing(s) && x in s && x <= s[0]
    ensures s[0] == x
  {
  }

  /** When every member's history starts on the same day, the first gathered day is that day. */
  lemma FirstDayIsCommonStart(market: seq<MemberLink>, history: map<string, seq<Pricing.HistoricalPoint>>, first: int)
    requires market != []
    requires forall l :: l in market ==> PointsOf(l, history) != [] && MinDay(PointsOf(l, history)) == first
    ensures AllDays(market, history) != []
    ensures Sorting.SortedDistinctInts(AllDays(market, history))[0] == first
  {
    assert market[0] in market;
    StartIsGathered(market, history, first);
    var ordered := Sorting.SortedDistinctInts(AllDays(market, history));
    assert first in ordered;
    GatheredNotBeforeStart(market, history, first, ordered[0]);
    SmallestComesFirst(ordered, first);
  }

  /** On the first day walked, every member that has that day shows its close on it. */
  lemma SeenOnFirstDay(serieses: seq<map<int, real>>, first: int)
    requires forall idx :: 0 <= idx < |serieses| ==> first in serieses[idx]
    ensures forall idx :: 0 <= idx < |serieses| ==> Seen(serieses, [first])[idx] == Some(serieses[idx][first])
  {
    forall idx | 0 <= idx < |serieses| ensures Latest(serieses[idx], [first]) == Some(serieses[idx][first]) {
      assert [first][|[first]| - 1] == first;
    }
  }

  /** The rebasing once the weights are normalised: the first point is 100 times their sum. */
  lemma MemberSeriesStartsAt100(market: seq<MemberLink>, normalized: seq<real>, history: map<string, seq<Pricing.HistoricalPoint>>, first: int)
    requires |normalized| == |market| && market != [] && Sum(normalized) == 1.0
    requires forall l :: l in market ==>
      PointsOf(l, history) != [] && MinDay(PointsOf(l, history)) == first && Base(PointsOf(l, history)) > 0.0
    ensures MemberSeries(market, normalized, history) != []
    ensures MemberSeries(market, normalized, history)[0] == SeriesPoint(first, 100.0)
  {
    var hs := Histories(market, history);
    var bs := Bases(market, history);
    var n := |market|;
    forall m | 0 <= m < n ensures first in hs[m] && bs[m] == hs[m][first] && bs[m] > 0.0 {
      MemberAt(market, history, m);
      assert market[m] in market;
    }
    FirstDayIsCommonStart(market, history, first);
    var ordered := Sorting.SortedDistinctInts(AllDays(market, history));
    FillSeriesAt(ordered, hs, bs, normalized, 0);
    assert ordered[..1] == [first];
    SeenOnFirstDay(hs, first);
    var seen := Seen(hs, [first]);
    forall idx | 0 <= idx < n ensures Term(normalized[idx], bs[idx], seen[idx]) == normalized[idx] * 100.0 {
      TermAtBase(normalized[idx], bs[idx]);
    }
    CompositeOfFullTerms(normalized, bs, seen, n);
    assert normalized[..n] == normalized;
  }

  /**
   * Rebasing: when every market member's history starts on the same day with a positive close,
   * the series starts on that day at exactly 100.
   */
  lemma RebasedTo100(links: seq<MemberLink>, history: map<string, seq<Pricing.HistoricalPoint>>, first: int)
    requires MarketLinks(links) != []
    requires forall l :: l in MarketLinks(links) ==>
      PointsOf(l, history) != [] && MinDay(PointsOf(l, history)) == first && Base(PointsOf(l, history)) > 0.0
    ensures NormalizedSeries(links, history) != []
    ensures NormalizedSeries(links, history)[0] == SeriesPoint(first, 100.0)
  {
    var market := MarketLinks(links);
    NormalizedWeightsSumToOne(market);
    WeightSumPositive(market);
    NormalizedSeriesStages(links, history);
    var weights := LinkWeights(market);
    MemberSeriesStartsAt100(market, Normalize(weights, Sum(weights)), history, first);
  }

  // ---------------------------------------------------------------------------------------------
  // The methods.

  method BuildBasketNormalizedSeries(links: seq<MemberLink>, history: map<string, seq<Pricing.HistoricalPoint>>) returns (output: seq<SeriesPoint>)
    ensures output == NormalizedSeries(links, history)
  {
    var market := MarketLinks(links);
    if market == [] {
      return [];
    }
    var weights := LinkWeights(market);
    var weightSum := Sum(weights);
    if weightSum <= 0.0 {
      output := [];
    } else {
      var normalizedWeights := Normalize(weights, weightSum);
      output := RebasedComposite(market, normalizedWeights, history);
    }
    NormalizedSeriesStages(links, history);
  }

  lemma NormalizedSeriesStages(links: seq<MemberLink>, history: map<string, seq<Pricing.HistoricalPoint>>)
    requires MarketLinks(links) != []
    ensures var weights := LinkWeights(MarketLinks(links));
      Sum(weights) <= 0.0 ==> NormalizedSeries(links, history) == []
    ensures var weights := LinkWeights(MarketLinks(links));
      Sum(weights) > 0.0 ==>
      NormalizedSeries(links, history) == MemberSeries(MarketLinks(links), Normalize(weights, Sum(weights)), history)
  {
  }

  /** The rest of the source function once the weights are normalised: histories, days, forward fill. */
  method RebasedComposite(market: seq<MemberLink>, normalizedWeights: seq<real>, history: map<string, seq<Pricing.HistoricalPoint>>) returns (output: seq<SeriesPoint>)
    requires |normalizedWeights| == |market|
    ensures output == MemberSeries(market, normalizedWeights, history)
  {
    var historyBySymbol, baseBySymbol, allDates := CollectHistories(market, history);
    if allDates == [] {
      return [];
    }
    var orderedDates := Sorting.SortedDistinctInts(allDates);
    output := ForwardFill(orderedDates, historyBySymbol, baseBySymbol, normalizedWeights);
  }

  /** The loop over the market links: each member's series, its base, and the days seen. */
  method CollectHistories(market: seq<MemberLink>, history: map<string, seq<Pricing.HistoricalPoint>>)
    returns (historyBySymbol: seq<map<int, real>>, baseBySymbol: seq<real>, allDates: seq<int>)
    ensures historyBySymbol == Histories(market, history)
    ensures baseBySymbol == Bases(market, history)
    ensures allDates == AllDays(market, history)
  {
    historyBySymbol, baseBySymbol, allDates := [], [], [];
    for i := 0 to |market|
      invariant historyBySymbol == Histories(market[..i], history)
      invariant baseBySymbol == Bases(market[..i], history)
      invariant allDates == AllDays(market[..i], history)
    {
      assert market[..i + 1][..i] == market[..i];
      var points := PointsOf(market[i], history);
      if points == [] {
        historyBySymbol := historyBySymbol + [map[]];
        baseBySymbol := baseBySymbol + [0.0];
        continue;
      }
      var series := SeriesOf(points);
      historyBySymbol := historyBySymbol + [series];
      allDates := allDates + Days(points);
      var firstDate := MinDay(points);
      baseBySymbol := baseBySymbol + [series[firstDate]];
    }
    assert market[..|market|] == market;
  }

  /** The loop over the ordered days, with the inner loop over the members and `last_seen`. */
  method ForwardFill(orderedDates: seq<int>, historyBySymbol: seq<map<int, real>>, baseBySymbol: seq<real>,
                     normalizedWeights: seq<real>) returns (output: seq<SeriesPoint>)
    requires |baseBySymbol| == |historyBySymbol| && |normalizedWeights| == |historyBySymbol|
    ensures output == FillSeries(orderedDates, historyBySymbol, baseBySymbol, normalizedWeights)
  {
    var lastSeen: seq<Option<real>> := seq(|historyBySymbol|, _ => None);
    output := [];
    for d := 0 to |orderedDates|
      invariant lastSeen == Seen(historyBySymbol, orderedDates[..d])
      invariant output == FillSeries(orderedDates[..d], historyBySymbol, baseBySymbol, normalizedWeights)
    {
      var day := orderedDates[d];
      assert orderedDates[..d + 1][..d] == orderedDates[..d];
      ghost var seen := Seen(historyBySymbol, orderedDates[..d + 1]);
      var composite := 0.0;
      for idx := 0 to |historyBySymbol|
        invariant |lastSeen| == |historyBySymbol|
        invariant forall j :: 0 <= j < idx ==> lastSeen[j] == seen[j]
        invariant forall j :: idx <= j < |historyBySymbol| ==> lastSeen[j] == Latest(historyBySymbol[j], orderedDates[..d])
        invariant composite == Composite(normalizedWeights, baseBySymbol, seen, idx)
      {
        var series := historyBySymbol[idx];
        if day in series {
          lastSeen := lastSeen[idx := Some(series[day])];
        }
        var current := lastSeen[idx];
        var base := baseBySymbol[idx];
        assert current == seen[idx];
        if current.None? || base <= 0.0 {
          continue;
        }
        var normalized := (current.value / base) * 100.0;
        composite := composite + normalizedWeights[idx] * normalized;
      }
      output := output + [SeriesPoint(day, composite)];
    }
    assert orderedDates[..|orderedDates|] == orderedDates;
  }
}
