/** The universe filter: which markets a screening cycle looks at. The
    exchange lists every market; the engine keeps the KRW quoted ones, asks
    for their tickers, and keeps the markets whose price stands above a
    given percentage of the 52-week high and whose high is recent enough. */
module Universe {
  import opened Feed

  /** `pat` occurs somewhere in `s` (pandas `str.contains` with a plain pattern). */
  predicate Contains(s: string, pat: string) {
    pat <= s || (s != [] && Contains(s[1..], pat))
  }

  /** `a` is `b` with some elements dropped and the others kept in their
      order, as a boolean-mask row selection leaves a DataFrame. */
  predicate Subsequence<T(==)>(a: seq<T>, b: seq<T>)
    decreases |b|
  {
    a == [] || (b != [] && ((a[0] == b[0] && Subsequence(a[1..], b[1..])) || Subsequence(a, b[1..])))
  }

  /** `coinList[coinList['market'].str.contains('KRW-')]`. */
  function KrwMarkets(markets: seq<string>): (r: seq<string>)
    ensures |r| <= |markets|
    ensures forall m :: multiset(r)[m] == if Contains(m, "KRW-") then multiset(markets)[m] else 0
    ensures forall m :: m in r <==> m in markets && Contains(m, "KRW-")
    ensures Subsequence(r, markets)
  {
    if markets == [] then []
    else
      var rest := KrwMarkets(markets[1..]);
      assert multiset(markets) == multiset{markets[0]} + multiset(markets[1..]) by {
        assert markets == [markets[0]] + markets[1..];
      }
      if Contains(markets[0], "KRW-") then
        assert ([markets[0]] + rest)[1..] == rest;
        assert multiset([markets[0]] + rest) == multiset{markets[0]} + multiset(rest);
        [markets[0]] + rest
      else rest
  }

  /** `trade_price / highest_52_week_price * 100 > a1`, with the outcome
      floating point division gives when the 52-week high is zero: an
      infinite ratio for a positive price, a ratio that compares false
      otherwise. */
  predicate RatioAbove(t: Ticker, a1: real) {
    if t.highest52WeekPrice == 0.0 then t.tradePrice > 0.0
    else t.tradePrice / t.highest52WeekPrice * 100.0 > a1
  }

  /** `highest_52_week_date > today - timedelta(days=a2)`: the high's date
      is a midnight, `today` carries the time of day; both in seconds. */
  predicate HighIsRecent(t: Ticker, today: Clock, a2: int) {
    t.highest52WeekDay * 86400 > (today.day - a2) * 86400 + SecondsOfDay(today)
  }

  predicate Selected(t: Ticker, today: Clock, a1: real, a2: int) {
    RatioAbove(t, a1) && HighIsRecent(t, today, a2)
  }

  /** `getTargetCoin`: the ticker rows that pass both thresholds, in order. */
  function TargetCoin(tickers: seq<Ticker>, today: Clock, a1: real := 1.0, a2: int := 365): (r: seq<Ticker>)
    ensures |r| <= |tickers|
    ensures forall t :: multiset(r)[t] == if Selected(t, today, a1, a2) then multiset(tickers)[t] else 0
    ensures forall t :: t in r <==> t in tickers && Selected(t, today, a1, a2)
    ensures Subsequence(r, tickers)
  {
    if tickers == [] then []
    else
      var rest := TargetCoin(tickers[1..], today, a1, a2);
      assert multiset(tickers) == multiset{tickers[0]} + multiset(tickers[1..]) by {
        assert tickers == [tickers[0]] + tickers[1..];
      }
      if Selected(tickers[0], today, a1, a2) then
        assert ([tickers[0]] + rest)[1..] == rest;
        assert multiset([tickers[0]] + rest) == multiset{tickers[0]} + multiset(rest);
        [tickers[0]] + rest
      else rest
  }

  /** `targetCoin['market']`. */
  function Markets(ts: seq<Ticker>): (r: seq<string>)
    ensures |r| == |ts|
    ensures forall i :: 0 <= i < |ts| ==> r[i] == ts[i].market
  {
    seq(|ts|, i requires 0 <= i < |ts| => ts[i].market)
  }

  // ---------------------------------------------------------------------
  // Lemmas

  /** Taking the market column keeps a row selection's order. */
  lemma {:induction false} MarketsKeepOrder(a: seq<Ticker>, b: seq<Ticker>)
    requires Subsequence(a, b)
    ensures Subsequence(Markets(a), Markets(b))
    decreases |b|
  {
    if a != [] {
      assert Markets(b)[1..] == Markets(b[1..]);
      if a[0] == b[0] && Subsequence(a[1..], b[1..]) {
        assert Markets(a)[1..] == Markets(a[1..]);
        MarketsKeepOrder(a[1..], b[1..]);
      } else {
        MarketsKeepOrder(a, b[1..]);
      }
    }
  }

  /** The cycle screens the target markets in the order the ticker answer
      lists them: the markets of `getTargetCoin` are that answer's markets
      with the rejected rows dropped. */
  lemma TargetMarketsInOrder(tickers: seq<Ticker>, today: Clock, a1: real, a2: int)
    ensures Subsequence(Markets(TargetCoin(tickers, today, a1, a2)), Markets(tickers))
  {
    MarketsKeepOrder(TargetCoin(tickers, today, a1, a2), tickers);
  }

  /** Comparing a midnight with `today - a2 days` at any time of day
      amounts to comparing day numbers: the high must fall strictly after
      day `today - a2`. */
  lemma HighIsRecentByDay(t: Ticker, today: Clock, a2: int)
    requires ValidClock(today)
    ensures HighIsRecent(t, today, a2) <==> t.highest52WeekDay > today.day - a2
  {
    assert SecondsOfDay(today) < 86400;
  }

  /** A row whose ratio equals `a1` exactly is dropped: the comparison is strict. */
  lemma RatioBoundaryExcluded(t: Ticker, today: Clock, a1: real, a2: int)
    requires t.highest52WeekPrice != 0.0
    requires t.tradePrice / t.highest52WeekPrice * 100.0 == a1
    ensures t !in TargetCoin([t], today, a1, a2)
  {
  }

  /** A row whose high falls exactly on day `today - a2` is dropped, at
      every time of day. */
  lemma DateBoundaryExcluded(t: Ticker, today: Clock, a1: real, a2: int)
    requires ValidClock(today)
    requires t.highest52WeekDay == today.day - a2
    ensures t !in TargetCoin([t], today, a1, a2)
  {
  }

  /** With the defaults (`a1` = 1, `a2` = 365) a row is kept exactly when
      its price is above 1% of the 52-week high and the high lies within
      the last 364 days. */
  lemma DefaultThresholds(t: Ticker, today: Clock)
    requires ValidClock(today)
    requires t.highest52WeekPrice > 0.0
    ensures t in TargetCoin([t], today) <==>
      t.tradePrice * 100.0 > t.highest52WeekPrice && t.highest52WeekDay >= today.day - 364
  {
    HighIsRecentByDay(t, today, 365);
    var q := t.tradePrice / t.highest52WeekPrice;
    assert q * t.highest52WeekPrice == t.tradePrice;
    assert q * 100.0 > 1.0 <==> t.tradePrice * 100.0 > t.highest52WeekPrice;
  }
}
