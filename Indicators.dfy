/** The side-effect-free candle arithmetic of the three detectors: means,
    maxima, rolling averages and the conditions built from them. Prices
    and volumes are exact reals. */
module Indicators {
  import opened Feed

  function Sum(s: seq<real>): real {
    if s == [] then 0.0 else s[0] + Sum(s[1..])
  }

  /** pandas `Series.mean()` of a non-empty series. */
  function Mean(s: seq<real>): real
    requires |s| > 0
  {
    Sum(s) / (|s| as real)
  }

  /** pandas `Series.max()` of a non-empty series. */
  function Max(s: seq<real>): (m: real)
    requires |s| > 0
    ensures m in s
    ensures forall x :: x in s ==> x <= m
  {
    if |s| == 1 then s[0]
    else
      var rest := Max(s[1..]);
      assert forall x :: x in s ==> x == s[0] || x in s[1..];
      if s[0] >= rest then s[0] else rest
  }

  function Volumes(cs: seq<Candle>): (v: seq<real>)
    ensures |v| == |cs|
  {
    seq(|cs|, i requires 0 <= i < |cs| => cs[i].volume)
  }

  function Highs(cs: seq<Candle>): (h: seq<real>)
    ensures |h| == |cs|
  {
    seq(|cs|, i requires 0 <= i < |cs| => cs[i].high)
  }

  function Closes(cs: seq<Candle>): (p: seq<real>)
    ensures |p| == |cs|
  {
    seq(|cs|, i requires 0 <= i < |cs| => cs[i].close)
  }

  /** Point `i` of `series.rolling(n).mean()`: the mean of the `n` values
      ending at index `i`. */
  function RollingMean(p: seq<real>, n: nat, i: int): real
    requires 1 <= n && n - 1 <= i < |p|
  {
    Sum(p[i - n + 1 .. i + 1]) / (n as real)
  }

  // ---------------------------------------------------------------------
  // Pump conditions; `c` is the newest-first 30-minute answer, c[0] the
  // current candle.

  /** Current volume above 1.5 times the mean volume of the prior four candles. */
  predicate VolumeSurge(c: seq<Candle>)
    requires |c| == 5
  {
    c[0].volume > 1.5 * Mean(Volumes(c[1..]))
  }

  /** Current price above every high of the prior four candles. */
  predicate BreaksRecentHigh(c: seq<Candle>)
    requires |c| == 5
  {
    c[0].close > Max(Highs(c[1..]))
  }

  /** Current price above 90% of the current candle's high. */
  predicate NearCandleHigh(c: seq<Candle>)
    requires |c| == 5
  {
    c[0].close > c[0].high * 0.9
  }

  predicate PumpQualifies(c: seq<Candle>)
    requires |c| == 5
  {
    VolumeSurge(c) && BreaksRecentHigh(c) && NearCandleHigh(c)
  }

  // ---------------------------------------------------------------------
  // Cross conditions; `p` is the oldest-first series of 21 four-hour
  // closes, so index 20 is `[-1]` and index 19 is `[-2]`.

  predicate GoldenCrossAt(p: seq<real>)
    requires |p| == 21
  {
    && p[20] > RollingMean(p, 5, 20)
    && RollingMean(p, 5, 20) > RollingMean(p, 20, 20)
    && RollingMean(p, 5, 19) < RollingMean(p, 20, 19)
  }

  predicate DeadCrossAt(p: seq<real>)
    requires |p| == 21
  {
    && p[20] < RollingMean(p, 5, 20)
    && RollingMean(p, 5, 20) < RollingMean(p, 20, 20)
    && RollingMean(p, 5, 19) > RollingMean(p, 20, 19)
  }

  // ---------------------------------------------------------------------
  // Volatility breakout; `prev` and `cur` are the two daily candles, oldest first.

  /** The current day's move from its open exceeds half the prior day's range. */
  predicate VolBreakout(prev: Candle, cur: Candle) {
    cur.close - cur.open > (prev.high - prev.low) * 0.5
  }

  // ---------------------------------------------------------------------
  // Lemmas

  lemma {:induction false} SumSnoc(s: seq<real>, x: real)
    ensures Sum(s + [x]) == Sum(s) + x
  {
    if s != [] {
      assert (s + [x])[1..] == s[1..] + [x];
      SumSnoc(s[1..], x);
    }
  }

  /** The pump volume test compares against the plain average of the four
      prior volumes. */
  lemma VolumeSurgeExplicit(c: seq<Candle>)
    requires |c| == 5
    ensures VolumeSurge(c) <==>
      c[0].volume > 1.5 * ((c[1].volume + c[2].volume + c[3].volume + c[4].volume) / 4.0)
  {
    var v := Volumes(c[1..]);
    assert v == [c[1].volume, c[2].volume, c[3].volume, c[4].volume];
    assert Sum(v[3..]) == c[4].volume by { assert v[3..][1..] == []; }
    assert Sum(v[2..]) == c[3].volume + c[4].volume by { assert v[2..][1..] == v[3..]; }
    assert Sum(v[1..]) == c[2].volume + c[3].volume + c[4].volume by { assert v[1..][1..] == v[2..]; }
  }

  /** The breakout test is a test against each prior high. */
  lemma BreaksRecentHighExplicit(c: seq<Candle>)
    requires |c| == 5
    ensures BreaksRecentHigh(c) <==>
      c[0].close > c[1].high && c[0].close > c[2].high && c[0].close > c[3].high && c[0].close > c[4].high
  {
    var h := Highs(c[1..]);
    assert h == [c[1].high, c[2].high, c[3].high, c[4].high];
    assert h[0] in h && h[1] in h && h[2] in h && h[3] in h;
    var m := Max(h);
    assert m == h[0] || m == h[1] || m == h[2] || m == h[3];
  }

  /** Moving the window of a rolling mean on by one bar adds the new value
      and drops the oldest. */
  lemma RollingMeanStep(p: seq<real>, n: nat, i: int)
    requires 1 <= n && n <= i < |p|
    ensures RollingMean(p, n, i) - RollingMean(p, n, i - 1) == (p[i] - p[i - n]) / (n as real)
  {
    var mid := p[i - n + 1 .. i];
    assert p[i - n + 1 .. i + 1] == mid + [p[i]];
    SumSnoc(mid, p[i]);
    assert p[i - n .. i] == [p[i - n]] + mid;
    assert ([p[i - n]] + mid)[1..] == mid;
  }

  /** For the 21-bar series the four points compared are the means of the
      last five, the five before them, the last twenty and the first twenty. */
  lemma CrossWindows(p: seq<real>)
    requires |p| == 21
    ensures RollingMean(p, 5, 20) == Sum(p[16..21]) / 5.0
    ensures RollingMean(p, 5, 19) == Sum(p[15..20]) / 5.0
    ensures RollingMean(p, 20, 20) == Sum(p[1..21]) / 20.0
    ensures RollingMean(p, 20, 19) == Sum(p[0..20]) / 20.0
  {
  }

  /** The golden and the dead condition never hold together: one needs the
      last close above the 5-bar mean, the other below it. */
  lemma CrossExclusive(p: seq<real>)
    requires |p| == 21
    ensures !(GoldenCrossAt(p) && DeadCrossAt(p))
  {
  }

  /** How the two rolling means compared by the cross detector move from
      bar `i - 1` to bar `i`: the 5-bar mean by a fifth of the close
      entering minus the close leaving, the 20-bar mean by a twentieth. */
  lemma MeansStep(p: seq<real>, i: int)
    requires 20 <= i < |p|
    ensures RollingMean(p, 5, i) - RollingMean(p, 5, i - 1) == (p[i] - p[i - 5]) / 5.0
    ensures RollingMean(p, 20, i) - RollingMean(p, 20, i - 1) == (p[i] - p[i - 20]) / 20.0
  {
    RollingMeanStep(p, 5, i);
    RollingMeanStep(p, 20, i);
  }

  /** A golden cross means the 5-bar mean gained on the 20-bar mean over
      the last bar: the close entering the short window beat the one
      leaving it by more than the long window's change. */
  lemma GoldenCrossGains(p: seq<real>)
    requires |p| == 21
    requires GoldenCrossAt(p)
    ensures (p[20] - p[15]) / 5.0 > (p[20] - p[0]) / 20.0
  {
    MeansStep(p, 20);
  }

  /** The mirror image for a dead cross. */
  lemma DeadCrossLoses(p: seq<real>)
    requires |p| == 21
    requires DeadCrossAt(p)
    ensures (p[20] - p[15]) / 5.0 < (p[20] - p[0]) / 20.0
  {
    MeansStep(p, 20);
  }
}
