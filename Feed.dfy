/** The exchange client as the screening engine sees it: the data it is
    handed (candles, ticker rows, a clock reading) and the calls that can
    fail. Nothing here talks to a network; every answer of the exchange is
    a value passed in. */
module Feed {

  datatype Option<T> = None | Some(value: T)

  /** One OHLCV candle. `time` orders candles (it stands for
      `candle_date_time_utc`), `close` is the candle's `trade_price`. */
  datatype Candle = Candle(time: int, open: real, high: real, low: real, close: real, volume: real)

  /** One row of the ticker answer: the market code, its last trade price
      and its 52-week high, the date of that high given as a day number. */
  datatype Ticker = Ticker(market: string, tradePrice: real, highest52WeekPrice: real, highest52WeekDay: int)

  /** A wall-clock reading: a day number and the time of day. */
  datatype Clock = Clock(day: int, hour: nat, minute: nat, second: nat)

  predicate ValidClock(t: Clock) {
    t.hour < 24 && t.minute < 60 && t.second < 60
  }

  function SecondsOfDay(t: Clock): nat {
    t.hour * 3600 + t.minute * 60 + t.second
  }

  /** The exceptions a screening cycle can meet: a failed exchange call,
      and the `ValueError` of `list.remove` on an absent element. */
  datatype Error = FetchError | ValueError

  datatype Result<T> = Ok(value: T) | Err(error: Error)

  /** The answer of one exchange call: its data, or an exception. */
  datatype Fetch<T> = Fetched(value: T) | Failed

  /** Candles strictly newest first, as the exchange delivers them. */
  predicate NewestFirst(cs: seq<Candle>) {
    forall i :: 0 < i < |cs| ==> cs[i - 1].time > cs[i].time
  }

  /** `n` flat candles one time unit apart, newest first. */
  function Flat(n: nat): (cs: seq<Candle>)
    ensures |cs| == n && NewestFirst(cs)
  {
    seq(n, i => Candle(n - i, 0.0, 0.0, 0.0, 0.0, 0.0))
  }

  /** The answers the engine asks for, holding exactly the number of
      candles requested, newest first. */
  type HalfHourWindow = c: seq<Candle> | |c| == 5 && NewestFirst(c) witness Flat(5)
  type FourHourWindow = c: seq<Candle> | |c| == 21 && NewestFirst(c) witness Flat(21)
  type DailyWindow = c: seq<Candle> | |c| == 2 && NewestFirst(c) witness Flat(2)

  /** The exchange client: every call the engine makes, as a function of
      its arguments.
        minutes30  -- getMinutesCandles(unit=30, count=5)
        minutes240 -- getMinutesCandles(unit=240, count=21)
        days       -- getDaysCandles(count=2) */
  datatype Exchange = Exchange(
    marketAll: Fetch<seq<string>>,
    ticker: seq<string> -> Fetch<seq<Ticker>>,
    minutes30: string -> Fetch<HalfHourWindow>,
    minutes240: string -> Fetch<FourHourWindow>,
    days: string -> Fetch<DailyWindow>)

  /** `set_index("candle_date_time_utc").sort_index(ascending=True)` on a
      newest-first answer: the same candles in reverse, oldest first. */
  function Chronological(raw: seq<Candle>): (r: seq<Candle>)
    requires NewestFirst(raw)
    ensures |r| == |raw|
    ensures forall i :: 0 <= i < |r| ==> r[i] == raw[|raw| - 1 - i]
  {
    seq(|raw|, i requires 0 <= i < |raw| => raw[|raw| - 1 - i])
  }

  /** The reversal is what sorting by time yields: the result is strictly
      ascending in time. */
  lemma ChronologicalSorted(raw: seq<Candle>)
    requires NewestFirst(raw)
    ensures forall i, j :: 0 <= i < j < |raw| ==> Chronological(raw)[i].time < Chronological(raw)[j].time
  {
    var r := Chronological(raw);
    forall i, j | 0 <= i < j < |raw|
      ensures r[i].time < r[j].time
    {
      NewerIsLater(raw, |raw| - 1 - j, |raw| - 1 - i);
    }
  }

  lemma {:induction false} NewerIsLater(raw: seq<Candle>, a: int, b: int)
    requires NewestFirst(raw)
    requires 0 <= a < b < |raw|
    ensures raw[a].time > raw[b].time
    decreases b - a
  {
    if a + 1 < b {
      NewerIsLater(raw, a + 1, b);
    }
  }
}
