# Coin screening engine, modelled in Dafny

The program loops forever, reading the clock once per pass. A pass
starts a screening cycle when three things hold:
- its reading falls in the first ten seconds of a minute;
- that minute is not 08:56, 08:57 or 08:58;
- the `dirt1` flag shows no cycle yet in this stretch of the window.

The cycle screens the KRW-quoted markets for three kinds of signal and
inserts each signal into a database. The engine is the `Screening` class in
`Screening.py`.

- The universe (`getTargetCoin`). The engine lists every market and keeps the
  ones whose code contains `KRW-`. It fetches their tickers and keeps the
  markets where both of these hold:
  - the price is above `a1` percent of the 52-week high;
  - the 52-week high is newer than `today - a2` days.
- The pump detector (`findPumpingSignal`). It reads five 30-minute candles,
  newest first. It needs all three conditions:
  - a volume surge (above 1.5 times the mean of the prior four);
  - a close above the prior four highs;
  - a close above 90% of the candle's own high.

  `pumpDict` holds the last qualifying price per market, a ratchet. The
  detector emits "new pumping" on the first sighting and "pumping" when the
  price rose.
- The cross detector (`findCrossSignal`). It reads 21 four-hour closes,
  oldest first, and compares the last two points of the 5-bar and 20-bar
  moving averages. `gcList` and `dcList` hold the markets in the golden and
  the dead regime.
- The volatility-breakout detector (`findVolSignal`). It reads two daily
  candles. It fires when today's move from the open exceeds half of
  yesterday's range. `volList` holds the markets that already fired.
- The cycle (`findSignal`). It runs the three detectors market by market.
  The first exception ends the cycle. That exception is swallowed, and
  nothing already done is undone.
- The driver (`__main__`). Each pass reads the clock once.
  - A reading in 08:59:50–59 clears the four stores, unless this stretch of
    the window already did.
  - A reading in the first ten seconds of a minute outside 08:56–08:58
    starts a cycle, unless this stretch of the window already did.
  - The `dirt1`/`dirt2` flags keep each action to once per stretch.

  The clock is read only between passes, and a cycle lasts as long as its
  fetches and its 1–2 second pauses, three per target market. A window
  that opens and closes while a cycle runs gets no action. A cycle that
  ends inside a later minute's first ten seconds finds `dirt1` still set,
  so that minute gets no cycle either. A cycle running throughout
  08:59:50–59 means the stores are not cleared that day. It may have started
  at 08:53, say, with many target markets. The model therefore takes the readings as an arbitrary
  sequence, and `Scheduler.NoResetWindowNoClear` states what a run without
  a reset-window reading does: it only ever adds to the stores.

## The modules

- `Feed.dfy`: the data the exchange hands over:
  - candles, ticker rows, clock readings;
  - the exchange as a value whose calls may fail;
  - the windows of 5, 21 and 2 candles, newest first;
  - the `sort_index` step as a reversal.
- `Indicators.dfy`: the side-effect-free arithmetic. This is the means, maxima,
  rolling means and the detector conditions, over exact reals.
- `Universe.dfy`: the KRW filter, the ratio and date thresholds, and
  `getTargetCoin`.
- `Detectors.dfy`: each detector as a function from the stores and one
  market's candles to the new stores and the signals emitted. It also holds
  the store invariants and the accounting of signals against the stores.
- `Cycle.dfy`: one market, the market loop and the whole cycle, with their
  exception semantics. It also holds the lemmas that the cycle keeps the
  invariants and what survives an abort.
- `Screening.dfy`: the class `Screening`. Its fields are the four stores and
  the log of inserted signals. Each method is proved to do exactly what the
  function of the same role in `Cycle` does.
- `Scheduler.dfy`: the driver. It has:
  - the pure decision of one pass of the `while True` loop;
  - the counts over runs of clock readings;
  - the driver over the stores;
  - the class-level `Tick` and a loop over a finite run of readings.

The pump rule has two code paths. When the stored price is equal or higher,
the code stores the price and returns. Otherwise it stores the price and
emits. Both paths store the price, so the model writes the store update once.

The cross detector is modelled as the code is written, which is not a toggle
between regimes. Take a golden cross for a market in `dcList`. The code calls
`remove` on `gcList`, where that market cannot be, so `remove` raises a
`ValueError`. That error ends the whole cycle. The dead-cross branch mirrors
this. So a market never changes regime until the next daily reset. The
regime lists only ever grow, and the cycle is cut short at that market
whenever the opposite crossover appears. `Detectors.CrossOppositeRaises` and
`Cycle.AbortStopsLaterMarkets` state this.

The two branches of `findCrossSignal` run one after the other in the code.
The function `Detectors.CrossStep` writes them as alternatives, which is
sound because their conditions exclude each other
(`Indicators.CrossExclusive`). The method `FindCrossSignal` keeps the two
branches in sequence.

The code's comment gives the screening blackout as 08:55–08:59. The test
`55 < minute < 59` only excludes minutes 56, 57 and 58, and the model follows
the test (`Scheduler.EdgeMinutesScreen`).

## Model

| member | source | states |
|---|---|---|
| `Feed.Chronological` | Screening.py:124 | Sorting the newest-first answer by time gives the same candles in reverse order. |
| `Feed.ChronologicalSorted` | Screening.py:124 | The reversed answer is strictly ascending in time, as `sort_index(ascending=True)` leaves it. |
| `Indicators.Max` | Screening.py:106 | `.max()` of a non-empty series is one of its elements and bounds every element. |
| `Indicators.RollingMean` | Screening.py:126-127 | Point i of `rolling(n).mean()`: the mean of the n closes ending at i. |
| `Indicators.VolumeSurge` | Screening.py:105 | The current volume exceeds 1.5 times the mean volume of the four prior candles. |
| `Indicators.BreaksRecentHigh` | Screening.py:106 | The current price exceeds the highest high of the four prior candles. |
| `Indicators.NearCandleHigh` | Screening.py:107 | The current price exceeds 90% of the current candle's high. |
| `Indicators.PumpQualifies` | Screening.py:105-107 | All three pump conditions hold. |
| `Indicators.GoldenCrossAt` | Screening.py:129-130 | The last close is above `ma5[-1]`, `ma5[-1]` above `ma20[-1]`, and `ma5[-2]` below `ma20[-2]`. |
| `Indicators.DeadCrossAt` | Screening.py:142-143 | The mirror image: below, below, and above. |
| `Indicators.VolBreakout` | Screening.py:159-162 | Today's close minus open exceeds half of yesterday's high minus low. |
| `Indicators.VolumeSurgeExplicit` | Screening.py:105 | The volume test compares the current volume with 1.5 times the average of exactly the four prior volumes. |
| `Indicators.BreaksRecentHighExplicit` | Screening.py:106 | The breakout test holds iff the current close exceeds each of the four prior highs. |
| `Indicators.RollingMeanStep` | Screening.py:126-127 | Moving an n-bar rolling mean on by one bar changes it by (new − dropped)/n. |
| `Indicators.CrossWindows` | Screening.py:126-130 | For 21 closes, `ma5[-1]`, `ma5[-2]`, `ma20[-1]` and `ma20[-2]` are the sums of closes 16–20 and 15–19 divided by 5, and of closes 1–20 and 0–19 divided by 20. |
| `Indicators.CrossExclusive` | Screening.py:129-130 | The golden and the dead condition never hold together. |
| `Indicators.MeansStep` | Screening.py:126-130 | From bar i − 1 to bar i, the 5-bar mean moves by (p[i] − p[i−5])/5 and the 20-bar mean by (p[i] − p[i−20])/20. |
| `Indicators.GoldenCrossGains` | Screening.py:129-130 | A golden cross implies the short mean gained on the long one over the last bar. |
| `Indicators.DeadCrossLoses` | Screening.py:142-143 | A dead cross implies the short mean lost against the long one over the last bar. |
| `Universe.Contains` | Screening.py:31 | `str.contains` with a plain pattern: the pattern occurs at some position of the code. |
| `Universe.KrwMarkets` | Screening.py:31 | Keeps exactly the listed markets whose code contains `KRW-`, each as many times as it was listed, in the order they were listed. |
| `Universe.RatioAbove` | Screening.py:23 | The 52-week ratio, price over high times 100, is strictly above `a1`; a zero high gives the floating-point outcome. |
| `Universe.HighIsRecent` | Screening.py:24 | The high's date, a midnight, is strictly later than `today − a2` days at today's time of day. |
| `Universe.TargetCoin` | Screening.py:21-26 | A ticker row is kept iff it is in the input and passes both strict thresholds, as many times as it occurs there; the kept rows keep their input order. |
| `Universe.MarketsKeepOrder` | Screening.py:178 | Taking the market column of a row selection keeps its order. |
| `Universe.TargetMarketsInOrder` | Screening.py:176-178 | The cycle visits the target markets in the order the ticker answer lists them, with the rejected rows dropped. |
| `Universe.HighIsRecentByDay` | Screening.py:24 | Comparing the high's midnight with `today − a2` days at any time of day amounts to: the high falls after day `today − a2`. |
| `Universe.RatioBoundaryExcluded` | Screening.py:23 | A row whose ratio equals `a1` exactly is dropped. |
| `Universe.DateBoundaryExcluded` | Screening.py:24 | A row whose high falls exactly on day `today − a2` is dropped. |
| `Universe.DefaultThresholds` | Screening.py:21-24 | With `a1` = 1 and `a2` = 365, a row is kept iff price × 100 > 52-week high and the high is at most 364 days old. |
| `Detectors.PumpStep` | Screening.py:101-119 | The pump detector touches only `pumpDict`; a market joins its keys exactly when the candle qualifies. |
| `Detectors.RemoveFirst` | Screening.py:134 | `list.remove` succeeds iff the element is present, removes exactly one copy of it, and raises `ValueError` otherwise. |
| `Detectors.FirstIndex` | Screening.py:134 | The position of the first copy of a present element. |
| `Detectors.RemoveFirstSplits` | Screening.py:134 | `list.remove` takes out the first copy, and the elements before and after it keep their order. |
| `Detectors.CrossStep` | Screening.py:129-153 | A cross call that returns normally leaves `pumpDict` and `volList` alone. |
| `Detectors.VolStep` | Screening.py:162-171 | The volatility detector touches only `volList`. |
| `Detectors.PumpIgnoresUnqualified` | Screening.py:105-107 | If any of the three pump conditions fails, nothing changes and nothing is emitted. |
| `Detectors.PumpRatchet` | Screening.py:110-119 | On a qualifying candle the stored price becomes the current price. The call emits "new pumping" when no price was stored, "pumping" when the price rose above the stored one, and nothing otherwise. |
| `Detectors.PumpRatchetExample` | Screening.py:110-119 | Qualifying prices 100, 105, 103, 107 emit "new pumping", "pumping", nothing, "pumping" and leave 107 stored. |
| `Detectors.CrossStepKeepsValid` | Screening.py:133-153 | A normal return keeps both regime lists free of repeats and disjoint. |
| `Detectors.CrossStepOnlyAppends` | Screening.py:133-153 | A normal return either changes nothing or appends a market that was in neither list, with the matching signal. |
| `Detectors.CrossOppositeRaises` | Screening.py:133-134 | The opposite crossover for a market already in a regime raises `ValueError`. |
| `Detectors.CrossFreshEmits` | Screening.py:129-153 | A golden crossover for a market in neither list appends it to `gcList` and emits "goldencross"; a dead one appends it to `dcList` and emits "deadcross". |
| `Detectors.CrossNoCrossoverSilent` | Screening.py:129-153 | Without a golden or dead crossover the call changes nothing and emits nothing. |
| `Detectors.CrossErrIff` | Screening.py:133-147 | Under the invariant the call raises exactly on the opposite crossover of a market already in a regime. |
| `Detectors.CrossRepeatSilent` | Screening.py:135-136 | A repeated crossover of a market's own regime returns without change or signal. |
| `Detectors.VolBoundary` | Screening.py:162-171 | A move of exactly half the prior range signals nothing; a larger move by a market not yet in `volList` appends it to `volList` and emits "vol". |
| `Detectors.VolEmitsIff` | Screening.py:162-171 | A "vol" signal is emitted iff the move exceeds half the prior range and the market is not yet in `volList`. |
| `Detectors.VolNoBreakoutSilent` | Screening.py:162 | A move of at most half the prior range, a fall included, changes nothing and emits nothing. |
| `Detectors.VolOnce` | Screening.py:165-167 | A market already in `volList` is left alone, however strong its move. |
| `Detectors.VolRunEmitsOnce` | Screening.py:162-171 | Over any run of qualifying days a market not yet in `volList` gets exactly one "vol" signal. |
| `Detectors.VolRunSilent` | Screening.py:165-167 | Over any run of days a market already in `volList` changes nothing. |
| `Detectors.PumpStepGrows` | Screening.py:110-119 | The pump detector keeps the invariants and never drops a market from `pumpDict`. |
| `Detectors.CrossStepGrows` | Screening.py:133-153 | A normal cross call keeps the invariants and only appends to the regime lists. |
| `Detectors.VolStepGrows` | Screening.py:165-169 | The vol detector keeps the invariants and only appends to `volList`. |
| `Detectors.ClearedAccounted` | Screening.py:12-15 | The empty stores satisfy the invariants with an empty log. |
| `Detectors.PumpStepKeeps` | Screening.py:110-119 | The pump detector keeps the invariants and the cross and vol accounting. |
| `Detectors.CrossStepKeeps` | Screening.py:133-153 | A normal cross call keeps the invariants, and each market holds one cross signal iff it sits in a regime list. |
| `Detectors.VolStepKeeps` | Screening.py:162-171 | The vol detector keeps the invariants, and each market holds one "vol" signal iff it sits in `volList`. |
| `Detectors.AccountedAtMostOnce` | Screening.py:133-171 | Stores and log in agreement mean at most one cross and one "vol" signal per market. |
| `Cycle.PumpCall` | Screening.py:103-119 | The pump call raises exactly when its fetch fails. |
| `Cycle.CrossCall` | Screening.py:123-153 | A cross call that raises has changed nothing and emitted nothing. |
| `Cycle.VolCall` | Screening.py:157-171 | The vol call raises exactly when its fetch fails. |
| `Cycle.MarketStep` | Screening.py:179-186 | One market: the pump, cross and vol calls in order, the first exception ending the pass with what came before kept. |
| `Cycle.RunMarkets` | Screening.py:178-188 | The loop over the target markets in order; the first exception ends it. |
| `Cycle.CycleOutcome` | Screening.py:173-188 | A cycle: market list, KRW filter, tickers, targets, then the market loop; a failed fetch of the universe ends it with nothing changed. |
| `Cycle.RunMarketsAppend` | Screening.py:178-188 | Running markets `a + b` is running `a`, then `b` from where `a` stopped, unless `a` raised. |
| `Cycle.AbortStopsLaterMarkets` | Screening.py:173-188 | An exception at market k ends the cycle: later markets are skipped, and earlier effects and emissions stay. |
| `Cycle.RunMarketsKeeps` | Screening.py:178-188 | A property that every market's pass keeps is kept by the whole market loop, however it ends. |
| `Cycle.CrossRaiseKeepsPump` | Screening.py:179-188 | A raising cross detector does not undo the pump detector's update and signal on the same market. |
| `Cycle.UniverseFailureChangesNothing` | Screening.py:174-176 | A cycle whose market list or tickers cannot be fetched changes nothing. |
| `Cycle.PumpCallKeeps` | Screening.py:179 | The pump call keeps the invariants and the accounting, whether or not it raises. |
| `Cycle.CrossCallKeeps` | Screening.py:182 | The cross call keeps the invariants and the accounting, whether or not it raises. |
| `Cycle.VolCallKeeps` | Screening.py:185 | The vol call keeps the invariants and the accounting, whether or not it raises. |
| `Cycle.MarketStepKeeps` | Screening.py:178-186 | One market's pass keeps the invariants and the accounting. |
| `Cycle.PumpCallGrows` | Screening.py:101-119 | The pump call keeps the invariants and only adds to the stores. |
| `Cycle.CrossCallGrows` | Screening.py:121-153 | The cross call keeps the invariants and only adds to the stores, whether or not it raises. |
| `Cycle.VolCallGrows` | Screening.py:155-171 | The vol call keeps the invariants and only adds to the stores. |
| `Cycle.MarketStepGrows` | Screening.py:178-186 | One market's pass keeps the invariants and only adds to the stores. |
| `Cycle.CycleGrows` | Screening.py:173-188 | A whole cycle keeps the invariants and only adds to the stores, however it ends. |
| `Cycle.CycleKeeps` | Screening.py:173-188 | A whole cycle keeps the invariants and the accounting, however it ends. |
| `Screening.Screening.constructor` | Screening.py:10-15 | A new engine has empty stores and an empty log. |
| `Screening.Screening.FindPumpingSignal` | Screening.py:101-119 | The method leaves the stores and the log as `Cycle.PumpCall` says, and reports its exception. |
| `Screening.Screening.FindCrossSignal` | Screening.py:121-153 | The two branches run in sequence; the result is what `Cycle.CrossCall` says, including the `ValueError` of `remove`. |
| `Screening.Screening.FindVolSignal` | Screening.py:155-171 | The scan of `volList` and the append give what `Cycle.VolCall` says. |
| `Screening.Screening.ScreenMarket` | Screening.py:178-186 | The loop body leaves the stores and the log as `Cycle.MarketStep` says. |
| `Screening.Screening.FindSignal` | Screening.py:173-188 | The cycle leaves the stores and the log as `Cycle.CycleOutcome` says; its exception is swallowed. |
| `Scheduler.Decide` | Screening.py:198-213 | A reset happens only in 08:59:50–59. A cycle happens only in seconds 0–9 outside 08:56–08:58. Never both in one pass. Each flag is 0 afterwards iff the reading is outside its window. |
| `Scheduler.Count` | Screening.py:195-213 | A run of readings triggers at most one action per reading. |
| `Scheduler.ResetOncePerWindow` | Screening.py:198-206 | Within one stretch of the reset window the stores are cleared exactly once when `dirt2` is 0 on arrival, never otherwise. |
| `Scheduler.ScreenOncePerWindow` | Screening.py:208-213 | Within one stretch of a screening window one cycle runs when `dirt1` is 0 on arrival, none otherwise. |
| `Scheduler.LeavingRearms` | Screening.py:205-213 | A reading outside a window resets its flag to 0. |
| `Scheduler.BlackoutSkipsScreening` | Screening.py:208 | No cycle starts from 08:56:00 to 08:58:59. |
| `Scheduler.EdgeMinutesScreen` | Screening.py:208 | The first ten seconds of 08:55 and of 08:59 still start a cycle. |
| `Scheduler.Pass` | Screening.py:196-213 | One pass: the decision at the reading, the reset if any, then the cycle if any, and the next flags. |
| `Scheduler.Run` | Screening.py:195-213 | The loop over a finite run of readings, one pass each, signals in order. |
| `Scheduler.RunValid` | Screening.py:195-213 | Whatever the readings, resets included, the stores stay valid: no market is in both regimes and no list repeats a market. |
| `Scheduler.NoResetWindowNoClear` | Screening.py:198-206 | Readings that never fall in 08:59:50–59 never clear the stores: `pumpDict` keeps its markets and each list only grows. |
| `Scheduler.ResetWindowLeavesCleared` | Screening.py:198-213 | However long the stretch of the reset window, the stores end it empty and nothing is emitted during it. |
| `Scheduler.RunKeeps` | Screening.py:195-213 | Passes that never enter the reset window keep the invariants and the accounting. |
| `Scheduler.AtMostOncePerReset` | Screening.py:133-171 | From a reset to the next, whatever the exchange answers and whichever cycles abort, each market gets at most one cross and one "vol" signal. |
| `Scheduler.Tick` | Screening.py:196-213 | One pass of the loop on the object does what `Scheduler.Pass` says and returns the new flags. |
| `Scheduler.Loop` | Screening.py:190-213 | A fresh engine driven over a run of readings ends as `Scheduler.Run` says, with valid stores. |

## Left out

- The exchange client (`upbit.py`) is not part of this model.
  - Each of its answers is a value of the `Exchange` datatype, a call that
    either fails or returns data.
  - A failure stands for any exception the call or the DataFrame building
    could raise.
  - Answers are assumed to hold exactly the candles requested (5, 21, 2),
    strictly newest first, and to be about the market asked for.
  - The model does not cover short answers or a market column naming another
    market.
- MongoDB and the contents of the documents are left out. This covers
  `dbConnection`, `insert_one`, the `uuid4` ids, the names, the price, the
  change rate and the creation time. Each insertion is one `Signal` (market
  and type) appended to the `log` field.
  - The model assumes an insertion never fails.
  - A failure of the name lookups in `insert*Signal` is not modelled.
  - The fields `coinList`, `coinInfo` and `targetCoin`, which the engine keeps
    only for those lookups, are not modelled.
- The `time.sleep(random.randint(1, 2))` pauses are left out. Time passing
  between calls is captured only by the exchange answering each call
  independently.
- How long a cycle takes is not modelled. The readings given to
  `Scheduler.Run` are any sequence, so they cover minutes and reset windows
  that pass while a cycle runs. The model does not derive which readings a
  real run produces, nor prove that a reset or a cycle happens on a given
  day.
- `datetime.now()` and `datetime.today()` are not called; the clock reading
  is an input. One reading serves as both the driver's `now` and the
  filter's `today`. The date of the 52-week high is a day number instead of
  a parsed string.
- Floating point is replaced by exact reals.
  - A zero 52-week high is modelled with the division's floating-point
    result: the row passes iff its price is positive.
  - NaN values from short series cannot arise, because the window lengths
    are fixed.
- The endless `while True` loop is not modelled as such. `Scheduler.Loop`
  runs it over a finite sequence of readings.
