/** The screening engine as the object it is in the program: four stores
    updated in place by the three detectors, and the log of the signal
    documents inserted into the database. Each method is proved to do
    what the corresponding function of `Detectors` and `Cycle` says, so
    everything proved there about the stores and the emissions holds of
    the object. */
module Screening {
  import opened Feed
  import opened Indicators
  import opened Universe
  import opened Detectors
  import opened Cycle

  class Screening {
    var volList: seq<string>
    var pumpDict: map<string, real>
    var gcList: seq<string>
    var dcList: seq<string>
    /** Every signal document inserted so far, oldest first, across the
        "pumping", "cross" and "vol" collections. */
    var log: seq<Signal>

    /** The four stores as one value. */
    function State(): (s: Store)
      reads this
      ensures s.pumpDict == pumpDict && s.gcList == gcList && s.dcList == dcList && s.volList == volList
    {
      Store(pumpDict, gcList, dcList, volList)
    }

    constructor()
      ensures State() == Cleared && log == []
    {
      volList := [];
      pumpDict := map[];
      gcList := [];
      dcList := [];
      log := [];
    }

    /** `findPumpingSignal(mkt)`. The market an answer is about is `mkt`
        itself, so `code` is `mkt`. */
    method FindPumpingSignal(ex: Exchange, mkt: string) returns (err: Option<Error>)
      modifies this
      ensures var o := PumpCall(old(State()), ex, mkt);
        State() == o.store && log == old(log) + o.emitted && err == o.error
    {
      match ex.minutes30(mkt)
      case Failed =>
        return Some(FetchError);
      case Fetched(temp) =>
        if VolumeSurge(temp) {
          if BreaksRecentHigh(temp) {
            if NearCandleHigh(temp) {
              var code := mkt;
              var price := temp[0].close;
              if code !in pumpDict {
                pumpDict := pumpDict[code := price];
                log := log + [Signal(code, NewPumping)];
              } else {
                if pumpDict[code] >= price {
                  pumpDict := pumpDict[code := price];
                  return None;
                } else {
                  pumpDict := pumpDict[code := price];
                  log := log + [Signal(code, Pumping)];
                }
              }
            }
          }
        }
        return None;
    }

    /** `findCrossSignal(mkt)`: the golden branch, then the dead branch, as
        in the program; `remove` of a market absent from the list raises. */
    method FindCrossSignal(ex: Exchange, mkt: string) returns (err: Option<Error>)
      modifies this
      ensures var o := CrossCall(old(State()), ex, mkt);
        State() == o.store && log == old(log) + o.emitted && err == o.error
    {
      match ex.minutes240(mkt)
      case Failed =>
        return Some(FetchError);
      case Fetched(raw) =>
        var price := Closes(Chronological(raw));
        CrossExclusive(price);
        if GoldenCrossAt(price) {
          var code := mkt;
          if code in dcList {
            var removed := RemoveFirst(gcList, code);
            if removed.Err? {
              return Some(removed.error);
            }
            gcList := removed.value;
          }
          if code in gcList {
            return None;
          }
          gcList := gcList + [code];
          log := log + [Signal(code, GoldenCross)];
        }
        if DeadCrossAt(price) {
          var code := mkt;
          if code in gcList {
            var removed := RemoveFirst(dcList, code);
            if removed.Err? {
              return Some(removed.error);
            }
            dcList := removed.value;
          }
          if code in dcList {
            return None;
          }
          dcList := dcList + [code];
          log := log + [Signal(code, DeadCross)];
        }
        return None;
    }

    /** `findVolSignal(mkt)`, with its scan of `volList` for the market. */
    method FindVolSignal(ex: Exchange, mkt: string) returns (err: Option<Error>)
      modifies this
      ensures var o := VolCall(old(State()), ex, mkt);
        State() == o.store && log == old(log) + o.emitted && err == o.error
    {
      match ex.days(mkt)
      case Failed =>
        return Some(FetchError);
      case Fetched(raw) =>
        var temp := Chronological(raw);
        var target := temp[0].high - temp[0].low;
        if temp[1].close - temp[1].open > target * 0.5 {
          var code := mkt;
          var i := 0;
          while i < |volList|
            invariant 0 <= i <= |volList|
            invariant code !in volList[..i]
          {
            if volList[i] == code {
              return None;
            }
            i := i + 1;
          }
          assert volList[..i] == volList;
          volList := volList + [code];
          log := log + [Signal(code, Vol)];
        }
        return None;
    }

    /** The body of the `for` loop of `findSignal`: the three detectors on
        one market, the first exception ending the pass. */
    method ScreenMarket(ex: Exchange, mkt: string) returns (err: Option<Error>)
      modifies this
      ensures var o := MarketStep(old(State()), ex, mkt);
        State() == o.store && log == old(log) + o.emitted && err == o.error
    {
      ghost var log0 := log;
      err := FindPumpingSignal(ex, mkt);
      if err.Some? {
        return;
      }
      ghost var log1 := log;
      err := FindCrossSignal(ex, mkt);
      if err.Some? {
        AppendAssoc(log0, log1[|log0|..], log[|log1|..]);
        return;
      }
      ghost var log2 := log;
      err := FindVolSignal(ex, mkt);
      AppendAssoc(log0, log1[|log0|..], log2[|log1|..]);
      AppendAssoc(log0, log1[|log0|..] + log2[|log1|..], log[|log2|..]);
    }

    /** `findSignal()`: fetch and filter the universe, then run the three
        detectors market by market; the first exception ends the cycle and
        is swallowed, and whatever was changed or inserted before it stays. */
    method FindSignal(ex: Exchange, today: Clock)
      modifies this
      ensures var o := CycleOutcome(old(State()), ex, today);
        State() == o.store && log == old(log) + o.emitted
    {
      match ex.marketAll
      case Failed =>
        return;
      case Fetched(all) =>
        match ex.ticker(KrwMarkets(all))
        case Failed =>
          return;
        case Fetched(tickers) =>
          var targets := Markets(TargetCoin(tickers, today));
          ghost var s0 := State();
          ghost var log0 := log;
          ghost var done: seq<Signal> := [];
          var i := 0;
          while i < |targets|
            invariant 0 <= i <= |targets|
            invariant log == log0 + done
            invariant RunMarkets(Screen(ex), s0, targets) ==
              Then(Outcome(State(), done, None), RunMarkets(Screen(ex), State(), targets[i..]))
          {
            ghost var si := State();
            assert targets[i..][0] == targets[i] && targets[i..][1..] == targets[i + 1..];
            var err := ScreenMarket(ex, targets[i]);
            ghost var m := MarketStep(si, ex, targets[i]);
            AppendAssoc(log0, done, m.emitted);
            if err.Some? {
              return;
            }
            AppendAssoc(done, m.emitted, RunMarkets(Screen(ex), State(), targets[i + 1..]).emitted);
            done := done + m.emitted;
            i := i + 1;
          }
          assert done + [] == done;
    }
  }
}
