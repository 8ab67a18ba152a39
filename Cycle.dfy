/** One screening cycle (`findSignal`) as a function: fetch the universe,
    filter it, then run the pump, cross and volatility detectors market by
    market. The first exception, from the exchange or from `list.remove`,
    ends the cycle; what the cycle already changed and emitted stays. */
module Cycle {
  import opened Feed
  import opened Indicators
  import opened Universe
  import opened Detectors

  /** Where a call, a market or a cycle leaves things: the stores, the
      signals it emitted, and the exception it ended with, if any. */
  datatype Outcome = Outcome(store: Store, emitted: seq<Signal>, error: Option<Error>)

  /** `b` run after `a` (which ended normally). */
  function Then(a: Outcome, b: Outcome): Outcome {
    Outcome(b.store, a.emitted + b.emitted, b.error)
  }

  /** `findPumpingSignal(mkt)`: the 30-minute fetch, then the detector. */
  function PumpCall(s: Store, ex: Exchange, code: string): (o: Outcome)
    ensures o.error.Some? <==> ex.minutes30(code).Failed?
  {
    match ex.minutes30(code)
    case Failed => Outcome(s, [], Some(FetchError))
    case Fetched(c) =>
      var e := PumpStep(s, code, c);
      Outcome(e.store, e.emitted, None)
  }

  /** `findCrossSignal(mkt)`: the 4-hour fetch, sorting oldest first, then
      the detector on the closes. */
  function CrossCall(s: Store, ex: Exchange, code: string): (o: Outcome)
    ensures o.error.Some? ==> o.store == s && o.emitted == []
  {
    match ex.minutes240(code)
    case Failed => Outcome(s, [], Some(FetchError))
    case Fetched(raw) =>
      match CrossStep(s, code, Closes(Chronological(raw)))
      case Err(e) => Outcome(s, [], Some(e))
      case Ok(e) => Outcome(e.store, e.emitted, None)
  }

  /** `findVolSignal(mkt)`: the daily fetch, sorting oldest first, then the
      detector. */
  function VolCall(s: Store, ex: Exchange, code: string): (o: Outcome)
    ensures o.error.Some? <==> ex.days(code).Failed?
  {
    match ex.days(code)
    case Failed => Outcome(s, [], Some(FetchError))
    case Fetched(raw) =>
      var e := VolStep(s, code, Chronological(raw));
      Outcome(e.store, e.emitted, None)
  }

  /** One pass of the loop body of `findSignal`: the three detectors in
      order, stopping at the first exception. */
  function MarketStep(s: Store, ex: Exchange, code: string): Outcome
  {
    var p := PumpCall(s, ex, code);
    if p.error.Some? then p
    else
      var x := Then(p, CrossCall(p.store, ex, code));
      if x.error.Some? then x
      else Then(x, VolCall(x.store, ex, code))
  }

  /** The loop body of `findSignal` for the exchange `ex`. */
  function Screen(ex: Exchange): (Store, string) -> Outcome {
    (s, code) => MarketStep(s, ex, code)
  }

  /** The loop of `findSignal` over the target markets, `screen` being the
      loop body: markets are screened in order and the first exception
      ends the loop. */
  function RunMarkets(screen: (Store, string) -> Outcome, s: Store, codes: seq<string>): Outcome
    decreases |codes|
  {
    if codes == [] then Outcome(s, [], None)
    else
      var m := screen(s, codes[0]);
      if m.error.Some? then m
      else Then(m, RunMarkets(screen, m.store, codes[1..]))
  }

  /** `findSignal`: list the markets, keep the KRW ones, fetch their
      tickers, select the targets, and run the detectors over them. */
  function CycleOutcome(s: Store, ex: Exchange, today: Clock): Outcome {
    match ex.marketAll
    case Failed => Outcome(s, [], Some(FetchError))
    case Fetched(all) =>
      match ex.ticker(KrwMarkets(all))
      case Failed => Outcome(s, [], Some(FetchError))
      case Fetched(tickers) => RunMarkets(Screen(ex), s, Markets(TargetCoin(tickers, today)))
  }

  // ---------------------------------------------------------------------
  // Lemmas

  lemma AppendAssoc(l: seq<Signal>, a: seq<Signal>, b: seq<Signal>)
    ensures l + a + b == l + (a + b)
  {
  }

  /** Running the markets of `a + b` is running `a` and, unless that
      raised, running `b` from where `a` left the stores. */
  lemma {:induction false} RunMarketsAppend(screen: (Store, string) -> Outcome, s: Store, a: seq<string>, b: seq<string>)
    ensures RunMarkets(screen, s, a + b) ==
      var r := RunMarkets(screen, s, a);
      if r.error.Some? then r else Then(r, RunMarkets(screen, r.store, b))
    decreases |a|
  {
    if a == [] {
      assert a + b == b;
    } else {
      assert (a + b)[0] == a[0];
      assert (a + b)[1..] == a[1..] + b;
      var m := screen(s, a[0]);
      if m.error.None? {
        RunMarketsAppend(screen, m.store, a[1..], b);
      }
    }
  }

  /** An exception at market `k` ends the cycle there: markets after `k`
      are not screened, and what markets before `k` and market `k` itself
      changed and emitted stays. */
  lemma AbortStopsLaterMarkets(screen: (Store, string) -> Outcome, s: Store, codes: seq<string>, k: nat)
    requires k < |codes|
    requires RunMarkets(screen, s, codes[..k]).error.None?
    requires screen(RunMarkets(screen, s, codes[..k]).store, codes[k]).error.Some?
    ensures RunMarkets(screen, s, codes) ==
      Then(RunMarkets(screen, s, codes[..k]), screen(RunMarkets(screen, s, codes[..k]).store, codes[k]))
  {
    assert codes == codes[..k] + codes[k..];
    RunMarketsAppend(screen, s, codes[..k], codes[k..]);
    assert codes[k..][0] == codes[k];
  }

  /** A property of the stores and the log that every market screened
      keeps is kept by the whole loop, however it ends. */
  lemma {:induction false} RunMarketsKeeps(screen: (Store, string) -> Outcome, inv: (Store, seq<Signal>) -> bool,
                                           s: Store, log: seq<Signal>, codes: seq<string>)
    requires forall st, lg, code :: inv(st, lg) ==> inv(screen(st, code).store, lg + screen(st, code).emitted)
    requires inv(s, log)
    ensures inv(RunMarkets(screen, s, codes).store, log + RunMarkets(screen, s, codes).emitted)
    decreases |codes|
  {
    if codes == [] {
      assert log + [] == log;
    } else {
      var m := screen(s, codes[0]);
      if m.error.None? {
        RunMarketsKeeps(screen, inv, m.store, log + m.emitted, codes[1..]);
        var rest := RunMarkets(screen, m.store, codes[1..]);
        AppendAssoc(log, m.emitted, rest.emitted);
      }
    }
  }

  /** A cross detector that raises does not undo the pump detector's work
      on the same market. */
  lemma CrossRaiseKeepsPump(s: Store, ex: Exchange, code: string)
    requires PumpCall(s, ex, code).error.None?
    requires CrossCall(PumpCall(s, ex, code).store, ex, code).error.Some?
    ensures MarketStep(s, ex, code).store == PumpCall(s, ex, code).store
    ensures MarketStep(s, ex, code).emitted == PumpCall(s, ex, code).emitted
  {
  }

  /** A cycle whose universe cannot be fetched changes nothing. */
  lemma UniverseFailureChangesNothing(s: Store, ex: Exchange, today: Clock)
    requires ex.marketAll.Failed? || ex.ticker(KrwMarkets(ex.marketAll.value)).Failed?
    ensures CycleOutcome(s, ex, today) == Outcome(s, [], Some(FetchError))
  {
  }

  lemma PumpCallKeeps(s: Store, log: seq<Signal>, ex: Exchange, code: string)
    requires Valid(s) && Accounted(s, log)
    ensures var o := PumpCall(s, ex, code); Valid(o.store) && Accounted(o.store, log + o.emitted)
  {
    if ex.minutes30(code).Fetched? {
      PumpStepKeeps(s, log, code, ex.minutes30(code).value);
    } else {
      assert log + [] == log;
    }
  }

  lemma CrossCallKeeps(s: Store, log: seq<Signal>, ex: Exchange, code: string)
    requires Valid(s) && Accounted(s, log)
    ensures var o := CrossCall(s, ex, code); Valid(o.store) && Accounted(o.store, log + o.emitted)
  {
    if ex.minutes240(code).Fetched? && CrossStep(s, code, Closes(Chronological(ex.minutes240(code).value))).Ok? {
      CrossStepKeeps(s, log, code, Closes(Chronological(ex.minutes240(code).value)));
    } else {
      assert log + [] == log;
    }
  }

  lemma VolCallKeeps(s: Store, log: seq<Signal>, ex: Exchange, code: string)
    requires Valid(s) && Accounted(s, log)
    ensures var o := VolCall(s, ex, code); Valid(o.store) && Accounted(o.store, log + o.emitted)
  {
    if ex.days(code).Fetched? {
      VolStepKeeps(s, log, code, Chronological(ex.days(code).value));
    } else {
      assert log + [] == log;
    }
  }

  lemma MarketStepKeeps(s: Store, log: seq<Signal>, ex: Exchange, code: string)
    requires Valid(s) && Accounted(s, log)
    ensures var o := MarketStep(s, ex, code); Valid(o.store) && Accounted(o.store, log + o.emitted)
  {
    var p := PumpCall(s, ex, code);
    PumpCallKeeps(s, log, ex, code);
    if p.error.None? {
      var c := CrossCall(p.store, ex, code);
      CrossCallKeeps(p.store, log + p.emitted, ex, code);
      AppendAssoc(log, p.emitted, c.emitted);
      var x := Then(p, c);
      if x.error.None? {
        var v := VolCall(x.store, ex, code);
        VolCallKeeps(x.store, log + x.emitted, ex, code);
        AppendAssoc(log, x.emitted, v.emitted);
      }
    }
  }

  lemma PumpCallGrows(s: Store, ex: Exchange, code: string)
    requires Valid(s)
    ensures var o := PumpCall(s, ex, code); Valid(o.store) && Grows(s, o.store)
  {
    if ex.minutes30(code).Fetched? {
      PumpStepGrows(s, code, ex.minutes30(code).value);
    }
  }

  lemma CrossCallGrows(s: Store, ex: Exchange, code: string)
    requires Valid(s)
    ensures var o := CrossCall(s, ex, code); Valid(o.store) && Grows(s, o.store)
  {
    if ex.minutes240(code).Fetched? {
      CrossStepGrows(s, code, Closes(Chronological(ex.minutes240(code).value)));
    }
  }

  lemma VolCallGrows(s: Store, ex: Exchange, code: string)
    requires Valid(s)
    ensures var o := VolCall(s, ex, code); Valid(o.store) && Grows(s, o.store)
  {
    if ex.days(code).Fetched? {
      VolStepGrows(s, code, Chronological(ex.days(code).value));
    }
  }

  /** One market's pass keeps the invariants and only adds to the stores,
      whether or not it raises. */
  lemma MarketStepGrows(s: Store, ex: Exchange, code: string)
    requires Valid(s)
    ensures Valid(MarketStep(s, ex, code).store) && Grows(s, MarketStep(s, ex, code).store)
  {
    var p := PumpCall(s, ex, code);
    PumpCallGrows(s, ex, code);
    if p.error.None? {
      CrossCallGrows(p.store, ex, code);
      var x := Then(p, CrossCall(p.store, ex, code));
      if x.error.None? {
        VolCallGrows(x.store, ex, code);
      }
    }
  }

  /** A whole cycle keeps the invariants and only adds to the stores,
      however it ends: no market leaves a store except at a reset. */
  lemma CycleGrows(s: Store, ex: Exchange, today: Clock)
    requires Valid(s)
    ensures Valid(CycleOutcome(s, ex, today).store) && Grows(s, CycleOutcome(s, ex, today).store)
  {
    if ex.marketAll.Fetched? && ex.ticker(KrwMarkets(ex.marketAll.value)).Fetched? {
      var codes := Markets(TargetCoin(ex.ticker(KrwMarkets(ex.marketAll.value)).value, today));
      var inv := (st, lg: seq<Signal>) => Valid(st) && Grows(s, st);
      forall st, lg: seq<Signal>, code | inv(st, lg)
        ensures inv(Screen(ex)(st, code).store, lg + Screen(ex)(st, code).emitted)
      {
        MarketStepGrows(st, ex, code);
      }
      RunMarketsKeeps(Screen(ex), inv, s, [], codes);
    }
  }

  /** A whole cycle keeps the stores valid and the log since the last
      reset accounted for, whether it ends normally or raises. */
  lemma CycleKeeps(s: Store, log: seq<Signal>, ex: Exchange, today: Clock)
    requires Valid(s) && Accounted(s, log)
    ensures var o := CycleOutcome(s, ex, today); Valid(o.store) && Accounted(o.store, log + o.emitted)
  {
    if ex.marketAll.Fetched? && ex.ticker(KrwMarkets(ex.marketAll.value)).Fetched? {
      var codes := Markets(TargetCoin(ex.ticker(KrwMarkets(ex.marketAll.value)).value, today));
      var inv := (st, lg) => Valid(st) && Accounted(st, lg);
      forall st, lg, code | inv(st, lg)
        ensures inv(Screen(ex)(st, code).store, lg + Screen(ex)(st, code).emitted)
      {
        MarketStepKeeps(st, lg, ex, code);
      }
      RunMarketsKeeps(Screen(ex), inv, s, log, codes);
    } else {
      assert log + [] == log;
    }
  }
}
