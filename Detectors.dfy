/** The three stateful detectors of the screening engine, as functions from
    the engine's stores and one market's candles to the new stores and the
    signals emitted. The stores are the engine's four fields: `pumpDict`
    (market -> last qualifying price), `gcList` and `dcList` (markets in
    the golden and the dead regime) and `volList` (markets that broke out
    today). */
module Detectors {
  import opened Feed
  import opened Indicators

  datatype SignalType = NewPumping | Pumping | GoldenCross | DeadCross | Vol

  /** The collections of the signal database. */
  datatype Collection = PumpingCollection | CrossCollection | VolCollection

  /** The collection a signal is inserted into. */
  function CollectionOf(t: SignalType): Collection {
    match t
    case NewPumping | Pumping => PumpingCollection
    case GoldenCross | DeadCross => CrossCollection
    case Vol => VolCollection
  }

  /** One inserted signal document, reduced to what the engine decides:
      the market code and the signal type. */
  datatype Signal = Signal(code: string, kind: SignalType)

  datatype Store = Store(pumpDict: map<string, real>, gcList: seq<string>, dcList: seq<string>, volList: seq<string>)

  /** The stores right after `__init__` and after each daily reset. */
  const Cleared: Store := Store(map[], [], [], [])

  /** The new stores and the signals emitted by one detector call. */
  datatype Effect = Effect(store: Store, emitted: seq<Signal>)

  // ---------------------------------------------------------------------
  // Pump detector

  /** `findPumpingSignal` once the 30-minute candles (newest first) are in
      hand: on a qualifying candle the stored price for the market is
      overwritten with the current price; a first sighting emits
      "new pumping", a price above the stored one emits "pumping". */
  function PumpStep(s: Store, code: string, c: seq<Candle>): (e: Effect)
    requires |c| == 5
    ensures e.store.gcList == s.gcList && e.store.dcList == s.dcList && e.store.volList == s.volList
    ensures e.store.pumpDict.Keys == s.pumpDict.Keys + (if PumpQualifies(c) then {code} else {})
  {
    if !PumpQualifies(c) then Effect(s, [])
    else
      var price := c[0].close;
      var updated := s.(pumpDict := s.pumpDict[code := price]);
      if code !in s.pumpDict then Effect(updated, [Signal(code, NewPumping)])
      else if s.pumpDict[code] >= price then Effect(updated, [])
      else Effect(updated, [Signal(code, Pumping)])
  }

  // ---------------------------------------------------------------------
  // Cross detector

  /** Python's `list.remove(x)`: the list without its first `x`, or a
      `ValueError` when `x` is absent. */
  function RemoveFirst(xs: seq<string>, x: string): (r: Result<seq<string>>)
    ensures r.Ok? <==> x in xs
    ensures r.Err? ==> r.error == ValueError
    ensures r.Ok? ==> multiset(r.value) + multiset{x} == multiset(xs)
  {
    if xs == [] then Err(ValueError)
    else if xs[0] == x then
      assert xs == [x] + xs[1..];
      Ok(xs[1..])
    else
      match RemoveFirst(xs[1..], x)
      case Err(e) => Err(e)
      case Ok(rest) =>
        assert xs == [xs[0]] + xs[1..];
        Ok([xs[0]] + rest)
  }

  /** Python's `list.index(x)`: the position of the first `x`. */
  function FirstIndex(xs: seq<string>, x: string): (k: nat)
    requires x in xs
    ensures k < |xs| && xs[k] == x && x !in xs[..k]
  {
    if xs[0] == x then 0
    else
      var k := FirstIndex(xs[1..], x);
      assert xs[..k + 1] == [xs[0]] + xs[1..][..k];
      k + 1
  }

  lemma DropShift(xs: seq<string>, k: nat)
    requires k + 1 < |xs|
    ensures [xs[0]] + (xs[1..][..k] + xs[1..][k + 1..]) == xs[..k + 1] + xs[k + 2..]
  {
    assert xs[..k + 1] == [xs[0]] + xs[1..][..k];
    assert xs[k + 2..] == xs[1..][k + 1..];
  }

  /** The copy `remove` takes out is the first one, and the elements
      around it keep their order. */
  lemma {:induction false} RemoveFirstSplits(xs: seq<string>, x: string)
    requires x in xs
    ensures RemoveFirst(xs, x) == Ok(xs[..FirstIndex(xs, x)] + xs[FirstIndex(xs, x) + 1..])
  {
    if xs[0] == x {
      assert FirstIndex(xs, x) == 0;
      assert xs[..0] + xs[1..] == xs[1..];
    } else {
      var tail := xs[1..];
      var k := FirstIndex(tail, x);
      assert FirstIndex(xs, x) == k + 1;
      RemoveFirstSplits(tail, x);
      assert RemoveFirst(xs, x) == Ok([xs[0]] + (tail[..k] + tail[k + 1..]));
      DropShift(xs, k);
    }
  }

  /** `findCrossSignal` once the 21 four-hour closes (oldest first) are in
      hand. The golden branch, as written: when the market is in `dcList`
      it is removed from `gcList` (raising when it is not there); a market
      still in `gcList` stops the call silently; otherwise it joins
      `gcList` and "goldencross" is emitted. The dead branch mirrors it.
      The two branches are tried one after the other in the source; they
      are written as alternatives here because their conditions exclude
      each other (`Indicators.CrossExclusive`). */
  function CrossStep(s: Store, code: string, p: seq<real>): (r: Result<Effect>)
    requires |p| == 21
    ensures r.Ok? ==> r.value.store.pumpDict == s.pumpDict && r.value.store.volList == s.volList
  {
    if GoldenCrossAt(p) then
      var removed := if code in s.dcList then RemoveFirst(s.gcList, code) else Ok(s.gcList);
      match removed
      case Err(e) => Err(e)
      case Ok(gc) =>
        if code in gc then Ok(Effect(s.(gcList := gc), []))
        else Ok(Effect(s.(gcList := gc + [code]), [Signal(code, GoldenCross)]))
    else if DeadCrossAt(p) then
      var removed := if code in s.gcList then RemoveFirst(s.dcList, code) else Ok(s.dcList);
      match removed
      case Err(e) => Err(e)
      case Ok(dc) =>
        if code in dc then Ok(Effect(s.(dcList := dc), []))
        else Ok(Effect(s.(dcList := dc + [code]), [Signal(code, DeadCross)]))
    else
      Ok(Effect(s, []))
  }

  // ---------------------------------------------------------------------
  // Volatility-breakout detector

  /** `findVolSignal` once the two daily candles (oldest first) are in
      hand: a breakout by a market not yet in `volList` adds it and emits
      "vol"; anything else changes nothing. */
  function VolStep(s: Store, code: string, d: seq<Candle>): (e: Effect)
    requires |d| == 2
    ensures e.store.pumpDict == s.pumpDict && e.store.gcList == s.gcList && e.store.dcList == s.dcList
  {
    if VolBreakout(d[0], d[1]) && code !in s.volList then
      Effect(s.(volList := s.volList + [code]), [Signal(code, Vol)])
    else
      Effect(s, [])
  }

  // ---------------------------------------------------------------------
  // Store invariants

  predicate NoDup(xs: seq<string>) {
    forall i, j :: 0 <= i < j < |xs| ==> xs[i] != xs[j]
  }

  /** No market is in both regimes and neither regime list repeats a market. */
  predicate CrossValid(s: Store) {
    NoDup(s.gcList) && NoDup(s.dcList) && forall c :: c in s.gcList ==> c !in s.dcList
  }

  predicate Valid(s: Store) {
    CrossValid(s) && NoDup(s.volList)
  }

  /** How many signals of one collection the log holds for one market. */
  function Emissions(log: seq<Signal>, code: string, col: Collection): nat {
    if log == [] then 0
    else (if log[0].code == code && CollectionOf(log[0].kind) == col then 1 else 0) + Emissions(log[1..], code, col)
  }

  /** The log since the last reset agrees with the stores: a market has one
      cross signal exactly when it sits in a regime list, and one "vol"
      signal exactly when it sits in `volList`. */
  ghost predicate Accounted(s: Store, log: seq<Signal>) {
    && (forall c :: Emissions(log, c, CrossCollection) == (if c in s.gcList || c in s.dcList then 1 else 0))
    && (forall c :: Emissions(log, c, VolCollection) == (if c in s.volList then 1 else 0))
  }

  // ---------------------------------------------------------------------
  // Pump lemmas

  /** A candle that fails any of the three conditions changes nothing. */
  lemma PumpIgnoresUnqualified(s: Store, code: string, c: seq<Candle>)
    requires |c| == 5
    requires !VolumeSurge(c) || !BreaksRecentHigh(c) || !NearCandleHigh(c)
    ensures PumpStep(s, code, c) == Effect(s, [])
  {
  }

  /** On a qualifying candle the stored price always becomes the current
      price, and the signal emitted depends only on the old stored price:
      "new pumping" when there is none, "pumping" when the price rose above
      it, nothing when the price is equal or lower. */
  lemma PumpRatchet(s: Store, code: string, c: seq<Candle>)
    requires |c| == 5
    requires PumpQualifies(c)
    ensures PumpStep(s, code, c).store == s.(pumpDict := s.pumpDict[code := c[0].close])
    ensures PumpStep(s, code, c).emitted ==
      if code !in s.pumpDict then [Signal(code, NewPumping)]
      else if c[0].close > s.pumpDict[code] then [Signal(code, Pumping)]
      else []
  {
  }

  /** Four qualifying half-hours priced 100, 105, 103 and 107 emit
      "new pumping", "pumping", nothing, "pumping", and leave 107 stored. */
  lemma PumpRatchetExample(s: Store, code: string, c1: seq<Candle>, c2: seq<Candle>, c3: seq<Candle>, c4: seq<Candle>)
    requires code !in s.pumpDict
    requires |c1| == 5 && |c2| == 5 && |c3| == 5 && |c4| == 5
    requires PumpQualifies(c1) && PumpQualifies(c2) && PumpQualifies(c3) && PumpQualifies(c4)
    requires c1[0].close == 100.0 && c2[0].close == 105.0 && c3[0].close == 103.0 && c4[0].close == 107.0
    ensures var e1 := PumpStep(s, code, c1);
            var e2 := PumpStep(e1.store, code, c2);
            var e3 := PumpStep(e2.store, code, c3);
            var e4 := PumpStep(e3.store, code, c4);
            && e1.emitted == [Signal(code, NewPumping)]
            && e2.emitted == [Signal(code, Pumping)]
            && e3.emitted == []
            && e4.emitted == [Signal(code, Pumping)]
            && e4.store.pumpDict[code] == 107.0
  {
  }

  // ---------------------------------------------------------------------
  // Cross lemmas

  /** Both regime lists stay free of repeats and of each other. */
  lemma CrossStepKeepsValid(s: Store, code: string, p: seq<real>)
    requires |p| == 21
    requires CrossValid(s)
    ensures CrossStep(s, code, p).Ok? ==> CrossValid(CrossStep(s, code, p).value.store)
  {
  }

  /** Under the invariant no `remove` ever succeeds: a call that returns
      only ever appends to the regime lists, and only a market absent from
      both. */
  lemma CrossStepOnlyAppends(s: Store, code: string, p: seq<real>)
    requires |p| == 21
    requires CrossValid(s)
    requires CrossStep(s, code, p).Ok?
    ensures var e := CrossStep(s, code, p).value;
      || e == Effect(s, [])
      || (code !in s.gcList && code !in s.dcList &&
          (|| e == Effect(s.(gcList := s.gcList + [code]), [Signal(code, GoldenCross)])
           || e == Effect(s.(dcList := s.dcList + [code]), [Signal(code, DeadCross)])))
  {
  }

  /** The opposite crossover for a market already in a regime reaches
      `remove` of an element that is not in the list, and raises. */
  lemma CrossOppositeRaises(s: Store, code: string, p: seq<real>)
    requires |p| == 21
    requires CrossValid(s)
    requires (GoldenCrossAt(p) && code in s.dcList) || (DeadCrossAt(p) && code in s.gcList)
    ensures CrossStep(s, code, p) == Err(ValueError)
  {
    CrossExclusive(p);
    if GoldenCrossAt(p) {
      assert code !in s.gcList;
    } else {
      assert code !in s.dcList;
    }
  }

  /** A crossover for a market in neither regime list puts it into the
      list of that regime and emits that regime's signal. */
  lemma CrossFreshEmits(s: Store, code: string, p: seq<real>)
    requires |p| == 21
    requires code !in s.gcList && code !in s.dcList
    ensures GoldenCrossAt(p) ==>
      CrossStep(s, code, p) == Ok(Effect(s.(gcList := s.gcList + [code]), [Signal(code, GoldenCross)]))
    ensures DeadCrossAt(p) ==>
      CrossStep(s, code, p) == Ok(Effect(s.(dcList := s.dcList + [code]), [Signal(code, DeadCross)]))
  {
    CrossExclusive(p);
  }

  /** Without a crossover the call changes nothing and emits nothing. */
  lemma CrossNoCrossoverSilent(s: Store, code: string, p: seq<real>)
    requires |p| == 21
    requires !GoldenCrossAt(p) && !DeadCrossAt(p)
    ensures CrossStep(s, code, p) == Ok(Effect(s, []))
  {
  }

  /** Under the invariant the call raises exactly on the opposite
      crossover of a market already in a regime. */
  lemma CrossErrIff(s: Store, code: string, p: seq<real>)
    requires |p| == 21
    requires CrossValid(s)
    ensures CrossStep(s, code, p).Err? <==>
      (GoldenCrossAt(p) && code in s.dcList) || (DeadCrossAt(p) && code in s.gcList)
  {
    CrossExclusive(p);
  }

  /** A repeated crossover of the regime a market is already in returns
      silently. */
  lemma CrossRepeatSilent(s: Store, code: string, p: seq<real>)
    requires |p| == 21
    requires CrossValid(s)
    requires (GoldenCrossAt(p) && code in s.gcList) || (DeadCrossAt(p) && code in s.dcList)
    ensures CrossStep(s, code, p) == Ok(Effect(s, []))
  {
    CrossExclusive(p);
  }

  // ---------------------------------------------------------------------
  // Volatility lemmas

  /** The comparison is strict: a move of exactly half the prior day's
      range signals nothing, while a market not yet in `volList` whose
      move is larger gets its signal. */
  lemma VolBoundary(s: Store, code: string, d: seq<Candle>)
    requires |d| == 2
    ensures d[1].close - d[1].open == (d[0].high - d[0].low) * 0.5 ==> VolStep(s, code, d) == Effect(s, [])
    ensures d[1].close - d[1].open > (d[0].high - d[0].low) * 0.5 && code !in s.volList ==>
      VolStep(s, code, d).emitted == [Signal(code, Vol)] && VolStep(s, code, d).store.volList == s.volList + [code]
  {
  }

  /** A signal is emitted exactly on a breakout by a market not yet in
      `volList`. */
  lemma VolEmitsIff(s: Store, code: string, d: seq<Candle>)
    requires |d| == 2
    ensures VolStep(s, code, d).emitted != [] <==> VolBreakout(d[0], d[1]) && code !in s.volList
  {
  }

  /** A move of at most half the prior range, or a fall, changes nothing. */
  lemma VolNoBreakoutSilent(s: Store, code: string, d: seq<Candle>)
    requires |d| == 2
    requires !VolBreakout(d[0], d[1])
    ensures VolStep(s, code, d) == Effect(s, [])
  {
  }

  /** Once a market is in `volList`, further calls change nothing, however
      strong the move. */
  lemma VolOnce(s: Store, code: string, d: seq<Candle>)
    requires |d| == 2
    requires code in s.volList
    ensures VolStep(s, code, d) == Effect(s, [])
  {
  }

  /** Replays the detector over a run of days for one market. */
  function VolRun(s: Store, code: string, days: seq<seq<Candle>>): (e: Effect)
    requires forall k :: 0 <= k < |days| ==> |days[k]| == 2
    decreases |days|
  {
    if days == [] then Effect(s, [])
    else
      var first := VolStep(s, code, days[0]);
      var rest := VolRun(first.store, code, days[1..]);
      Effect(rest.store, first.emitted + rest.emitted)
  }

  /** Qualifying on every one of a run of cycles, a market not yet in
      `volList` gets exactly one "vol" signal. */
  lemma {:induction false} VolRunEmitsOnce(s: Store, code: string, days: seq<seq<Candle>>)
    requires |days| > 0
    requires forall k :: 0 <= k < |days| ==> |days[k]| == 2 && VolBreakout(days[k][0], days[k][1])
    requires code !in s.volList
    ensures VolRun(s, code, days).emitted == [Signal(code, Vol)]
  {
    var first := VolStep(s, code, days[0]);
    assert code in first.store.volList;
    VolRunSilent(first.store, code, days[1..]);
  }

  lemma {:induction false} VolRunSilent(s: Store, code: string, days: seq<seq<Candle>>)
    requires forall k :: 0 <= k < |days| ==> |days[k]| == 2
    requires code in s.volList
    ensures VolRun(s, code, days) == Effect(s, [])
  {
    if days != [] {
      VolOnce(s, code, days[0]);
      VolRunSilent(s, code, days[1..]);
    }
  }

  // ---------------------------------------------------------------------
  // Growth between resets

  /** `b` extends `a`: no market left `pumpDict`, and each list only had
      markets appended. */
  predicate Grows(a: Store, b: Store) {
    && a.pumpDict.Keys <= b.pumpDict.Keys
    && a.gcList <= b.gcList && a.dcList <= b.dcList && a.volList <= b.volList
  }

  lemma PumpStepGrows(s: Store, code: string, c: seq<Candle>)
    requires |c| == 5
    requires Valid(s)
    ensures Valid(PumpStep(s, code, c).store) && Grows(s, PumpStep(s, code, c).store)
  {
  }

  /** The cross detector only ever adds to the regime lists: under the
      invariant its `remove` never succeeds. */
  lemma CrossStepGrows(s: Store, code: string, p: seq<real>)
    requires |p| == 21
    requires Valid(s)
    ensures CrossStep(s, code, p).Ok? ==>
      Valid(CrossStep(s, code, p).value.store) && Grows(s, CrossStep(s, code, p).value.store)
  {
    if CrossStep(s, code, p).Ok? {
      CrossStepKeepsValid(s, code, p);
      CrossStepOnlyAppends(s, code, p);
    }
  }

  lemma VolStepGrows(s: Store, code: string, d: seq<Candle>)
    requires |d| == 2
    requires Valid(s)
    ensures Valid(VolStep(s, code, d).store) && Grows(s, VolStep(s, code, d).store)
  {
  }

  // ---------------------------------------------------------------------
  // Emission accounting

  lemma {:induction false} EmissionsAppend(a: seq<Signal>, b: seq<Signal>, code: string, col: Collection)
    ensures Emissions(a + b, code, col) == Emissions(a, code, col) + Emissions(b, code, col)
  {
    if a == [] {
      assert a + b == b;
    } else {
      assert (a + b)[1..] == a[1..] + b;
      EmissionsAppend(a[1..], b, code, col);
    }
  }

  lemma ClearedAccounted()
    ensures Valid(Cleared) && Accounted(Cleared, [])
  {
  }

  /** The pump detector never touches the cross or vol accounting. */
  lemma PumpStepKeeps(s: Store, log: seq<Signal>, code: string, c: seq<Candle>)
    requires |c| == 5
    requires Valid(s) && Accounted(s, log)
    ensures var e := PumpStep(s, code, c); Valid(e.store) && Accounted(e.store, log + e.emitted)
  {
    var e := PumpStep(s, code, c);
    forall m, col | col != PumpingCollection
      ensures Emissions(log + e.emitted, m, col) == Emissions(log, m, col)
    {
      EmissionsAppend(log, e.emitted, m, col);
      if e.emitted != [] {
        assert e.emitted[1..] == [];
      }
    }
  }

  lemma CrossStepKeeps(s: Store, log: seq<Signal>, code: string, p: seq<real>)
    requires |p| == 21
    requires Valid(s) && Accounted(s, log)
    requires CrossStep(s, code, p).Ok?
    ensures var e := CrossStep(s, code, p).value; Valid(e.store) && Accounted(e.store, log + e.emitted)
  {
    var e := CrossStep(s, code, p).value;
    CrossStepKeepsValid(s, code, p);
    CrossStepOnlyAppends(s, code, p);
    forall m, col
      ensures Emissions(log + e.emitted, m, col) ==
        Emissions(log, m, col) + (if e.emitted != [] && m == code && col == CrossCollection then 1 else 0)
    {
      EmissionsAppend(log, e.emitted, m, col);
      if e.emitted != [] {
        assert e.emitted[1..] == [];
      }
    }
  }

  lemma VolStepKeeps(s: Store, log: seq<Signal>, code: string, d: seq<Candle>)
    requires |d| == 2
    requires Valid(s) && Accounted(s, log)
    ensures var e := VolStep(s, code, d); Valid(e.store) && Accounted(e.store, log + e.emitted)
  {
    var e := VolStep(s, code, d);
    forall m, col
      ensures Emissions(log + e.emitted, m, col) ==
        Emissions(log, m, col) + (if e.emitted != [] && m == code && col == VolCollection then 1 else 0)
    {
      EmissionsAppend(log, e.emitted, m, col);
      if e.emitted != [] {
        assert e.emitted[1..] == [];
      }
    }
  }

  /** What `Accounted` buys: between resets a market has at most one cross
      signal and at most one "vol" signal. */
  lemma AccountedAtMostOnce(s: Store, log: seq<Signal>, code: string)
    requires Accounted(s, log)
    ensures Emissions(log, code, CrossCollection) <= 1
    ensures Emissions(log, code, VolCollection) <= 1
  {
  }
}
