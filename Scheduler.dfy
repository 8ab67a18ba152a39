/** The driver of the program (`__main__`): on every pass of its loop it
    reads the clock once; a reading in 08:59:50-08:59:59 may clear the four
    stores, and a reading in the first ten seconds of a minute outside
    08:56-08:58 may run a screening cycle. The flags `dirt1` and `dirt2`,
    0 or 1, remember that the current window already had its cycle or its
    reset. The clock is read only between passes, and a cycle takes as long
    as its fetches and pauses take, so a window that passes while a cycle
    runs gets no action: the readings are an arbitrary sequence. */
module Scheduler {
  import opened Feed
  import opened Detectors
  import opened Cycle
  import opened Screening

  /** 08:59:50 to 08:59:59. */
  predicate InResetWindow(t: Clock) {
    t.hour == 8 && t.minute == 59 && 50 <= t.second <= 59
  }

  /** Seconds 0 to 9 of a minute that is not 08:56, 08:57 or 08:58. */
  predicate InScreeningWindow(t: Clock) {
    !(t.hour == 8 && 55 < t.minute < 59) && 0 <= t.second <= 9
  }

  datatype Flags = Flags(dirt1: int, dirt2: int)

  /** What one pass of the driver loop does at clock reading `t`. */
  datatype Plan = Plan(reset: bool, screen: bool, next: Flags)

  /** One pass of the `while True` loop, as decisions. */
  function Decide(t: Clock, f: Flags): (p: Plan)
    ensures p.reset ==> t.hour == 8 && t.minute == 59 && t.second >= 50
    ensures p.screen ==> t.second <= 9 && !(t.hour == 8 && 56 <= t.minute <= 58)
    ensures !(p.reset && p.screen)
    ensures (p.next.dirt2 == 0) == !InResetWindow(t)
    ensures (p.next.dirt1 == 0) == !InScreeningWindow(t)
  {
    var reset := InResetWindow(t) && f.dirt2 == 0;
    var dirt2 := if InResetWindow(t) then (if f.dirt2 == 0 then 1 else f.dirt2) else 0;
    var screen := InScreeningWindow(t) && f.dirt1 == 0;
    var dirt1 := if InScreeningWindow(t) then (if f.dirt1 == 0 then 1 else f.dirt1) else 0;
    Plan(reset, screen, Flags(dirt1, dirt2))
  }

  /** How many resets and cycles a run of clock readings triggers, and the
      flags it ends with. */
  datatype Tally = Tally(resets: nat, screens: nat, flags: Flags)

  function Count(ts: seq<Clock>, f: Flags): (r: Tally)
    ensures r.resets + r.screens <= |ts|
    decreases |ts|
  {
    if ts == [] then Tally(0, 0, f)
    else
      var p := Decide(ts[0], f);
      var rest := Count(ts[1..], p.next);
      Tally((if p.reset then 1 else 0) + rest.resets, (if p.screen then 1 else 0) + rest.screens, rest.flags)
  }

  // ---------------------------------------------------------------------
  // Window lemmas

  /** Throughout one stretch of readings inside the reset window, the
      stores are cleared exactly once when the driver arrives unarmed
      (`dirt2` = 0) and never when it arrives armed. */
  lemma {:induction false} ResetOncePerWindow(ts: seq<Clock>, f: Flags)
    requires forall k :: 0 <= k < |ts| ==> InResetWindow(ts[k])
    ensures Count(ts, f).resets == if ts != [] && f.dirt2 == 0 then 1 else 0
    decreases |ts|
  {
    if ts != [] {
      var p := Decide(ts[0], f);
      assert p.next.dirt2 != 0;
      ResetOncePerWindow(ts[1..], p.next);
    }
  }

  /** Throughout one stretch of readings inside a screening window, a cycle
      runs exactly once when the driver arrives unarmed (`dirt1` = 0) and
      never when it arrives armed. */
  lemma {:induction false} ScreenOncePerWindow(ts: seq<Clock>, f: Flags)
    requires forall k :: 0 <= k < |ts| ==> InScreeningWindow(ts[k])
    ensures Count(ts, f).screens == if ts != [] && f.dirt1 == 0 then 1 else 0
    decreases |ts|
  {
    if ts != [] {
      var p := Decide(ts[0], f);
      assert p.next.dirt1 != 0;
      ScreenOncePerWindow(ts[1..], p.next);
    }
  }

  /** A reading outside a window re-arms its flag, so the next window gets
      its action again. */
  lemma LeavingRearms(t: Clock, f: Flags)
    ensures !InResetWindow(t) ==> Decide(t, f).next.dirt2 == 0
    ensures !InScreeningWindow(t) ==> Decide(t, f).next.dirt1 == 0
  {
  }

  /** No reading from 08:56:00 to 08:58:59 starts a cycle. */
  lemma BlackoutSkipsScreening(t: Clock, f: Flags)
    requires t.hour == 8 && 56 <= t.minute <= 58
    ensures !Decide(t, f).screen
  {
  }

  /** The exclusion covers only 08:56-08:58: the first ten seconds of
      08:55 and of 08:59 still start a cycle. */
  lemma EdgeMinutesScreen(f: Flags, d: int, s: nat)
    requires f.dirt1 == 0 && s <= 9
    ensures Decide(Clock(d, 8, 55, s), f).screen
    ensures Decide(Clock(d, 8, 59, s), f).screen
  {
  }

  // ---------------------------------------------------------------------
  // The driver over the stores

  /** One reading of the loop: the clock and the exchange's answers. */
  datatype Round = Round(now: Clock, ex: Exchange)

  /** One pass of the loop over the stores: maybe a reset, then maybe a
      cycle; the flags for the next pass. The reading serves both as
      `datetime.now()` and as the `today` of `getTargetCoin`. */
  function Pass(s: Store, f: Flags, r: Round): (Outcome, Flags) {
    var p := Decide(r.now, f);
    var cleared := if p.reset then Cleared else s;
    var o := if p.screen then CycleOutcome(cleared, r.ex, r.now) else Outcome(cleared, [], None);
    (o, p.next)
  }

  datatype Drive = Drive(store: Store, emitted: seq<Signal>, flags: Flags)

  /** The loop over a finite run of readings. */
  function Run(s: Store, f: Flags, rounds: seq<Round>): Drive
    decreases |rounds|
  {
    if rounds == [] then Drive(s, [], f)
    else
      var (o, g) := Pass(s, f, rounds[0]);
      var rest := Run(o.store, g, rounds[1..]);
      Drive(rest.store, o.emitted + rest.emitted, rest.flags)
  }

  /** However many readings fall in the reset window, the stores end that
      stretch empty and nothing is emitted during it: the first reading
      clears them (or finds them already cleared) and later readings
      neither clear nor screen. */
  lemma {:induction false} ResetWindowLeavesCleared(s: Store, f: Flags, rounds: seq<Round>)
    requires rounds != []
    requires forall k :: 0 <= k < |rounds| ==> InResetWindow(rounds[k].now)
    requires f.dirt2 == 0 || s == Cleared
    ensures Run(s, f, rounds).store == Cleared
    ensures Run(s, f, rounds).emitted == []
    decreases |rounds|
  {
    var (o, g) := Pass(s, f, rounds[0]);
    assert o.store == Cleared && o.emitted == [];
    if |rounds| > 1 {
      ResetWindowLeavesCleared(o.store, g, rounds[1..]);
    }
  }

  /** Readings that never enter the reset window run only cycles, so the
      stores stay valid and the signals since the last reset stay
      accounted for. */
  lemma {:induction false} RunKeeps(s: Store, log: seq<Signal>, f: Flags, rounds: seq<Round>)
    requires forall k :: 0 <= k < |rounds| ==> !InResetWindow(rounds[k].now)
    requires Valid(s) && Accounted(s, log)
    ensures Valid(Run(s, f, rounds).store) && Accounted(Run(s, f, rounds).store, log + Run(s, f, rounds).emitted)
    decreases |rounds|
  {
    if rounds == [] {
      assert log + [] == log;
    } else {
      var (o, g) := Pass(s, f, rounds[0]);
      if Decide(rounds[0].now, f).screen {
        CycleKeeps(s, log, rounds[0].ex, rounds[0].now);
      } else {
        assert log + [] == log;
      }
      RunKeeps(o.store, log + o.emitted, g, rounds[1..]);
      AppendAssoc(log, o.emitted, Run(o.store, g, rounds[1..]).emitted);
    }
  }

  /** Whatever the readings, the stores stay valid: a reset gives empty
      stores, and a cycle keeps the invariants. */
  lemma {:induction false} RunValid(s: Store, f: Flags, rounds: seq<Round>)
    requires Valid(s)
    ensures Valid(Run(s, f, rounds).store)
    decreases |rounds|
  {
    if rounds != [] {
      var (o, g) := Pass(s, f, rounds[0]);
      var p := Decide(rounds[0].now, f);
      var cleared := if p.reset then Cleared else s;
      ClearedAccounted();
      if p.screen {
        CycleGrows(cleared, rounds[0].ex, rounds[0].now);
      }
      RunValid(o.store, g, rounds[1..]);
    }
  }

  /** Readings that never fall in 08:59:50-08:59:59 never clear the
      stores: every market stays in `pumpDict`, and each list only grows. */
  lemma {:induction false} NoResetWindowNoClear(s: Store, f: Flags, rounds: seq<Round>)
    requires forall k :: 0 <= k < |rounds| ==> !InResetWindow(rounds[k].now)
    requires Valid(s)
    ensures Grows(s, Run(s, f, rounds).store)
    decreases |rounds|
  {
    if rounds != [] {
      var (o, g) := Pass(s, f, rounds[0]);
      if Decide(rounds[0].now, f).screen {
        CycleGrows(s, rounds[0].ex, rounds[0].now);
      }
      NoResetWindowNoClear(o.store, g, rounds[1..]);
    }
  }

  /** From a reset to the next one, whatever the exchange answers and
      whichever cycles abort, each market gets at most one cross signal
      and at most one "vol" signal. */
  lemma AtMostOncePerReset(f: Flags, rounds: seq<Round>, code: string)
    requires forall k :: 0 <= k < |rounds| ==> !InResetWindow(rounds[k].now)
    ensures Emissions(Run(Cleared, f, rounds).emitted, code, CrossCollection) <= 1
    ensures Emissions(Run(Cleared, f, rounds).emitted, code, VolCollection) <= 1
  {
    ClearedAccounted();
    RunKeeps(Cleared, [], f, rounds);
    var d := Run(Cleared, f, rounds);
    assert [] + d.emitted == d.emitted;
    AccountedAtMostOnce(d.store, d.emitted, code);
  }

  // ---------------------------------------------------------------------
  // The driver over the object

  /** One pass of the `while True` loop on the engine `scr` with the flags
      `dirt1`, `dirt2`; returns the flags for the next pass. */
  method Tick(scr: Screening, now: Clock, ex: Exchange, dirt1: int, dirt2: int) returns (next1: int, next2: int)
    modifies scr
    ensures var (o, g) := Pass(old(scr.State()), Flags(dirt1, dirt2), Round(now, ex));
      scr.State() == o.store && scr.log == old(scr.log) + o.emitted && Flags(next1, next2) == g
  {
    next1, next2 := dirt1, dirt2;
    if now.hour == 8 && now.minute == 59 && 50 <= now.second <= 59 {
      if next2 == 0 {
        scr.volList := [];
        scr.pumpDict := map[];
        scr.gcList := [];
        scr.dcList := [];
        next2 := 1;
      }
    } else {
      next2 := 0;
    }
    if !(now.hour == 8 && 55 < now.minute < 59) && 0 <= now.second <= 9 {
      if next1 == 0 {
        scr.FindSignal(ex, now);
        next1 := 1;
      }
    } else {
      next1 := 0;
    }
    if !Decide(now, Flags(dirt1, dirt2)).screen {
      assert scr.log == old(scr.log) + [];
    }
  }

  /** The `__main__` block over a finite run of readings: a fresh engine,
      both flags 0, one pass per reading. */
  method Loop(rounds: seq<Round>) returns (scr: Screening)
    ensures var d := Run(Cleared, Flags(0, 0), rounds); scr.State() == d.store && scr.log == d.emitted
    ensures Valid(scr.State())
  {
    scr := new Screening();
    var dirt1, dirt2 := 0, 0;
    ghost var done: seq<Signal> := [];
    var i := 0;
    while i < |rounds|
      invariant 0 <= i <= |rounds|
      invariant scr.log == done
      invariant Run(Cleared, Flags(0, 0), rounds) ==
        var rest := Run(scr.State(), Flags(dirt1, dirt2), rounds[i..]);
        Drive(rest.store, done + rest.emitted, rest.flags)
    {
      assert rounds[i..][0] == rounds[i] && rounds[i..][1..] == rounds[i + 1..];
      ghost var before := scr.State();
      ghost var (o, g) := Pass(before, Flags(dirt1, dirt2), rounds[i]);
      dirt1, dirt2 := Tick(scr, rounds[i].now, rounds[i].ex, dirt1, dirt2);
      AppendAssoc(done, o.emitted, Run(scr.State(), Flags(dirt1, dirt2), rounds[i + 1..]).emitted);
      done := done + o.emitted;
      i := i + 1;
    }
    assert done + [] == done;
    ClearedAccounted();
    RunValid(Cleared, Flags(0, 0), rounds);
  }
}
