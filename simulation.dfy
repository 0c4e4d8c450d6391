/**
 * The Extend tab's simulation of one wager (src/App.jsx, lines 1165-1189)
 * and the longest-run figure of its summary (lines 1332-1345). Each day
 * consumes two random draws; they are passed in as `Draw` values, with the
 * bias comparison already made.
 */
module Simulation {
  import opened Options
  import opened Outcomes
  import opened Wagers
  import opened Ledger
  import opened Resolution

  /**
   * One simulated day's draws: the mode draw (Unconstrained when true), then
   * either the bias draw (plus when true) or flip 2 (rule `last` when true).
   */
  datatype Draw = Draw(unconstrained: bool, second: bool)

  /** One simulated day; `plusSoFar` over `day` is its cumulative plus ratio. */
  datatype SimEntry = SimEntry(day: int, mode: Mode, outcome: string, invType: Option<InvType>, plusSoFar: nat)

  /** `lastE`: the outcome of the latest simulated day. */
  function LastE(es: seq<SimEntry>): Option<string> {
    if es == [] then None else Some(es[|es| - 1].outcome)
  }

  /** `lastCE`: the outcome of the latest Constrained simulated day. */
  function LastCE(es: seq<SimEntry>): (r: Option<string>)
    ensures r.Some? ==> exists k :: 0 <= k < |es| && es[k].outcome == r.value
  {
    if es == [] then None
    else if es[|es| - 1].mode == C then Some(es[|es| - 1].outcome)
    else LastCE(es[..|es| - 1])
  }

  /** `plusCount` after the days `es`. */
  function PlusSoFar(es: seq<SimEntry>): nat {
    if es == [] then 0 else es[|es| - 1].plusSoFar
  }

  /** The number of plus outcomes among `es`. */
  function CountPlus(es: seq<SimEntry>): (n: nat)
    ensures n <= |es|
  {
    if es == [] then 0 else CountPlus(es[..|es| - 1]) + (if es[|es| - 1].outcome == PLUS then 1 else 0)
  }

  /** The day after `prev` under `dr`; a Constrained day with no reference defaults to plus, whatever the wager. */
  function SimDay(prev: seq<SimEntry>, dr: Draw): (r: SimEntry)
    ensures DayShape(dr, r, |prev|)
    ensures r.plusSoFar == PlusSoFar(prev) + (if r.outcome == PLUS then 1 else 0)
  {
    if dr.unconstrained then
      var outcome := if dr.second then PLUS else MINUS;
      SimEntry(|prev| + 1, U, outcome, None, PlusSoFar(prev) + (if outcome == PLUS then 1 else 0))
    else
      var kind := if dr.second then Last else LastC;
      var ref := if kind == Last then LastE(prev) else LastCE(prev);
      var outcome := if Holds(ref) then InvertOutcome(ref.value) else PLUS;
      SimEntry(|prev| + 1, C, outcome, Some(kind), PlusSoFar(prev) + (if outcome == PLUS then 1 else 0))
  }

  /** The simulated days for `draws`, one per draw pair. */
  function Simulated(draws: seq<Draw>): (r: seq<SimEntry>)
    ensures |r| == |draws|
  {
    if draws == [] then []
    else
      var prev := Simulated(draws[..|draws| - 1]);
      prev + [SimDay(prev, draws[|draws| - 1])]
  }

  /** One more simulated draw appends the day after the days so far. */
  lemma SimulatedSnoc(draws: seq<Draw>, d: int)
    requires 0 <= d < |draws|
    ensures Simulated(draws[..d + 1]) == Simulated(draws[..d]) + [SimDay(Simulated(draws[..d]), draws[d])]
  {
    assert draws[..d + 1][..d] == draws[..d];
  }

  /** How `lastE`, `lastCE` and `plusCount` move when a day is appended. */
  lemma TrackersSnoc(es: seq<SimEntry>, e: SimEntry)
    ensures LastE(es + [e]) == Some(e.outcome)
    ensures LastCE(es + [e]) == if e.mode == C then Some(e.outcome) else LastCE(es)
    ensures PlusSoFar(es + [e]) == e.plusSoFar
  {
    assert (es + [e])[..|es|] == es;
  }

  /** One pass of simulate's loop body: the day after `prev`, from the tracked `lastE`, `lastCE` and `plusCount`. */
  method NextDay(prev: seq<SimEntry>, dr: Draw, lastE: Option<string>, lastCE: Option<string>, plusCount: nat) returns (e: SimEntry)
    requires lastE == LastE(prev) && lastCE == LastCE(prev) && plusCount == PlusSoFar(prev)
    ensures e == SimDay(prev, dr)
  {
    var mode := if dr.unconstrained then U else C;
    var outcome: string;
    var invType: Option<InvType> := None;
    if mode == U {
      outcome := if dr.second then PLUS else MINUS;
    } else {
      invType := Some(if dr.second then Last else LastC);
      if invType == Some(Last) {
        outcome := if Holds(lastE) then InvertOutcome(lastE.value) else PLUS;
      } else {
        outcome := if Holds(lastCE) then InvertOutcome(lastCE.value) else PLUS;
      }
    }
    var count := plusCount;
    if outcome == PLUS {
      count := count + 1;
    }
    e := SimEntry(|prev| + 1, mode, outcome, invType, count);
  }

  /** simulate: the day loop with incremental `lastE`, `lastCE` and `plusCount`. */
  method Simulate(draws: seq<Draw>) returns (entries: seq<SimEntry>)
    ensures entries == Simulated(draws)
  {
    entries := [];
    var lastE: Option<string> := None;
    var lastCE: Option<string> := None;
    var plusCount := 0;
    var d := 0;
    while d < |draws|
      invariant 0 <= d <= |draws|
      invariant entries == Simulated(draws[..d])
      invariant lastE == LastE(entries) && lastCE == LastCE(entries) && plusCount == PlusSoFar(entries)
    {
      var e := NextDay(entries, draws[d], lastE, lastCE, plusCount);
      SimulatedSnoc(draws, d);
      TrackersSnoc(entries, e);
      lastE := Some(e.outcome);
      if e.mode == C {
        lastCE := Some(e.outcome);
      }
      plusCount := e.plusSoFar;
      entries := entries + [e];
      d := d + 1;
    }
    assert draws[..d] == draws;
  }

  /** What simulated day number `i + 1` is under draw `dr`: its number, its mode from the mode draw, a canonical outcome, and the rule it used. */
  predicate DayShape(dr: Draw, e: SimEntry, i: int) {
    && e.day == i + 1
    && (e.mode == U <==> dr.unconstrained)
    && IsOutcome(e.outcome)
    && (dr.unconstrained ==> e.outcome == (if dr.second then PLUS else MINUS) && e.invType.None?)
    && (!dr.unconstrained ==> e.invType == Some(if dr.second then Last else LastC))
  }

  predicate SimShape(draws: seq<Draw>, r: seq<SimEntry>) {
    |r| == |draws| && forall i :: 0 <= i < |r| ==> DayShape(draws[i], r[i], i)
  }

  lemma SimulatedShape(draws: seq<Draw>)
    ensures SimShape(draws, Simulated(draws))
  {
    var r := Simulated(draws);
    forall i | 0 <= i < |r| ensures DayShape(draws[i], r[i], i) {
      SimulatedStep(draws, i);
    }
  }

  /** The simulation of a prefix of the draws is the prefix of the simulation. */
  lemma {:induction false} SimulatedPrefix(draws: seq<Draw>, k: int)
    requires 0 <= k <= |draws|
    ensures Simulated(draws)[..k] == Simulated(draws[..k])
  {
    if k < |draws| {
      var n := |draws| - 1;
      SimulatedPrefix(draws[..n], k);
      assert draws[..n][..k] == draws[..k];
    } else {
      assert draws[..k] == draws;
    }
  }

  /** Day `i` of a simulation is the day after the simulated days before it. */
  lemma SimulatedStep(draws: seq<Draw>, i: int)
    requires 0 <= i < |draws|
    ensures Simulated(draws)[i] == SimDay(Simulated(draws)[..i], draws[i])
  {
    var r := Simulated(draws);
    SimulatedPrefix(draws, i + 1);
    SimulatedPrefix(draws, i);
    assert draws[..i + 1][..i] == draws[..i];
    assert r[i] == r[..i + 1][i];
  }

  /** Each simulated day carries the number of plus outcomes up to and including it (`cumRatio`'s numerator). */
  lemma {:induction false} SimulatedPlusCount(draws: seq<Draw>, i: int)
    requires 0 <= i < |draws|
    ensures Simulated(draws)[i].plusSoFar == CountPlus(Simulated(draws)[..i + 1])
  {
    var r := Simulated(draws);
    SimulatedStep(draws, i);
    if i > 0 {
      SimulatedPlusCount(draws, i - 1);
      assert r[..i][..i] == r[..i];
    }
    assert r[..i + 1][..i] == r[..i] && r[..i + 1][i] == r[i];
  }

  /** The code and category under which a simulated wager is compared with the engine's rule. */
  const SimCode: string := "W"

  /** A simulated day as a ledger entry. */
  function AsEntry(e: SimEntry): Entry {
    Entry(e.mode, Some(e.outcome), e.invType)
  }

  /** The simulated days as a one-wager ledger. */
  function SimLedger(es: seq<SimEntry>): (l: seq<Day>)
    ensures |l| == |es|
    ensures forall k :: 0 <= k < |es| ==> l[k] == Day(k + 1, map[SimCode := AsEntry(es[k])])
  {
    if es == [] then []
    else SimLedger(es[..|es| - 1]) + [Day(|es|, map[SimCode := AsEntry(es[|es| - 1])])]
  }

  /** The backward scan only looks at the first `n` days. */
  lemma {:induction false} LastRefSeesPrefix(l: seq<Day>, l': seq<Day>, code: string, kind: InvType, n: nat)
    requires n <= |l| && n <= |l'| && l[..n] == l'[..n]
    ensures LastRef(l, code, kind, n) == LastRef(l', code, kind, n)
  {
    if n > 0 {
      assert l[n - 1] == l[..n][n - 1] == l'[n - 1];
      assert l[..n - 1] == l[..n][..n - 1] == l'[..n - 1];
      LastRefSeesPrefix(l, l', code, kind, n - 1);
    }
  }

  /** `lastCE` is the outcome of the engine's `lastC` reference on the simulated ledger. */
  lemma {:induction false} LastCEIsLastC(es: seq<SimEntry>)
    ensures LastRef(SimLedger(es), SimCode, LastC, |es|).None? <==> LastCE(es).None?
    ensures LastRef(SimLedger(es), SimCode, LastC, |es|).Some? ==> LastRef(SimLedger(es), SimCode, LastC, |es|).value.outcome == LastCE(es)
  {
    if es != [] {
      var n := |es| - 1;
      var l := SimLedger(es);
      var p := es[..n];
      assert l[n] == Day(n + 1, map[SimCode := AsEntry(es[n])]);
      if es[n].mode != C {
        LastCEIsLastC(p);
        assert l[..n] == SimLedger(p)[..n];
        LastRefSeesPrefix(l, SimLedger(p), SimCode, LastC, n);
      }
    }
  }

  /** Every day in `es` has a canonical outcome. */
  predicate AllOutcomes(es: seq<SimEntry>) {
    forall k :: 0 <= k < |es| ==> IsOutcome(es[k].outcome)
  }

  /** The simulated days before day `i` all have canonical outcomes. */
  lemma PrefixOutcomes(draws: seq<Draw>, i: int)
    requires 0 <= i <= |draws|
    ensures AllOutcomes(Simulated(draws)[..i])
  {
    var r := Simulated(draws);
    SimulatedShape(draws);
    forall k | 0 <= k < i ensures IsOutcome(r[..i][k].outcome) {
      assert r[..i][k] == r[k] && DayShape(draws[k], r[k], k);
    }
  }

  /**
   * A simulated day follows the engine's two-flip rule for a Habit wager on
   * the ledger of the days before it: same mode, same rule, and on a
   * Constrained day the same outcome.
   */
  lemma SimDayFollowsTwoFlipRule(prev: seq<SimEntry>, dr: Draw)
    requires AllOutcomes(prev)
    ensures var e := ResolveEntry(SimLedger(prev), SimCode, Habit, Coin(dr.unconstrained, dr.second));
      && SimDay(prev, dr).mode == e.mode
      && SimDay(prev, dr).invType == e.inv
      && (!dr.unconstrained ==> e.outcome == Some(SimDay(prev, dr).outcome))
  {
    if !dr.unconstrained {
      var l := SimLedger(prev);
      if !dr.second {
        LastCEIsLastC(prev);
      }
    }
  }

  /**
   * Every day of a simulation follows the engine's two-flip rule for a
   * Habit wager on the ledger of the simulated days before it.
   */
  lemma SimulationFollowsTwoFlipRule(draws: seq<Draw>, i: int)
    requires 0 <= i < |draws|
    ensures var r := Simulated(draws);
      var e := ResolveEntry(SimLedger(r[..i]), SimCode, Habit, Coin(draws[i].unconstrained, draws[i].second));
      && r[i].mode == e.mode
      && r[i].invType == e.inv
      && (!draws[i].unconstrained ==> e.outcome == Some(r[i].outcome))
  {
    SimulatedStep(draws, i);
    PrefixOutcomes(draws, i);
    SimDayFollowsTwoFlipRule(Simulated(draws)[..i], draws[i]);
  }

  /**
   * The simulation's default is plus whatever the wager, whereas the engine
   * gives a Planned Not Taken wager minus on a Constrained day without a
   * reference.
   */
  lemma SimDefaultIgnoresCategory()
    ensures SimDay([], Draw(false, true)).outcome == PLUS
    ensures ResolveEntry(SimLedger([]), SimCode, PlannedNotTaken, Coin(false, true)).outcome == Some(MINUS)
  {
  }

  /** `es[lo..hi]` is a non-empty stretch of days with one outcome, of any modes. */
  predicate EqualRun(es: seq<SimEntry>, lo: int, hi: int) {
    0 <= lo < hi <= |es| && forall k :: lo <= k < hi ==> es[k].outcome == es[lo].outcome
  }

  ghost predicate IsLongestEqualRun(es: seq<SimEntry>, n: int) {
    && (exists lo, hi :: EqualRun(es, lo, hi) && hi - lo == n)
    && (forall lo, hi :: EqualRun(es, lo, hi) ==> hi - lo <= n)
  }

  /** Two neighbouring days with different outcomes split every equal run. */
  lemma NoEqualRunAcross(es: seq<SimEntry>, j: int)
    requires 0 < j < |es| && es[j - 1].outcome != es[j].outcome
    ensures forall lo, hi :: EqualRun(es, lo, hi) ==> hi <= j || j <= lo
  {
  }

  /**
   * The summary's longest run: days with equal outcomes in a row, whatever
   * their mode; 0 for no days.
   */
  method LongestEqualRun(es: seq<SimEntry>) returns (maxRun: nat)
    ensures |es| == 0 ==> maxRun == 0
    ensures |es| > 0 ==> IsLongestEqualRun(es, maxRun)
  {
    maxRun := 0;
    var curRun := 0;
    var prev: Option<string> := None;
    var i := 0;
    while i < |es|
      invariant 0 <= i <= |es|
      invariant i == 0 ==> curRun == 0 && prev.None? && maxRun == 0
      invariant i > 0 ==> 1 <= curRun <= i && prev == Some(es[i - 1].outcome) && EqualRun(es, i - curRun, i)
      invariant i > 0 && curRun < i ==> es[i - curRun - 1].outcome != es[i - curRun].outcome
      invariant curRun <= maxRun
      invariant i > 0 ==> exists lo, hi :: EqualRun(es, lo, hi) && hi - lo == maxRun
      invariant forall lo, hi :: EqualRun(es, lo, hi) && hi <= i ==> hi - lo <= maxRun
    {
      if Some(es[i].outcome) == prev {
        if curRun < i {
          NoEqualRunAcross(es, i - curRun);
        }
        curRun := curRun + 1;
      } else {
        if i > 0 {
          NoEqualRunAcross(es, i);
        }
        curRun := 1;
        prev := Some(es[i].outcome);
      }
      if curRun > maxRun {
        maxRun := curRun;
      }
      i := i + 1;
    }
  }

  /** The number of Constrained days among `es` (the summary's `cDays`). */
  function CountC(es: seq<SimEntry>): (n: nat)
    ensures n <= |es|
  {
    if es == [] then 0 else CountC(es[..|es| - 1]) + (if es[|es| - 1].mode == C then 1 else 0)
  }

  /** The number of draws whose mode draw chose Constrained. */
  function ConstrainedDraws(draws: seq<Draw>): (n: nat)
    ensures n <= |draws|
  {
    if draws == [] then 0 else ConstrainedDraws(draws[..|draws| - 1]) + (if draws[|draws| - 1].unconstrained then 0 else 1)
  }

  /** Counting Constrained days is counting the mode draws that chose Constrained. */
  lemma {:induction false} CountCByMode(es: seq<SimEntry>, draws: seq<Draw>)
    requires |es| == |draws|
    requires forall i :: 0 <= i < |es| ==> (es[i].mode == C <==> !draws[i].unconstrained)
    ensures CountC(es) == ConstrainedDraws(draws)
  {
    if es != [] {
      var n := |es| - 1;
      assert forall i :: 0 <= i < n ==> es[..n][i] == es[i] && draws[..n][i] == draws[i];
      CountCByMode(es[..n], draws[..n]);
    }
  }

  /** The summary's `cDays` of a simulation counts the mode draws that chose Constrained. */
  lemma SimulatedCDays(draws: seq<Draw>)
    ensures CountC(Simulated(draws)) == ConstrainedDraws(draws)
  {
    SimulatedShape(draws);
    CountCByMode(Simulated(draws), draws);
  }

  /** The summary of one simulation: the final plus count over the day count (`finalRatio`), `cDays` and `longestRun`. */
  datatype Final = Final(finalPlus: nat, finalDays: int, cDays: nat, longestRun: nat)

  /**
   * The `finals` row of one profile: the last day's cumulative ratio, the
   * number of Constrained days and the longest run of equal outcomes. The
   * page always simulates 365 days, so the last day exists.
   */
  method SimFinal(draws: seq<Draw>) returns (f: Final)
    requires |draws| > 0
    ensures f.finalDays == |draws|
    ensures f.finalPlus == CountPlus(Simulated(draws)) && f.finalPlus <= f.finalDays
    ensures f.cDays == ConstrainedDraws(draws)
    ensures IsLongestEqualRun(Simulated(draws), f.longestRun)
  {
    var es := Simulate(draws);
    var n := |es| - 1;
    SimulatedStep(draws, n);
    SimulatedPlusCount(draws, n);
    assert es[..n + 1] == es;
    SimulatedCDays(draws);
    var maxRun := LongestEqualRun(es);
    f := Final(es[n].plusSoFar, es[n].day, CountC(es), maxRun);
  }
}
