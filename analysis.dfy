/**
 * The per-wager analysis of the Extend tab (src/App.jsx, lines 1239-1308):
 * the days on which a wager has an outcome, its lean, its percentages, its
 * longest runs and its running lean ratio. Ratios are kept as integer
 * numerator and denominator; percentages use exact half-up rounding.
 */
module Analysis {
  import opened Options
  import opened Outcomes
  import opened Wagers
  import opened Ledger

  /** One ledger day on which a wager has a non-empty outcome, normalised. */
  datatype Observation = Observation(day: int, dayIdx: int, mode: Mode, outcome: string, inv: Option<InvType>)

  /** The wager has an entry on day `d` and its normalised outcome is non-empty. */
  predicate Observed(d: Day, code: string) {
    code in d.entries && Holds(NormalizeOpt(d.entries[code].outcome))
  }

  function ObservationOf(d: Day, i: int, code: string): (r: Observation)
    requires Observed(d, code)
    ensures r.outcome != "" && r.dayIdx == i
  {
    var e := d.entries[code];
    Observation(d.day, i, e.mode, NormalizeOutcome(e.outcome.value), e.inv)
  }

  /** The observations of `code`, in ledger order (see ObservationsSpec). */
  function Observations(l: seq<Day>, code: string): (r: seq<Observation>)
    ensures |r| <= |l|
  {
    if l == [] then []
    else
      var n := |l| - 1;
      var prev := Observations(l[..n], code);
      if Observed(l[n], code) then prev + [ObservationOf(l[n], n, code)] else prev
  }

  /** Each observation in `r` is taken from the entry of the ledger day it names, on which `code` is observed. */
  predicate FromDays(l: seq<Day>, code: string, r: seq<Observation>) {
    forall k :: 0 <= k < |r| ==> 0 <= r[k].dayIdx < |l| && Observed(l[r[k].dayIdx], code) && r[k] == ObservationOf(l[r[k].dayIdx], r[k].dayIdx, code)
  }

  /** The observations in `r` are in increasing day order. */
  predicate InDayOrder(r: seq<Observation>) {
    forall j, k :: 0 <= j < k < |r| ==> r[j].dayIdx < r[k].dayIdx
  }

  /** Every ledger day on which `code` is observed has an observation in `r`. */
  predicate CoversDays(l: seq<Day>, code: string, r: seq<Observation>) {
    forall i :: 0 <= i < |l| && Observed(l[i], code) ==> exists k :: 0 <= k < |r| && r[k].dayIdx == i
  }

  /**
   * The observations of `code` are one per ledger day on which it is
   * observed, in ledger order, taken from that day's entry, and no other.
   */
  lemma ObservationsSpec(l: seq<Day>, code: string)
    ensures FromDays(l, code, Observations(l, code))
    ensures InDayOrder(Observations(l, code))
    ensures CoversDays(l, code, Observations(l, code))
  {
    ObservationsFromDays(l, code);
    ObservationsInOrder(l, code);
    ObservationsCover(l, code);
  }

  lemma {:induction false} ObservationsFromDays(l: seq<Day>, code: string)
    ensures FromDays(l, code, Observations(l, code))
  {
    if l != [] {
      var n := |l| - 1;
      var p := l[..n];
      ObservationsFromDays(p, code);
      var prev := Observations(p, code);
      assert Observations(l, code) == if Observed(l[n], code) then prev + [ObservationOf(l[n], n, code)] else prev;
      forall k | 0 <= k < |prev| ensures l[prev[k].dayIdx] == p[prev[k].dayIdx] {
        assert 0 <= prev[k].dayIdx < |p|;
      }
    }
  }

  lemma {:induction false} ObservationsInOrder(l: seq<Day>, code: string)
    ensures InDayOrder(Observations(l, code))
    ensures forall k :: 0 <= k < |Observations(l, code)| ==> Observations(l, code)[k].dayIdx < |l|
  {
    if l != [] {
      var n := |l| - 1;
      var p := l[..n];
      ObservationsInOrder(p, code);
      var prev := Observations(p, code);
      assert Observations(l, code) == if Observed(l[n], code) then prev + [ObservationOf(l[n], n, code)] else prev;
    }
  }

  lemma {:induction false} ObservationsCover(l: seq<Day>, code: string)
    ensures CoversDays(l, code, Observations(l, code))
  {
    if l != [] {
      var n := |l| - 1;
      var p := l[..n];
      ObservationsCover(p, code);
      var prev := Observations(p, code);
      var r := Observations(l, code);
      assert r == if Observed(l[n], code) then prev + [ObservationOf(l[n], n, code)] else prev;
      forall i | 0 <= i < |l| && Observed(l[i], code) ensures exists k :: 0 <= k < |r| && r[k].dayIdx == i {
        if i < n {
          assert p[i] == l[i];
          var k :| 0 <= k < |prev| && prev[k].dayIdx == i;
          assert r[k] == prev[k];
        } else {
          assert r[|r| - 1].dayIdx == n;
        }
      }
    }
  }

  /** The forEach over the ledger that collects a wager's observations. */
  method CollectObservations(l: seq<Day>, code: string) returns (obs: seq<Observation>)
    ensures obs == Observations(l, code)
  {
    obs := [];
    var i := 0;
    while i < |l|
      invariant 0 <= i <= |l|
      invariant obs == Observations(l[..i], code)
    {
      assert l[..i + 1][..i] == l[..i];
      if code in l[i].entries && Holds(NormalizeOpt(l[i].entries[code].outcome)) {
        var e := l[i].entries[code];
        obs := obs + [Observation(l[i].day, i, e.mode, NormalizeOutcome(e.outcome.value), e.inv)];
      }
      i := i + 1;
    }
    assert l[..i] == l;
  }

  /** The entries a run is made of: Unconstrained, with outcome `o` (`want`) or another outcome (`!want`). */
  predicate InRun(e: Observation, o: string, want: bool) {
    e.mode == U && (e.outcome == o) == want
  }

  function CountInRun(obs: seq<Observation>, o: string, want: bool): (n: nat)
    ensures n <= |obs|
  {
    if obs == [] then 0
    else CountInRun(obs[..|obs| - 1], o, want) + (if InRun(obs[|obs| - 1], o, want) then 1 else 0)
  }

  function CountMode(obs: seq<Observation>, m: Mode): (n: nat)
    ensures n <= |obs|
  {
    if obs == [] then 0
    else CountMode(obs[..|obs| - 1], m) + (if obs[|obs| - 1].mode == m then 1 else 0)
  }

  function CountOutcome(obs: seq<Observation>, o: string): (n: nat)
    ensures n <= |obs|
  {
    if obs == [] then 0
    else CountOutcome(obs[..|obs| - 1], o) + (if obs[|obs| - 1].outcome == o then 1 else 0)
  }

  /** Every Unconstrained entry has outcome `o` or another one. */
  lemma {:induction false} CountInRunSplitsU(obs: seq<Observation>, o: string)
    ensures CountInRun(obs, o, true) + CountInRun(obs, o, false) == CountMode(obs, U)
  {
    if obs != [] {
      CountInRunSplitsU(obs[..|obs| - 1], o);
    }
  }

  /** Every entry is Unconstrained or Constrained. */
  lemma {:induction false} CountModeSplits(obs: seq<Observation>)
    ensures CountMode(obs, U) + CountMode(obs, C) == |obs|
  {
    if obs != [] {
      CountModeSplits(obs[..|obs| - 1]);
    }
  }

  /** Math.round(100 * a / b) for naturals, as exact half-up rounding. */
  function RoundPct(a: int, b: int): (r: int)
    requires 0 <= a && 0 < b
    ensures 2 * b * r <= 200 * a + b < 2 * b * (r + 1)
    ensures a <= b ==> 0 <= r <= 100
    ensures 2 * a >= b ==> r >= 50
  {
    var r := (200 * a + b) / (2 * b);
    RoundPctBounds(a, b, r);
    r
  }

  lemma RoundPctBounds(a: int, b: int, r: int)
    requires 0 <= a && 0 < b && r == (200 * a + b) / (2 * b)
    ensures 2 * b * r <= 200 * a + b < 2 * b * (r + 1)
    ensures a <= b ==> 0 <= r <= 100
    ensures 2 * a >= b ==> r >= 50
  {
    var q := 2 * b;
    var x := 200 * a + b;
    DivBounds(x, q);
    if a <= b && r > 100 {
      MulMonotone(q, 101, r);
    }
    if 2 * a >= b && r < 50 {
      MulMonotone(q, r, 49);
    }
    if r < 0 {
      MulMonotone(q, r, -1);
    }
  }

  lemma DivBounds(x: int, q: int)
    requires 0 <= x && 0 < q
    ensures q * (x / q) <= x < q * (x / q + 1)
  {
  }

  lemma MulMonotone(q: int, r: int, k: int)
    requires 0 < q && r <= k
    ensures q * r <= q * k
  {
    assert q * k - q * r == q * (k - r);
  }

  /** The lean: plus when at least half the Unconstrained entries are plus (ties go to plus), else minus. */
  function Lean(obs: seq<Observation>): (r: string)
    ensures IsOutcome(r)
    ensures r == PLUS <==> 2 * CountInRun(obs, PLUS, true) >= CountMode(obs, U)
  {
    var uPlus := CountInRun(obs, PLUS, true);
    var uMinus := CountMode(obs, U) - uPlus;
    if uPlus >= uMinus then PLUS else MINUS
  }

  /** The Unconstrained entries counted for the lean: the larger of the plus side and the other side. */
  function ULeanCount(obs: seq<Observation>): (r: int)
    ensures r >= CountInRun(obs, PLUS, true) && r >= CountMode(obs, U) - CountInRun(obs, PLUS, true)
    ensures r == CountInRun(obs, PLUS, true) || r == CountMode(obs, U) - CountInRun(obs, PLUS, true)
  {
    var uPlus := CountInRun(obs, PLUS, true);
    if Lean(obs) == PLUS then uPlus else CountMode(obs, U) - uPlus
  }

  /** uLeanPct: the lean's share of the Unconstrained entries, 50 when there are none. */
  function ULeanPct(obs: seq<Observation>): (r: int)
    ensures 50 <= r <= 100
    ensures CountMode(obs, U) == 0 ==> r == 50
    ensures CountMode(obs, U) > 0 ==>
      2 * CountMode(obs, U) * r <= 200 * ULeanCount(obs) + CountMode(obs, U) < 2 * CountMode(obs, U) * (r + 1)
  {
    var uTotal := CountMode(obs, U);
    CountInRunSplitsU(obs, PLUS);
    if uTotal > 0 then RoundPct(ULeanCount(obs), uTotal) else 50
  }

  /** overallPct: the share of all observed entries whose outcome is the lean. */
  function OverallPct(obs: seq<Observation>): (r: int)
    requires |obs| > 0
    ensures 0 <= r <= 100
    ensures 2 * |obs| * r <= 200 * CountOutcome(obs, Lean(obs)) + |obs| < 2 * |obs| * (r + 1)
  {
    RoundPct(CountOutcome(obs, Lean(obs)), |obs|)
  }

  /** `obs[lo..hi]` is a run: every entry in it is in the run for (`o`, `want`). */
  predicate IsRun(obs: seq<Observation>, lo: int, hi: int, o: string, want: bool) {
    0 <= lo <= hi <= |obs| && forall k :: lo <= k < hi ==> InRun(obs[k], o, want)
  }

  /** `n` is the length of the longest run: some run has that length and none is longer. */
  ghost predicate IsLongestRun(obs: seq<Observation>, o: string, want: bool, n: int) {
    && (exists lo, hi :: IsRun(obs, lo, hi, o, want) && hi - lo == n)
    && (forall lo, hi :: IsRun(obs, lo, hi, o, want) ==> hi - lo <= n)
  }

  /**
   * The longest-run loops: a Constrained entry, or an Unconstrained entry
   * outside the run, resets the current run to 0. `want` selects the lean
   * loop (true) or the other-outcome loop (false).
   */
  method LongestRun(obs: seq<Observation>, o: string, want: bool) returns (maxRun: nat)
    ensures IsLongestRun(obs, o, want, maxRun)
  {
    maxRun := 0;
    var curRun := 0;
    var i := 0;
    assert IsRun(obs, 0, 0, o, want);
    while i < |obs|
      invariant 0 <= i <= |obs|
      invariant curRun <= i && IsRun(obs, i - curRun, i, o, want)
      invariant curRun < i ==> !InRun(obs[i - curRun - 1], o, want)
      invariant curRun <= maxRun
      invariant exists lo, hi :: IsRun(obs, lo, hi, o, want) && hi - lo == maxRun
      invariant forall lo, hi :: IsRun(obs, lo, hi, o, want) && hi <= i ==> hi - lo <= maxRun
    {
      var e := obs[i];
      if e.mode != U {
        NoRunAcross(obs, i, o, want);
        curRun := 0;
      } else if (e.outcome == o) == want {
        if curRun < i {
          NoRunAcross(obs, i - curRun - 1, o, want);
        }
        curRun := curRun + 1;
        if curRun > maxRun {
          maxRun := curRun;
        }
      } else {
        NoRunAcross(obs, i, o, want);
        curRun := 0;
      }
      i := i + 1;
    }
  }

  /** An entry outside the run splits every run: none reaches across it. */
  lemma NoRunAcross(obs: seq<Observation>, i: int, o: string, want: bool)
    requires 0 <= i < |obs| && !InRun(obs[i], o, want)
    ensures forall lo, hi :: IsRun(obs, lo, hi, o, want) ==> hi <= i || i < lo
  {
  }

  /** A run is never longer than the number of entries of its kind. */
  lemma {:induction false} RunWithinCount(obs: seq<Observation>, lo: int, hi: int, o: string, want: bool)
    requires IsRun(obs, lo, hi, o, want)
    ensures hi - lo <= CountInRun(obs, o, want)
  {
    if obs != [] {
      var n := |obs| - 1;
      var p := obs[..n];
      if hi == |obs| && lo < hi {
        assert IsRun(p, lo, hi - 1, o, want) by {
          forall k | lo <= k < hi - 1 ensures InRun(p[k], o, want) {
            assert p[k] == obs[k];
          }
        }
        RunWithinCount(p, lo, hi - 1, o, want);
      } else if hi < |obs| {
        assert IsRun(p, lo, hi, o, want) by {
          forall k | lo <= k < hi ensures InRun(p[k], o, want) {
            assert p[k] == obs[k];
          }
        }
        RunWithinCount(p, lo, hi, o, want);
      }
    }
  }

  /** The longest lean run is at most the number of lean Unconstrained entries, and likewise for the other outcome. */
  lemma LongestRunWithinCount(obs: seq<Observation>, o: string, want: bool, n: int)
    requires IsLongestRun(obs, o, want, n)
    ensures 0 <= n <= CountInRun(obs, o, want)
  {
    var lo, hi :| IsRun(obs, lo, hi, o, want) && hi - lo == n;
    RunWithinCount(obs, lo, hi, o, want);
  }

  /** One point of the running lean ratio: lean entries so far over entries so far. */
  datatype Ratio = Ratio(day: int, idx: int, lean: nat, total: nat)

  /** The running lean ratio loop (`cumLean`). */
  method RunningRatio(obs: seq<Observation>, lean: string) returns (r: seq<Ratio>)
    ensures |r| == |obs|
    ensures forall i :: 0 <= i < |obs| ==> r[i] == Ratio(obs[i].day, i + 1, CountOutcome(obs[..i + 1], lean), i + 1)
  {
    r := [];
    var cumLean := 0;
    var i := 0;
    while i < |obs|
      invariant 0 <= i <= |obs|
      invariant cumLean == CountOutcome(obs[..i], lean)
      invariant |r| == i
      invariant forall k :: 0 <= k < i ==> r[k] == Ratio(obs[k].day, k + 1, CountOutcome(obs[..k + 1], lean), k + 1)
    {
      assert obs[..i + 1][..i] == obs[..i];
      if obs[i].outcome == lean {
        cumLean := cumLean + 1;
      }
      r := r + [Ratio(obs[i].day, i + 1, cumLean, i + 1)];
      i := i + 1;
    }
  }

  /** The analysis of one wager with at least one observation. */
  datatype WagerAnalysis = WagerAnalysis(
    wager: Wager, entries: seq<Observation>, lean: string, leanLabel: string, otherLabel: string,
    uTotal: nat, uLeanPct: int, overallPct: int, totalDays: nat, cDays: nat,
    maxRunLean: nat, maxRunOther: nat, running: seq<Ratio>)

  /** What the analysis of wager `w` over ledger `l` is, field by field. */
  ghost predicate AnalysisOf(w: Wager, l: seq<Day>, a: WagerAnalysis) {
    var obs := Observations(l, w.code);
    && |obs| > 0
    && a.wager == w && a.entries == obs
    && a.lean == Lean(obs)
    && a.leanLabel == (if a.lean == PLUS then w.plus else w.minus)
    && a.otherLabel == (if a.lean == PLUS then w.minus else w.plus)
    && a.uTotal == CountMode(obs, U)
    && a.uLeanPct == ULeanPct(obs)
    && a.overallPct == OverallPct(obs)
    && a.totalDays == |obs|
    && a.cDays == CountMode(obs, C)
    && IsLongestRun(obs, a.lean, true, a.maxRunLean)
    && IsLongestRun(obs, a.lean, false, a.maxRunOther)
    && |a.running| == |obs|
    && forall i :: 0 <= i < |obs| ==> a.running[i] == Ratio(obs[i].day, i + 1, CountOutcome(obs[..i + 1], a.lean), i + 1)
  }

  /**
   * One wager's analysis: nothing when it has no observation; otherwise the
   * lean, the percentages, the day counts, both longest runs and the
   * running ratio, whose last point is the overall lean share.
   */
  method AnalyzeWager(w: Wager, l: seq<Day>) returns (a: Option<WagerAnalysis>)
    ensures a.None? <==> Observations(l, w.code) == []
    ensures a.Some? ==> AnalysisOf(w, l, a.value)
    ensures a.Some? ==>
      && 50 <= a.value.uLeanPct <= 100
      && 0 <= a.value.overallPct <= 100
      && a.value.uTotal + a.value.cDays == a.value.totalDays
      && a.value.maxRunLean <= CountInRun(a.value.entries, a.value.lean, true)
      && a.value.maxRunOther <= CountInRun(a.value.entries, a.value.lean, false)
      && a.value.running[|a.value.running| - 1] == Ratio(a.value.entries[|a.value.entries| - 1].day, a.value.totalDays, CountOutcome(a.value.entries, a.value.lean), a.value.totalDays)
  {
    var obs := CollectObservations(l, w.code);
    if |obs| == 0 {
      return None;
    }
    var lean := Lean(obs);
    var maxRun := LongestRun(obs, lean, true);
    var maxRunOther := LongestRun(obs, lean, false);
    var running := RunningRatio(obs, lean);
    LongestRunWithinCount(obs, lean, true, maxRun);
    LongestRunWithinCount(obs, lean, false, maxRunOther);
    CountModeSplits(obs);
    assert obs[..|obs|] == obs;
    a := Some(WagerAnalysis(
      w, obs, lean, if lean == PLUS then w.plus else w.minus, if lean == PLUS then w.minus else w.plus,
      CountMode(obs, U), ULeanPct(obs), OverallPct(obs), |obs|, CountMode(obs, C),
      maxRun, maxRunOther, running));
  }

  /** Every analysis in `r` is the analysis of an active wager of `ws`. */
  ghost predicate AnalysesOfActive(r: seq<WagerAnalysis>, ws: seq<Wager>, l: seq<Day>) {
    forall k :: 0 <= k < |r| ==> AnalysisOf(r[k].wager, l, r[k]) && r[k].wager in ws && !r[k].wager.removed
  }

  /** Every active wager among the first `n` of `ws` that has an observation has an analysis in `r`. */
  ghost predicate CoversActive(r: seq<WagerAnalysis>, ws: seq<Wager>, l: seq<Day>, n: int) {
    forall j :: 0 <= j < n && j < |ws| && !ws[j].removed && Observations(l, ws[j].code) != [] ==>
      exists k :: 0 <= k < |r| && r[k].wager == ws[j]
  }

  lemma SkipKeepsCover(r: seq<WagerAnalysis>, ws: seq<Wager>, l: seq<Day>, i: int)
    requires 0 <= i < |ws| && CoversActive(r, ws, l, i)
    requires ws[i].removed || Observations(l, ws[i].code) == []
    ensures CoversActive(r, ws, l, i + 1)
  {
  }

  lemma AppendKeepsCover(r: seq<WagerAnalysis>, ws: seq<Wager>, l: seq<Day>, i: int, a: WagerAnalysis)
    requires 0 <= i < |ws| && !ws[i].removed
    requires AnalysesOfActive(r, ws, l) && CoversActive(r, ws, l, i)
    requires AnalysisOf(ws[i], l, a)
    ensures AnalysesOfActive(r + [a], ws, l) && CoversActive(r + [a], ws, l, i + 1)
  {
    var r' := r + [a];
    forall j | 0 <= j < i + 1 && j < |ws| && !ws[j].removed && Observations(l, ws[j].code) != []
      ensures exists k :: 0 <= k < |r'| && r'[k].wager == ws[j]
    {
      if j < i {
        var k :| 0 <= k < |r| && r[k].wager == ws[j];
        assert r'[k] == r[k];
      } else {
        assert r'[|r|].wager == ws[i];
      }
    }
  }

  /**
   * `idx` gives, strictly increasing, the registry position among the first
   * `n` records that each analysis belongs to: the analyses follow the
   * registry order, at most one per record.
   */
  ghost predicate RegistryOrder(r: seq<WagerAnalysis>, ws: seq<Wager>, idx: seq<int>, n: int) {
    && |idx| == |r|
    && (forall k :: 0 <= k < |r| ==> 0 <= idx[k] < n && idx[k] < |ws| && r[k].wager == ws[idx[k]])
    && (forall a, b :: 0 <= a < b < |idx| ==> idx[a] < idx[b])
  }

  /** Passing record `i` without an analysis keeps the order. */
  lemma SkipKeepsOrder(r: seq<WagerAnalysis>, ws: seq<Wager>, idx: seq<int>, i: int)
    requires RegistryOrder(r, ws, idx, i)
    ensures RegistryOrder(r, ws, idx, i + 1)
  {
  }

  /** An analysis of record `i`, appended after those of earlier records, keeps the order. */
  lemma AppendKeepsOrder(r: seq<WagerAnalysis>, ws: seq<Wager>, idx: seq<int>, i: int, a: WagerAnalysis)
    requires RegistryOrder(r, ws, idx, i) && 0 <= i < |ws| && a.wager == ws[i]
    ensures RegistryOrder(r + [a], ws, idx + [i], i + 1)
  {
    var r', idx' := r + [a], idx + [i];
    forall k | 0 <= k < |r'| ensures 0 <= idx'[k] < i + 1 && idx'[k] < |ws| && r'[k].wager == ws[idx'[k]] {
      if k < |r| { assert r'[k] == r[k] && idx'[k] == idx[k]; }
    }
    forall x, y | 0 <= x < y < |idx'| ensures idx'[x] < idx'[y] {
      if y < |idx| { assert idx'[x] == idx[x] && idx'[y] == idx[y]; }
      else { assert idx'[x] == idx[x]; }
    }
  }

  /** One pass of wagerAnalysis's loop: record `i` adds its analysis when it is active and has an observation. */
  method AnalyzeNext(ws: seq<Wager>, l: seq<Day>, i: int, r: seq<WagerAnalysis>, ghost idx: seq<int>) returns (r': seq<WagerAnalysis>, ghost idx': seq<int>)
    requires 0 <= i < |ws| && |r| <= i
    requires AnalysesOfActive(r, ws, l) && CoversActive(r, ws, l, i) && RegistryOrder(r, ws, idx, i)
    ensures |r'| <= i + 1
    ensures AnalysesOfActive(r', ws, l) && CoversActive(r', ws, l, i + 1) && RegistryOrder(r', ws, idx', i + 1)
  {
    r', idx' := r, idx;
    if !ws[i].removed {
      var a := AnalyzeWager(ws[i], l);
      if a.Some? {
        AppendKeepsCover(r, ws, l, i, a.value);
        AppendKeepsOrder(r, ws, idx, i, a.value);
        r', idx' := r + [a.value], idx + [i];
        return;
      }
    }
    SkipKeepsCover(r, ws, l, i);
    SkipKeepsOrder(r, ws, idx, i);
  }

  /**
   * wagerAnalysis: nothing without a ledger; otherwise the analysis of each
   * active wager that has an observation, in registry order.
   */
  method AnalyzeAll(ws: seq<Wager>, l: seq<Day>) returns (r: seq<WagerAnalysis>)
    ensures |l| == 0 ==> r == []
    ensures AnalysesOfActive(r, ws, l)
    ensures |l| > 0 ==> CoversActive(r, ws, l, |ws|)
    ensures |r| <= |ws|
    ensures exists idx :: RegistryOrder(r, ws, idx, |ws|)
  {
    r := [];
    ghost var idx: seq<int> := [];
    if |l| == 0 {
      assert RegistryOrder(r, ws, idx, |ws|);
      return;
    }
    var i := 0;
    while i < |ws|
      invariant 0 <= i <= |ws|
      invariant AnalysesOfActive(r, ws, l)
      invariant CoversActive(r, ws, l, i)
      invariant |r| <= i
      invariant RegistryOrder(r, ws, idx, i)
    {
      r, idx := AnalyzeNext(ws, l, i, r, idx);
      i := i + 1;
    }
    assert RegistryOrder(r, ws, idx, |ws|);
  }
}
