/**
 * The odds shown for a wager's next Constrained entry and the "bright U"
 * highlight of the ledger grid (src/App.jsx, lines 205-210 and 446-487).
 */
module Odds {
  import opened Options
  import opened Outcomes
  import opened Wagers
  import opened Ledger
  import opened Resolution

  /** Chances, in percent, that the next Constrained entry is plus or minus. */
  datatype Odds = Odds(plusPct: int, minusPct: int)

  /** One rule's plus vote: the inverse of its reference outcome, or the category default without one. */
  function PlusVote(ref: Option<string>, category: Category): (v: int)
    ensures v == 0 || v == 1
    ensures v == 1 <==> (if Holds(ref) then InvertOutcome(ref.value) else CategoryDefault(category)) == PLUS
  {
    if Holds(ref) then (if InvertOutcome(ref.value) == PLUS then 1 else 0)
    else if CategoryDefault(category) == PLUS then 1 else 0
  }

  /** One rule's minus vote, computed the same way. */
  function MinusVote(ref: Option<string>, category: Category): (v: int)
    ensures v == 0 || v == 1
    ensures v + PlusVote(ref, category) == 1
  {
    if Holds(ref) then (if InvertOutcome(ref.value) == MINUS then 1 else 0)
    else if CategoryDefault(category) == MINUS then 1 else 0
  }

  /**
   * Whether getConstrainedOdds replaces the ledger's latest entry by the
   * day's Unconstrained choice: the day has a U entry for `code` and the
   * forced outcome is present and non-empty.
   */
  predicate Overridden(today: Option<Day>, code: string, forced: Option<string>) {
    today.Some? && code in today.value.entries && today.value.entries[code].mode == U && Holds(forced)
  }

  /**
   * getConstrainedOdds: each of the two rules votes for the inverse of its
   * reference (the latest entry for `last`, the latest Constrained entry for
   * `lastC`), or for the category default without one; the percentages are
   * the mean of the two votes. The halves are exact, so Math.round is the
   * identity here.
   */
  function ConstrainedOdds(l: seq<Day>, today: Option<Day>, code: string, category: Category, forced: Option<string>): (r: Odds)
    ensures r.plusPct + r.minusPct == 100
    ensures r.plusPct == 0 || r.plusPct == 50 || r.plusPct == 100
  {
    var constrainedRef := RefOutcome(l, code, LastC);
    var lastRef := if Overridden(today, code, forced) then NormalizeOpt(Some(NormalizeOutcome(forced.value))) else RefOutcome(l, code, Last);
    Odds((PlusVote(lastRef, category) + PlusVote(constrainedRef, category)) * 50,
         (MinusVote(lastRef, category) + MinusVote(constrainedRef, category)) * 50)
  }

  /** Half the chance mass for each Constrained rule whose entry would come out plus. */
  function PlusShare(e: Entry): int {
    if e.outcome == Some(PLUS) then 50 else 0
  }

  /**
   * Without an override the odds are exactly the two-flip rule averaged over
   * the second flip: each rule whose Constrained entry would be plus adds 50
   * to plusPct.
   */
  lemma OddsAverageTheTwoRules(l: seq<Day>, today: Option<Day>, code: string, category: Category, forced: Option<string>)
    requires !Overridden(today, code, forced)
    ensures ConstrainedOdds(l, today, code, category, forced).plusPct ==
      PlusShare(ResolveEntry(l, code, category, Coin(false, true))) + PlusShare(ResolveEntry(l, code, category, Coin(false, false)))
  {
  }

  /**
   * With an override the `last` rule votes for the inverse of the day's own
   * Unconstrained choice; the `lastC` rule is unaffected.
   */
  lemma OverrideVotesAgainstTheChoice(l: seq<Day>, today: Option<Day>, code: string, category: Category, forced: Option<string>)
    requires Overridden(today, code, forced)
    ensures ConstrainedOdds(l, today, code, category, forced).plusPct ==
      (if InvertOutcome(NormalizeOutcome(forced.value)) == PLUS then 50 else 0) + PlusShare(ResolveEntry(l, code, category, Coin(false, false)))
  {
    NormalizeIdempotent(forced.value);
  }

  /**
   * getRollingOddsForWager: the day's Unconstrained choice for `code`, if
   * any, is passed to getConstrainedOdds as the forced outcome.
   */
  function RollingOdds(l: seq<Day>, today: Option<Day>, code: string, category: Category): (r: Odds)
    ensures r.plusPct + r.minusPct == 100
  {
    var current := if today.Some? && code in today.value.entries then Some(today.value.entries[code]) else None;
    var forced := if current.Some? && current.value.mode == U then NormalizeOpt(current.value.outcome) else None;
    ConstrainedOdds(l, today, code, category, forced)
  }

  /**
   * While the last ledger day mirrors the day state, the override is
   * redundant: the latest ledger entry for the code already is the day's
   * choice, so the rolling odds equal the odds without a forced outcome.
   */
  lemma RollingOddsNeedNoOverride(l: seq<Day>, today: Option<Day>, code: string, category: Category)
    requires today.Some? ==> |l| > 0 && l[|l| - 1] == today.value
    ensures RollingOdds(l, today, code, category) == ConstrainedOdds(l, today, code, category, None)
  {
    if today.Some? && code in today.value.entries && today.value.entries[code].mode == U {
      var e := today.value.entries[code];
      assert LastRef(l, code, Last, |l|) == Some(e);
      if e.outcome.Some? {
        NormalizeIdempotent(e.outcome.value);
      }
    }
  }

  /** formatOddsSymbol: a dash without odds, the outcome that is certain, or "split". */
  function FormatOddsSymbol(odds: Option<Odds>): (r: string)
    ensures r == "\U{2014}" <==> odds.None?
    ensures r == PLUS <==> odds.Some? && odds.value.plusPct == 100
    ensures r == MINUS <==> odds.Some? && odds.value.plusPct != 100 && odds.value.minusPct == 100
  {
    if odds.None? then "\U{2014}"
    else if odds.value.plusPct == 100 then PLUS
    else if odds.value.minusPct == 100 then MINUS
    else "split"
  }

  /**
   * On getConstrainedOdds' results the symbol names an outcome exactly when
   * both rules agree on it, and is "split" exactly at 50/50.
   */
  lemma SymbolOfConstrainedOdds(l: seq<Day>, today: Option<Day>, code: string, category: Category, forced: Option<string>)
    ensures var o := ConstrainedOdds(l, today, code, category, forced);
      && (FormatOddsSymbol(Some(o)) == PLUS <==> o.plusPct == 100 && o.minusPct == 0)
      && (FormatOddsSymbol(Some(o)) == MINUS <==> o.plusPct == 0 && o.minusPct == 100)
      && (FormatOddsSymbol(Some(o)) == "split" <==> o.plusPct == 50 && o.minusPct == 50)
  {
  }

  /** The entry for `code` on the ledger day at `i`, if that day exists and has one (`ledger[i] ? ledger[i][code] : null`). */
  function EntryAt(l: seq<Day>, i: int, code: string): (r: Option<Entry>)
    ensures r.Some? <==> 0 <= i < |l| && code in l[i].entries
    ensures r.Some? ==> r.value == l[i].entries[code]
  {
    if 0 <= i < |l| && code in l[i].entries then Some(l[i].entries[code]) else None
  }

  /** An Unconstrained entry whose normalised outcome is `o`. */
  predicate SameU(cand: Option<Entry>, o: string) {
    cand.Some? && cand.value.mode == U && NormalizeOpt(cand.value.outcome) == Some(o)
  }

  /**
   * isBrightU: the entry at `i` is Unconstrained with an outcome, and the
   * entry on the day before or after is Unconstrained with the same
   * normalised outcome.
   */
  predicate IsBrightU(l: seq<Day>, i: int, code: string): (r: bool)
    ensures r ==> 0 <= i < |l| && (1 <= i || i + 1 < |l|)
  {
    var e := EntryAt(l, i, code);
    && e.Some? && e.value.mode == U && Holds(NormalizeOpt(e.value.outcome))
    && var o := NormalizeOutcome(e.value.outcome.value);
       SameU(EntryAt(l, i - 1, code), o) || SameU(EntryAt(l, i + 1, code), o)
  }

  /** Days `j` and `j + 1` both hold an Unconstrained entry for `code` with the same non-empty normalised outcome. */
  predicate UPair(l: seq<Day>, j: int, code: string) {
    var a := EntryAt(l, j, code);
    var b := EntryAt(l, j + 1, code);
    && a.Some? && b.Some? && a.value.mode == U && b.value.mode == U
    && Holds(NormalizeOpt(a.value.outcome)) && NormalizeOpt(a.value.outcome) == NormalizeOpt(b.value.outcome)
  }

  /** An entry is bright exactly when it belongs to a pair of adjacent days with equal Unconstrained outcomes. */
  lemma BrightUIffInPair(l: seq<Day>, i: int, code: string)
    ensures IsBrightU(l, i, code) <==> UPair(l, i - 1, code) || UPair(l, i, code)
  {
    assert (i - 1) + 1 == i;
  }

  /** Bright U entries come at least in pairs: a bright entry's matching neighbour is bright too. */
  lemma BrightUComesInPairs(l: seq<Day>, i: int, code: string)
    requires IsBrightU(l, i, code)
    ensures IsBrightU(l, i - 1, code) || IsBrightU(l, i + 1, code)
  {
    var o := NormalizeOutcome(EntryAt(l, i, code).value.outcome.value);
    NormalizeIdempotent(EntryAt(l, i, code).value.outcome.value);
    if SameU(EntryAt(l, i - 1, code), o) {
      assert (i - 1) + 1 == i;
      assert SameU(EntryAt(l, (i - 1) + 1, code), NormalizeOutcome(EntryAt(l, i - 1, code).value.outcome.value));
    } else {
      assert (i + 1) - 1 == i;
      assert SameU(EntryAt(l, (i + 1) - 1, code), NormalizeOutcome(EntryAt(l, i + 1, code).value.outcome.value));
    }
  }
}
