/**
 * The two-flip rule that decides one wager's entry for a new day
 * (src/App.jsx, lines 504-520 and 579-590), and the simpler fill used when a
 * stored day is reconciled on load (lines 356-367).
 */
module Resolution {
  import opened Options
  import opened Outcomes
  import opened Wagers
  import opened Ledger

  /**
   * The two coin flips for one wager: `flip1` heads makes the entry
   * Unconstrained; otherwise `flip2` heads picks rule `last` and tails
   * picks `lastC`.
   */
  datatype Coin = Coin(flip1: bool, flip2: bool)

  function RuleOf(coin: Coin): InvType {
    if coin.flip2 then Last else LastC
  }

  /**
   * The normalised outcome of the reference entry for rule `kind`, if there
   * is a reference: the entry of the latest day that qualifies.
   */
  function RefOutcome(l: seq<Day>, code: string, kind: InvType): (r: Option<string>)
    ensures (forall i :: 0 <= i < |l| ==> !Qualifies(l[i], code, kind)) ==> r.None?
    ensures forall i :: 0 <= i < |l| && Qualifies(l[i], code, kind) && (forall j :: i < j < |l| ==> !Qualifies(l[j], code, kind)) ==>
      r == NormalizeOpt(l[i].entries[code].outcome)
  {
    LastRefIsLatest(l, code, kind, |l|);
    match LastRef(l, code, kind, |l|)
    case None => None
    case Some(e) => NormalizeOpt(e.outcome)
  }

  /**
   * One wager's entry for a new day: Unconstrained with no outcome, or
   * Constrained with the inverse of the reference outcome, falling back to
   * the category default when there is no reference or its outcome is empty.
   */
  function ResolveEntry(l: seq<Day>, code: string, category: Category, coin: Coin): (e: Entry)
    ensures WellFormedEntry(e)
    ensures e.mode == U <==> coin.flip1
    ensures e.mode == U ==> e.outcome.None?
    ensures e.mode == C ==> e.inv == Some(RuleOf(coin))
  {
    if coin.flip1 then Entry(U, None, None)
    else
      var kind := RuleOf(coin);
      var ref := RefOutcome(l, code, kind);
      var outcome := if Holds(ref) then InvertOutcome(ref.value) else CategoryDefault(category);
      Entry(C, Some(outcome), Some(kind))
  }

  /**
   * A Constrained entry inverts the latest qualifying entry found scanning
   * back through the whole ledger (any mode for `last`, Constrained only for
   * `lastC`); with no such entry, or one whose outcome is empty, it takes the
   * category default.
   */
  lemma ConstrainedInvertsLatestReference(l: seq<Day>, code: string, category: Category, coin: Coin)
    requires !coin.flip1
    ensures var kind := RuleOf(coin);
      (forall i :: 0 <= i < |l| ==> !Qualifies(l[i], code, kind)) ==>
        ResolveEntry(l, code, category, coin).outcome == Some(CategoryDefault(category))
    ensures var kind := RuleOf(coin);
      forall i :: 0 <= i < |l| && Qualifies(l[i], code, kind) && (forall j :: i < j < |l| ==> !Qualifies(l[j], code, kind)) ==>
        var ref := NormalizeOpt(l[i].entries[code].outcome);
        ResolveEntry(l, code, category, coin).outcome ==
          Some(if Holds(ref) then InvertOutcome(ref.value) else CategoryDefault(category))
  {
    LastRefIsLatest(l, code, RuleOf(coin), |l|);
  }

  /**
   * The entry synthesised on load for an active wager missing from the
   * stored day: Unconstrained, or Constrained with the category default and
   * rule `last`. The second flip and the ledger history are not consulted.
   */
  function FillOnLoad(category: Category, flip1: bool): (e: Entry)
    ensures WellFormedEntry(e)
    ensures e.mode == U <==> flip1
    ensures e.mode == C ==> e.outcome == Some(CategoryDefault(category))
  {
    if flip1 then Entry(U, None, None)
    else Entry(C, Some(CategoryDefault(category)), Some(Last))
  }

  /** Without history for the code, the load fill agrees with the two-flip rule taking `last`. */
  lemma FillOnLoadAgreesWithoutHistory(l: seq<Day>, code: string, category: Category, flip1: bool)
    requires forall i :: 0 <= i < |l| ==> code !in l[i].entries
    ensures FillOnLoad(category, flip1) == ResolveEntry(l, code, category, Coin(flip1, true))
  {
    LastRefIsLatest(l, code, Last, |l|);
  }

  /** With history, the load fill can differ from the two-flip rule: a wager whose last entry was `+`. */
  lemma FillOnLoadIgnoresHistory()
    ensures var l := [Day(1, map["W" := Entry(U, Some(PLUS), None)])];
      && FillOnLoad(Habit, false).outcome == Some(PLUS)
      && ResolveEntry(l, "W", Habit, Coin(false, true)).outcome == Some(MINUS)
  {
    var l := [Day(1, map["W" := Entry(U, Some(PLUS), None)])];
    assert LastRef(l, "W", Last, 1) == Some(Entry(U, Some(PLUS), None));
  }
}
