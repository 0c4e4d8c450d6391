/**
 * Ledger entries and days, the backward lookups over the ledger and the
 * projection of a day state onto a ledger entry (src/App.jsx, lines 430-442
 * and 522-531).
 */
module Ledger {
  import opened Options
  import opened Outcomes
  import opened Wagers

  /** U: the user chooses the outcome; C: the procedure assigns it. */
  datatype Mode = U | C

  /** The inversion rule of a Constrained entry: `last` (any mode) or `lastC` (Constrained only). */
  datatype InvType = Last | LastC

  /**
   * One wager's record for one day. The in-progress day calls the rule
   * `invType`, the ledger calls it `inv`; both are `inv` here.
   */
  datatype Entry = Entry(mode: Mode, outcome: Option<string>, inv: Option<InvType>)

  /**
   * A day: its number and an entry per wager code. Used both for the
   * in-progress day state and for a ledger entry. Codes never clash with the
   * `day` key because they are upper-case.
   */
  datatype Day = Day(day: int, entries: map<string, Entry>)

  /** What the engine writes: a Constrained entry has a canonical outcome and its rule; an Unconstrained one has no rule and is unset or canonical. */
  predicate WellFormedEntry(e: Entry) {
    && (e.mode == C ==> e.outcome.Some? && IsOutcome(e.outcome.value) && e.inv.Some?)
    && (e.mode == U ==> e.inv.None? && (e.outcome.Some? ==> IsOutcome(e.outcome.value)))
  }

  predicate WellFormedDay(d: Day) {
    forall k :: k in d.entries ==> WellFormedEntry(d.entries[k])
  }

  /** A day's entry for `code` is a candidate reference for rule `kind`. */
  predicate Qualifies(d: Day, code: string, kind: InvType) {
    code in d.entries && (kind == LastC ==> d.entries[code].mode == C)
  }

  /**
   * The most recent entry for `code` among the first `n` days that qualifies
   * for rule `kind`, found by scanning backwards: getLastEntry for `Last`,
   * getLastC for `LastC`.
   */
  function LastRef(l: seq<Day>, code: string, kind: InvType, n: nat): (r: Option<Entry>)
    requires n <= |l|
    ensures r.Some? && kind == LastC ==> r.value.mode == C
    ensures r.Some? ==> exists i :: 0 <= i < n && code in l[i].entries && l[i].entries[code] == r.value
  {
    if n == 0 then None
    else if Qualifies(l[n - 1], code, kind) then Some(l[n - 1].entries[code])
    else LastRef(l, code, kind, n - 1)
  }

  /**
   * The backward scan finds exactly the latest qualifying day: it finds
   * nothing when no day qualifies, and otherwise the entry of the qualifying
   * day after which no other day qualifies.
   */
  lemma {:induction false} LastRefIsLatest(l: seq<Day>, code: string, kind: InvType, n: nat)
    requires n <= |l|
    ensures LastRef(l, code, kind, n).None? <==> forall i :: 0 <= i < n ==> !Qualifies(l[i], code, kind)
    ensures forall i :: 0 <= i < n && Qualifies(l[i], code, kind) && (forall j :: i < j < n ==> !Qualifies(l[j], code, kind)) ==>
      LastRef(l, code, kind, n) == Some(l[i].entries[code])
  {
    if n > 0 {
      LastRefIsLatest(l, code, kind, n - 1);
    }
  }

  /** The ledger form of a day-state entry: outcome normalised, rule kept only on Constrained entries. */
  function LedgerForm(e: Entry): (r: Entry)
    ensures r.mode == e.mode
    ensures WellFormedEntry(e) ==> r == e
  {
    Entry(e.mode, NormalizeOpt(e.outcome), if e.mode == C && e.inv.Some? then e.inv else None)
  }

  /** toLedgerEntry: the day state restricted to the active wagers, in ledger form. */
  function ToLedgerEntry(ws: seq<Wager>, t: Day): (r: Day)
    ensures r.day == t.day
    ensures r.entries.Keys == t.entries.Keys * ActiveCodes(ws)
  {
    Day(t.day, map k | k in t.entries && k in ActiveCodes(ws) :: LedgerForm(t.entries[k]))
  }

  /** A well-formed day state over active wagers only is copied into the ledger unchanged. */
  lemma ToLedgerEntryCopiesWellFormed(ws: seq<Wager>, t: Day)
    requires t.entries.Keys <= ActiveCodes(ws)
    requires WellFormedDay(t)
    ensures ToLedgerEntry(ws, t) == t
  {
    var r := ToLedgerEntry(ws, t);
    assert r.entries.Keys == t.entries.Keys;
    forall k | k in t.entries ensures r.entries[k] == t.entries[k] {
      assert WellFormedEntry(t.entries[k]);
    }
  }

  /** The per-day updates the session applies through `ledger.map`. */
  datatype DayEdit =
    | Replace(day: Day)
    | Put(code: string, entry: Entry)
    | Drop(code: string)

  function ApplyEdit(d: Day, ed: DayEdit): (r: Day)
    ensures ed.Replace? ==> r == ed.day
    ensures !ed.Replace? ==> r.day == d.day
    ensures ed.Put? ==> r.entries == d.entries[ed.code := ed.entry]
    ensures ed.Drop? ==> r.entries.Keys == d.entries.Keys - {ed.code} && forall k :: k in r.entries ==> r.entries[k] == d.entries[k]
  {
    match ed
    case Replace(day) => day
    case Put(code, e) => d.(entries := d.entries[code := e])
    case Drop(code) => d.(entries := d.entries - {code})
  }

  /** Applies `ed` to every ledger day whose number is `dayNum`, leaving the others as they are. */
  function MapDays(l: seq<Day>, dayNum: int, ed: DayEdit): (r: seq<Day>)
    ensures |r| == |l|
    ensures forall i :: 0 <= i < |l| ==> r[i] == if l[i].day == dayNum then ApplyEdit(l[i], ed) else l[i]
  {
    if l == [] then []
    else
      var last := l[|l| - 1];
      MapDays(l[..|l| - 1], dayNum, ed) + [if last.day == dayNum then ApplyEdit(last, ed) else last]
  }

  /** A ledger whose days are numbered 1, 2, 3, ... in order, each well-formed. */
  predicate LedgerOk(l: seq<Day>) {
    |l| == 0 || (LedgerOk(l[..|l| - 1]) && l[|l| - 1].day == |l| && WellFormedDay(l[|l| - 1]))
  }

  lemma {:induction false} LedgerOkAt(l: seq<Day>, i: int)
    requires LedgerOk(l) && 0 <= i < |l|
    ensures l[i].day == i + 1 && WellFormedDay(l[i])
  {
    if i < |l| - 1 {
      LedgerOkAt(l[..|l| - 1], i);
    }
  }

  /** Appending the next well-formed day keeps the ledger well-formed. */
  lemma AppendDayKeepsLedger(l: seq<Day>, d: Day)
    requires LedgerOk(l) && d.day == |l| + 1 && WellFormedDay(d)
    ensures LedgerOk(l + [d])
  {
    assert (l + [d])[..|l|] == l;
  }

  /** Replacing the last day by a well-formed day with the same number keeps the ledger well-formed. */
  lemma ReplaceLastKeepsLedger(l: seq<Day>, d: Day)
    requires LedgerOk(l) && |l| > 0 && d.day == |l| && WellFormedDay(d)
    ensures LedgerOk(l[..|l| - 1] + [d])
  {
    assert (l[..|l| - 1] + [d])[..|l| - 1] == l[..|l| - 1];
  }

  /** In a well-formed ledger, updating day `|l|` touches the last day and nothing else. */
  lemma MapDaysTouchesLast(l: seq<Day>, ed: DayEdit)
    requires LedgerOk(l) && |l| > 0
    ensures MapDays(l, |l|, ed) == l[..|l| - 1] + [ApplyEdit(l[|l| - 1], ed)]
  {
    var r := MapDays(l, |l|, ed);
    var s := l[..|l| - 1] + [ApplyEdit(l[|l| - 1], ed)];
    forall i | 0 <= i < |l| ensures r[i] == s[i] {
      LedgerOkAt(l, i);
    }
  }
}
