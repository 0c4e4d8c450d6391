/**
 * The two outcomes of a wager and the helpers that normalise, invert and
 * display them (src/App.jsx, lines 179-199).
 */
module Outcomes {
  import opened Options

  const PLUS: string := "+"
  const MINUS: string := "-"
  /** U+2212 MINUS SIGN, the glyph shown for the minus outcome. */
  const DISP_MINUS: string := "\U{2212}"

  /** The canonical outcomes stored by the engine. */
  predicate IsOutcome(o: string) {
    o == PLUS || o == MINUS
  }

  /** JavaScript truthiness of a stored outcome: present and not the empty string. */
  predicate Holds(o: Option<string>) {
    o.Some? && o.value != ""
  }

  /** Swaps plus and minus; anything that is not plus becomes plus. */
  function InvertOutcome(o: string): (r: string)
    ensures IsOutcome(r)
    ensures r != o
    ensures r == MINUS <==> o == PLUS
  {
    if o == PLUS then MINUS else PLUS
  }

  /** Maps the display glyph to minus and passes every other value through. */
  function NormalizeOutcome(o: string): (r: string)
    ensures r == MINUS <==> (o == MINUS || o == DISP_MINUS)
    ensures r == PLUS <==> o == PLUS
    ensures r != o ==> o == DISP_MINUS
  {
    if o == PLUS || o == MINUS then o
    else if o == DISP_MINUS then MINUS
    else o
  }

  /** normalizeOutcome applied to a possibly missing value (`null` stays `null`). */
  function NormalizeOpt(o: Option<string>): (r: Option<string>)
    ensures r.Some? <==> o.Some?
    ensures o.Some? ==> r.value == NormalizeOutcome(o.value)
  {
    match o
    case None => None
    case Some(v) => Some(NormalizeOutcome(v))
  }

  /** The symbol shown for an outcome: the minus glyph for minus, `+` for anything else. */
  function FmtOutcome(o: string): (r: string)
    ensures r == DISP_MINUS || r == PLUS
    ensures r == DISP_MINUS <==> NormalizeOutcome(o) == MINUS
  {
    if NormalizeOutcome(o) == MINUS then DISP_MINUS else PLUS
  }

  /** Inverting a canonical outcome twice gives it back. */
  lemma InvertInvolution(o: string)
    requires IsOutcome(o)
    ensures InvertOutcome(InvertOutcome(o)) == o
  {
  }

  /** Normalising twice is the same as normalising once, and canonical outcomes are fixed points. */
  lemma NormalizeIdempotent(o: string)
    ensures NormalizeOutcome(NormalizeOutcome(o)) == NormalizeOutcome(o)
    ensures IsOutcome(o) ==> NormalizeOutcome(o) == o
  {
  }

  lemma NormalizeOptIdempotent(o: Option<string>)
    ensures NormalizeOpt(NormalizeOpt(o)) == NormalizeOpt(o)
  {
    if o.Some? {
      NormalizeIdempotent(o.value);
    }
  }

  /** Displaying a canonical outcome and reading the glyph back gives the outcome again. */
  lemma FmtOutcomeRoundTrip(o: string)
    requires IsOutcome(NormalizeOutcome(o))
    ensures NormalizeOutcome(FmtOutcome(o)) == NormalizeOutcome(o)
  {
  }
}
