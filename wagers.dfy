/**
 * Wager records, codes and categories (src/App.jsx, lines 182-184, 319, 444,
 * 493-502): the registry's data and the pure helpers over it.
 */
module Wagers {
  import opened Outcomes

  datatype Category = Habit | Contested | PlannedNotTaken

  /** A wager record; `removed` is the soft-delete flag. */
  datatype Wager = Wager(code: string, name: string, plus: string, minus: string, category: Category, removed: bool)

  /** A wager as typed into the setup or add form, before its code is normalised. */
  datatype Draft = Draft(code: string, name: string, plus: string, minus: string, category: Category)

  /** The outcome assigned when no history can be inverted. */
  function CategoryDefault(c: Category): (r: string)
    ensures IsOutcome(r)
    ensures r == MINUS <==> c == PlannedNotTaken
  {
    if c == PlannedNotTaken then MINUS else PLUS
  }

  predicate IsCodeChar(ch: char) {
    ('A' <= ch <= 'Z') || ('0' <= ch <= '9')
  }

  /** A code as normalizeCode can produce it: one or two characters from A-Z and 0-9. */
  predicate ValidCode(c: string) {
    1 <= |c| <= 2 && forall i :: 0 <= i < |c| ==> IsCodeChar(c[i])
  }

  function UpperChar(ch: char): (r: char)
    ensures IsCodeChar(ch) ==> r == ch
    ensures 'a' <= ch <= 'z' ==> IsCodeChar(r)
  {
    if 'a' <= ch <= 'z' then (ch as int - 32) as char else ch
  }

  /** Upper-cases, then keeps only A-Z and 0-9 (the regular expression replace). */
  function CodeChars(s: string): (r: string)
    ensures |r| <= |s|
    ensures forall i :: 0 <= i < |r| ==> IsCodeChar(r[i])
  {
    if s == [] then []
    else
      var ch := UpperChar(s[0]);
      (if IsCodeChar(ch) then [ch] else []) + CodeChars(s[1..])
  }

  /** normalizeCode: upper-case, strip everything outside A-Z and 0-9, keep the first two characters. */
  function NormalizeCode(s: string): (r: string)
    ensures |r| <= 2
    ensures forall i :: 0 <= i < |r| ==> IsCodeChar(r[i])
    ensures r == "" || ValidCode(r)
  {
    var chars := CodeChars(s);
    if |chars| <= 2 then chars else chars[..2]
  }

  /** A string made only of code characters passes the filter unchanged. */
  lemma {:induction false} CodeCharsKeepsCodes(s: string)
    requires forall i :: 0 <= i < |s| ==> IsCodeChar(s[i])
    ensures CodeChars(s) == s
  {
    if s != [] {
      CodeCharsKeepsCodes(s[1..]);
    }
  }

  /** A code that is already normalised is its own normal form. */
  lemma NormalizeCodeFixesValid(c: string)
    requires c == "" || ValidCode(c)
    ensures NormalizeCode(c) == c
  {
    CodeCharsKeepsCodes(c);
  }

  /** normalizeCode is idempotent. */
  lemma NormalizeCodeIdempotent(s: string)
    ensures NormalizeCode(NormalizeCode(s)) == NormalizeCode(s)
  {
    NormalizeCodeFixesValid(NormalizeCode(s));
  }

  /** Filtering a concatenation filters each part. */
  lemma {:induction false} CodeCharsAppend(a: string, b: string)
    ensures CodeChars(a + b) == CodeChars(a) + CodeChars(b)
  {
    if a == [] {
      assert a + b == b;
    } else {
      assert (a + b)[1..] == a[1..] + b;
      CodeCharsAppend(a[1..], b);
    }
  }

  /** A character that is not a code character once upper-cased is stripped: deleting it changes nothing. */
  lemma NormalizeCodeStrips(s: string, k: int)
    requires 0 <= k < |s| && !IsCodeChar(UpperChar(s[k]))
    ensures NormalizeCode(s) == NormalizeCode(s[..k] + s[k + 1..])
  {
    var pre, post := s[..k], s[k + 1..];
    assert s == pre + ([s[k]] + post);
    CodeCharsAppend(pre, [s[k]] + post);
    CodeCharsAppend([s[k]], post);
    assert [s[k]][1..] == [];
    assert CodeChars([s[k]]) == [];
    CodeCharsAppend(pre, post);
    assert CodeChars(s) == CodeChars(pre + post);
  }

  /** Upper-casing any one character of the input first changes nothing: normalisation upper-cases every character. */
  lemma NormalizeCodeUpcases(s: string, k: int)
    requires 0 <= k < |s|
    ensures NormalizeCode(s[..k] + [UpperChar(s[k])] + s[k + 1..]) == NormalizeCode(s)
  {
    var pre, post := s[..k], s[k + 1..];
    var ch := s[k];
    assert s == pre + ([ch] + post);
    assert pre + [UpperChar(ch)] + post == pre + ([UpperChar(ch)] + post);
    CodeCharsAppend(pre, [ch] + post);
    CodeCharsAppend(pre, [UpperChar(ch)] + post);
    CodeCharsAppend([ch], post);
    CodeCharsAppend([UpperChar(ch)], post);
    assert [ch][1..] == [] && [UpperChar(ch)][1..] == [];
    assert UpperChar(UpperChar(ch)) == UpperChar(ch);
    assert CodeChars([UpperChar(ch)]) == CodeChars([ch]);
  }

  /** Once two code characters are kept, whatever follows is cut off. */
  lemma NormalizeCodeTruncates(c: string, s: string)
    requires ValidCode(c) && |c| == 2
    ensures NormalizeCode(c + s) == c
  {
    CodeCharsAppend(c, s);
    CodeCharsKeepsCodes(c);
    assert (c + CodeChars(s))[..2] == c;
  }

  /** Lower-case letters are accepted and upper-cased. */
  lemma NormalizeCodeUppercases(a: char, b: char)
    requires 'a' <= a <= 'z' && 'a' <= b <= 'z'
    ensures NormalizeCode([a, b]) == [UpperChar(a), UpperChar(b)]
  {
    assert [a, b][1..] == [b];
    assert CodeChars([b]) == [UpperChar(b)] + CodeChars([]);
    assert CodeChars([a, b]) == [UpperChar(a)] + CodeChars([b]);
  }

  /** The codes of the wagers that are not removed. */
  function ActiveCodes(ws: seq<Wager>): set<string> {
    set i | 0 <= i < |ws| && !ws[i].removed :: ws[i].code
  }

  function AllCodes(ws: seq<Wager>): set<string> {
    set i | 0 <= i < |ws| :: ws[i].code
  }

  /** The first removed record with code `c` (`findIndex`), or -1. */
  function FindRemoved(ws: seq<Wager>, c: string): (r: int)
    ensures -1 <= r < |ws|
    ensures r == -1 <==> forall i :: 0 <= i < |ws| ==> !(ws[i].code == c && ws[i].removed)
    ensures r >= 0 ==> ws[r].code == c && ws[r].removed && forall j :: 0 <= j < r ==> !(ws[j].code == c && ws[j].removed)
  {
    if ws == [] then -1
    else if ws[0].code == c && ws[0].removed then 0
    else
      var r := FindRemoved(ws[1..], c);
      assert forall i :: 1 <= i < |ws| ==> ws[i] == ws[1..][i - 1];
      if r == -1 then -1 else r + 1
  }

  /** No two wager records, removed or not, share a code. */
  predicate UniqueCodes(ws: seq<Wager>) {
    forall i, j {:trigger ws[i].code, ws[j].code} :: 0 <= i < |ws| && 0 <= j < |ws| && i != j ==> ws[i].code != ws[j].code
  }

  /** The edit form's new name, labels and category for an existing wager. */
  datatype EditDraft = EditDraft(name: string, plus: string, minus: string, category: Category)

  /** A draft the setup and add forms accept: code, name and both labels non-empty. */
  predicate Complete(d: Draft) {
    d.code != "" && d.name != "" && d.plus != "" && d.minus != ""
  }

  function AsWager(d: Draft): Wager {
    Wager(d.code, d.name, d.plus, d.minus, d.category, false)
  }

  /** A draft with its code normalised. */
  function Normalized(d: Draft): (r: Draft)
    ensures r.code == NormalizeCode(d.code)
    ensures r.name == d.name && r.plus == d.plus && r.minus == d.minus && r.category == d.category
  {
    d.(code := NormalizeCode(d.code))
  }

  /**
   * The setup drafts with normalised codes, incomplete ones dropped
   * (finishSetup's map and filter): every complete normalised draft is
   * kept, and every kept draft is a normalised input draft.
   */
  function ValidDrafts(ds: seq<Draft>): (r: seq<Draft>)
    ensures |r| <= |ds|
    ensures forall i :: 0 <= i < |r| ==> Complete(r[i]) && ValidCode(r[i].code)
    ensures forall i :: 0 <= i < |ds| && Complete(Normalized(ds[i])) ==> Normalized(ds[i]) in r
    ensures forall d :: d in r ==> exists i :: 0 <= i < |ds| && d == Normalized(ds[i])
  {
    if ds == [] then []
    else
      var d := Normalized(ds[0]);
      assert forall i :: 1 <= i < |ds| ==> ds[i] == ds[1..][i - 1];
      (if Complete(d) then [d] else []) + ValidDrafts(ds[1..])
  }

  /** The filter keeps the input order: filtering a concatenation filters each part. */
  lemma {:induction false} ValidDraftsAppend(a: seq<Draft>, b: seq<Draft>)
    ensures ValidDrafts(a + b) == ValidDrafts(a) + ValidDrafts(b)
  {
    if a == [] {
      assert a + b == b;
    } else {
      assert (a + b)[1..] == a[1..] + b;
      assert (a + b)[0] == a[0];
      ValidDraftsAppend(a[1..], b);
    }
  }

  predicate DistinctCodes(ds: seq<Draft>) {
    forall i, j :: 0 <= i < |ds| && 0 <= j < |ds| && i != j ==> ds[i].code != ds[j].code
  }

  /** The set of draft codes (`new Set(valid.map(d => d.code))`). */
  function CodeSet(ds: seq<Draft>): set<string> {
    set i | 0 <= i < |ds| :: ds[i].code
  }

  lemma CodeSetCons(ds: seq<Draft>)
    requires ds != []
    ensures CodeSet(ds) == {ds[0].code} + CodeSet(ds[1..])
  {
    var rest := ds[1..];
    forall c | c in CodeSet(ds) ensures c in {ds[0].code} + CodeSet(rest) {
      var i :| 0 <= i < |ds| && ds[i].code == c;
      if i > 0 { assert rest[i - 1].code == c; }
    }
    forall c | c in CodeSet(rest) ensures c in CodeSet(ds) {
      var i :| 0 <= i < |rest| && rest[i].code == c;
      assert ds[i + 1].code == c;
    }
  }

  /** Codes are distinct exactly when the first one is new and the rest are distinct. */
  lemma DistinctCons(ds: seq<Draft>)
    requires ds != []
    ensures DistinctCodes(ds) <==> ds[0].code !in CodeSet(ds[1..]) && DistinctCodes(ds[1..])
  {
    var rest := ds[1..];
    if DistinctCodes(ds) {
      forall i, j | 0 <= i < |rest| && 0 <= j < |rest| && i != j ensures rest[i].code != rest[j].code {
        assert rest[i] == ds[i + 1] && rest[j] == ds[j + 1];
      }
      forall i | 0 <= i < |rest| ensures rest[i].code != ds[0].code {
        assert rest[i] == ds[i + 1];
      }
    }
    if ds[0].code !in CodeSet(rest) && DistinctCodes(rest) {
      forall i, j | 0 <= i < |ds| && 0 <= j < |ds| && i != j ensures ds[i].code != ds[j].code {
        if i > 0 && j > 0 {
          assert rest[i - 1] == ds[i] && rest[j - 1] == ds[j];
        } else if i == 0 {
          assert rest[j - 1] == ds[j];
        } else {
          assert rest[i - 1] == ds[i];
        }
      }
    }
  }

  /** The size test of finishSetup rejects exactly the batches in which two drafts share a code. */
  lemma {:induction false} CodeSetSizeIffDistinct(ds: seq<Draft>)
    ensures |CodeSet(ds)| <= |ds|
    ensures |CodeSet(ds)| == |ds| <==> DistinctCodes(ds)
  {
    if ds != [] {
      var rest := ds[1..];
      CodeSetSizeIffDistinct(rest);
      CodeSetCons(ds);
      DistinctCons(ds);
      if ds[0].code in CodeSet(rest) {
        assert CodeSet(ds) == CodeSet(rest);
      } else {
        assert |CodeSet(ds)| == 1 + |CodeSet(rest)|;
      }
    }
  }
}
