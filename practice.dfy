/**
 * The practice session (src/App.jsx, lines 315-668): the wager registry, the
 * ledger and the in-progress day, and the operations that replace them step
 * by step. Storage writes are not modelled; each operation's new state is
 * what it would persist.
 */
module Practice {
  import opened Options
  import opened Outcomes
  import opened Wagers
  import opened Ledger
  import opened Resolution

  /** Registry-level facts every record keeps: unique, well-formed codes and non-empty labels. */
  predicate RegistryOk(ws: seq<Wager>) {
    UniqueCodes(ws) && forall i :: 0 <= i < |ws| ==> ValidCode(ws[i].code) && ws[i].name != "" && ws[i].plus != "" && ws[i].minus != ""
  }

  /** An in-progress day has an entry for exactly the active wagers and is mirrored by the last ledger day. */
  predicate TodayOk(ws: seq<Wager>, l: seq<Day>, t: Option<Day>) {
    t.Some? ==>
      && |l| > 0 && t.value.day == |l|
      && ActiveCodes(ws) != {}
      && t.value.entries.Keys == ActiveCodes(ws)
      && l[|l| - 1] == t.value
  }

  /** What every operation keeps. */
  predicate SessionInvariant(ws: seq<Wager>, l: seq<Day>, t: Option<Day>) {
    RegistryOk(ws) && LedgerOk(l) && TodayOk(ws, l, t)
  }

  /** flipAll's guard: some wager is active, and every active wager of the current day has an outcome. */
  predicate CanAdvance(ws: seq<Wager>, t: Option<Day>): (r: bool)
    ensures r && t.Some? ==> ActiveCodes(ws) <= t.value.entries.Keys
  {
    ActiveCodes(ws) != {} && (t.None? || Filled(ws, t.value))
  }

  /** Every active wager has an entry with an outcome in day `t`. */
  predicate Filled(ws: seq<Wager>, t: Day): (r: bool)
    ensures r ==> ActiveCodes(ws) <= t.entries.Keys
    ensures r ==> forall c :: c in ActiveCodes(ws) ==> Holds(t.entries[c].outcome)
  {
    forall i :: 0 <= i < |ws| && !ws[i].removed ==> ws[i].code in t.entries && Holds(t.entries[ws[i].code].outcome)
  }

  /**
   * In a session that keeps the invariant only Unconstrained entries can
   * hold up the next flip: a Constrained entry always carries its outcome,
   * so the day may advance exactly when some wager is active and every
   * Unconstrained entry of the current day has been given an outcome.
   */
  lemma CanAdvanceWaitsOnlyOnU(ws: seq<Wager>, l: seq<Day>, t: Option<Day>)
    requires SessionInvariant(ws, l, t)
    ensures CanAdvance(ws, t) <==>
      ActiveCodes(ws) != {} &&
      (t.Some? ==> forall c :: c in t.value.entries && t.value.entries[c].mode == U ==> Holds(t.value.entries[c].outcome))
  {
    if t.Some? && ActiveCodes(ws) != {} {
      var d := t.value;
      assert WellFormedDay(d) by { assert WellFormedDay(l[|l| - 1]); }
      if forall c :: c in d.entries && d.entries[c].mode == U ==> Holds(d.entries[c].outcome) {
        forall i | 0 <= i < |ws| && !ws[i].removed
          ensures ws[i].code in d.entries && Holds(d.entries[ws[i].code].outcome)
        {
          assert ws[i].code in ActiveCodes(ws);
          assert WellFormedEntry(d.entries[ws[i].code]);
        }
      }
    }
  }

  lemma SameCodesSameSets(a: seq<Wager>, b: seq<Wager>)
    requires |a| == |b|
    requires forall i :: 0 <= i < |a| ==> a[i].code == b[i].code && a[i].removed == b[i].removed
    ensures ActiveCodes(a) == ActiveCodes(b) && AllCodes(a) == AllCodes(b)
  {
  }

  /** Appending a fresh, well-formed day over exactly the active wagers keeps the invariant. */
  lemma AppendDayKeepsInvariant(ws: seq<Wager>, l: seq<Day>, t: Option<Day>, next: Day)
    requires SessionInvariant(ws, l, t)
    requires next.day == |l| + 1
    requires ActiveCodes(ws) != {} && next.entries.Keys == ActiveCodes(ws)
    requires WellFormedDay(next)
    ensures SessionInvariant(ws, l + [next], Some(next))
  {
    AppendDayKeepsLedger(l, next);
  }

  /** The registry after adding `d`: the removed record with its code reactivated in place, or `d` appended. */
  function AddRecord(ws: seq<Wager>, d: Draft): (r: seq<Wager>)
    ensures |ws| <= |r| <= |ws| + 1
    ensures AsWager(d) in r
    ensures forall i :: 0 <= i < |ws| && !(ws[i].code == d.code && ws[i].removed) ==> r[i] == ws[i]
  {
    var existing := FindRemoved(ws, d.code);
    if existing >= 0 then
      var r := ws[existing := AsWager(d)];
      assert r[existing] == AsWager(d);
      r
    else
      var r := ws + [AsWager(d)];
      assert r[|ws|] == AsWager(d);
      r
  }

  /**
   * Adding a draft whose code no active wager holds keeps the registry
   * well-formed (codes stay unique across all records) and activates
   * exactly that code.
   */
  lemma AddRecordKeepsRegistry(ws: seq<Wager>, d: Draft)
    requires RegistryOk(ws)
    requires Complete(d) && ValidCode(d.code) && d.code !in ActiveCodes(ws)
    ensures RegistryOk(AddRecord(ws, d))
    ensures ActiveCodes(AddRecord(ws, d)) == ActiveCodes(ws) + {d.code}
  {
    var existing := FindRemoved(ws, d.code);
    if existing >= 0 {
      ReactivateKeepsRegistry(ws, d, existing);
    } else {
      AppendKeepsRegistry(ws, d);
    }
  }

  lemma ReactivateKeepsRegistry(ws: seq<Wager>, d: Draft, k: int)
    requires RegistryOk(ws) && 0 <= k < |ws| && ws[k].code == d.code && ws[k].removed
    requires Complete(d) && ValidCode(d.code) && d.code !in ActiveCodes(ws)
    ensures RegistryOk(ws[k := AsWager(d)])
    ensures ActiveCodes(ws[k := AsWager(d)]) == ActiveCodes(ws) + {d.code}
  {
    var r := ws[k := AsWager(d)];
    forall c | c in ActiveCodes(r) ensures c in ActiveCodes(ws) + {d.code} {
      var j :| 0 <= j < |r| && !r[j].removed && r[j].code == c;
      if j != k { assert ws[j] == r[j]; }
    }
    forall c | c in ActiveCodes(ws) ensures c in ActiveCodes(r) {
      var j :| 0 <= j < |ws| && !ws[j].removed && ws[j].code == c;
      assert r[j] == ws[j];
    }
    assert r[k].code == d.code && !r[k].removed;
  }

  lemma AppendKeepsRegistry(ws: seq<Wager>, d: Draft)
    requires RegistryOk(ws) && d.code !in AllCodes(ws)
    requires Complete(d) && ValidCode(d.code)
    ensures RegistryOk(ws + [AsWager(d)])
    ensures ActiveCodes(ws + [AsWager(d)]) == ActiveCodes(ws) + {d.code}
  {
    var r := ws + [AsWager(d)];
    forall c | c in ActiveCodes(r) ensures c in ActiveCodes(ws) + {d.code} {
      var j :| 0 <= j < |r| && !r[j].removed && r[j].code == c;
      if j < |ws| { assert ws[j] == r[j]; }
    }
    forall c | c in ActiveCodes(ws) ensures c in ActiveCodes(r) {
      var j :| 0 <= j < |ws| && !ws[j].removed && ws[j].code == c;
      assert r[j] == ws[j];
    }
    assert r[|ws|].code == d.code;
    forall i, j | 0 <= i < |r| && 0 <= j < |r| && i != j ensures r[i].code != r[j].code {
      if i < |ws| && j < |ws| {
      } else if i < |ws| {
        assert r[i].code in AllCodes(ws);
      } else {
        assert r[j].code in AllCodes(ws);
      }
    }
  }

  /**
   * addWagerFn never keeps two records for one code: a removed record with
   * the draft's code is reactivated in place, and only a code the registry
   * has never held is appended.
   */
  lemma AddRecordShape(ws: seq<Wager>, d: Draft)
    requires UniqueCodes(ws)
    ensures AllCodes(AddRecord(ws, d)) == AllCodes(ws) + {d.code}
    ensures d.code in AllCodes(ws) && d.code !in ActiveCodes(ws) ==>
      && |AddRecord(ws, d)| == |ws|
      && forall i :: 0 <= i < |ws| ==> AddRecord(ws, d)[i] == if ws[i].code == d.code then AsWager(d) else ws[i]
    ensures d.code !in AllCodes(ws) ==> AddRecord(ws, d) == ws + [AsWager(d)]
  {
    var r := AddRecord(ws, d);
    var existing := FindRemoved(ws, d.code);
    if existing >= 0 {
      forall c | c in AllCodes(r) ensures c in AllCodes(ws) {
        var j :| 0 <= j < |r| && r[j].code == c;
        if j != existing { assert ws[j] == r[j]; } else { assert ws[existing].code == c; }
      }
      forall c | c in AllCodes(ws) ensures c in AllCodes(r) {
        var j :| 0 <= j < |ws| && ws[j].code == c;
        if j != existing { assert r[j] == ws[j]; } else { assert r[existing].code == c; }
      }
    } else {
      assert r[|ws|].code == d.code;
      forall c | c in AllCodes(r) ensures c in AllCodes(ws) + {d.code} {
        var j :| 0 <= j < |r| && r[j].code == c;
        if j < |ws| { assert ws[j] == r[j]; }
      }
      forall c | c in AllCodes(ws) ensures c in AllCodes(r) {
        var j :| 0 <= j < |ws| && ws[j].code == c;
        assert r[j] == ws[j];
      }
    }
  }

  /**
   * Replacing the last ledger day by a new state of the in-progress day,
   * over exactly the active wagers, keeps the invariant.
   */
  lemma ReplaceLastKeepsInvariant(ws: seq<Wager>, l: seq<Day>, t: Day)
    requires RegistryOk(ws) && LedgerOk(l) && |l| > 0
    requires t.day == |l| && ActiveCodes(ws) != {} && t.entries.Keys == ActiveCodes(ws) && WellFormedDay(t)
    ensures SessionInvariant(ws, l[..|l| - 1] + [t], Some(t))
  {
    ReplaceLastKeepsLedger(l, t);
  }

  lemma SetOutcomeStep(ws: seq<Wager>, l: seq<Day>, t: Day, code: string, v: string)
    requires SessionInvariant(ws, l, Some(t)) && code in t.entries && IsOutcome(v)
    ensures var t' := t.(entries := t.entries[code := t.entries[code].(outcome := Some(v))]);
      && ToLedgerEntry(ws, t') == t'
      && (exists i :: 0 <= i < |l| && l[i].day == t'.day)
      && MapDays(l, t'.day, Replace(t')) == l[..|l| - 1] + [t']
      && SessionInvariant(ws, l[..|l| - 1] + [t'], Some(t'))
  {
    var t' := t.(entries := t.entries[code := t.entries[code].(outcome := Some(v))]);
    assert WellFormedEntry(t.entries[code]) by { assert WellFormedDay(l[|l| - 1]); }
    ToLedgerEntryCopiesWellFormed(ws, t');
    assert l[|l| - 1].day == t'.day;
    MapDaysTouchesLast(l, Replace(t'));
    ReplaceLastKeepsInvariant(ws, l, t');
  }

  /**
   * Mid-day, giving a newly active code an entry in the day state and the
   * same entry in the last ledger day keeps the invariant; the ledger update
   * touches that day alone.
   */
  lemma MidDayAddKeepsInvariant(ws: seq<Wager>, ws': seq<Wager>, l: seq<Day>, t: Day, c: string, e: Entry)
    requires SessionInvariant(ws, l, Some(t))
    requires RegistryOk(ws') && ActiveCodes(ws') == ActiveCodes(ws) + {c}
    requires WellFormedEntry(e)
    ensures t.day != 0
    ensures MapDays(l, t.day, Put(c, LedgerForm(e))) == l[..|l| - 1] + [t.(entries := t.entries[c := e])]
    ensures SessionInvariant(ws', l[..|l| - 1] + [t.(entries := t.entries[c := e])], Some(t.(entries := t.entries[c := e])))
  {
    var merged := t.(entries := t.entries[c := e]);
    MapDaysTouchesLast(l, Put(c, LedgerForm(e)));
    ReplaceLastKeepsInvariant(ws', l, merged);
  }

  /** removeWagerFn's registry update: every record with `code` is marked removed, nothing else changes. */
  function MarkRemoved(ws: seq<Wager>, code: string): (r: seq<Wager>)
    ensures |r| == |ws|
    ensures forall i :: 0 <= i < |ws| ==> r[i] == if ws[i].code == code then ws[i].(removed := true) else ws[i]
  {
    if ws == [] then []
    else
      var w := ws[|ws| - 1];
      MarkRemoved(ws[..|ws| - 1], code) + [if w.code == code then w.(removed := true) else w]
  }

  /** Removing a wager deactivates exactly its code and keeps the registry well-formed. */
  lemma MarkRemovedKeepsRegistry(ws: seq<Wager>, code: string)
    requires RegistryOk(ws)
    ensures RegistryOk(MarkRemoved(ws, code))
    ensures ActiveCodes(MarkRemoved(ws, code)) == ActiveCodes(ws) - {code}
    ensures AllCodes(MarkRemoved(ws, code)) == AllCodes(ws)
  {
    var r := MarkRemoved(ws, code);
    forall c | c in ActiveCodes(r) ensures c in ActiveCodes(ws) - {code} {
      var j :| 0 <= j < |r| && !r[j].removed && r[j].code == c;
    }
    forall c | c in ActiveCodes(ws) - {code} ensures c in ActiveCodes(r) {
      var j :| 0 <= j < |ws| && !ws[j].removed && ws[j].code == c;
      assert r[j] == ws[j];
    }
    forall c | c in AllCodes(ws) ensures c in AllCodes(r) {
      var j :| 0 <= j < |ws| && ws[j].code == c;
      assert r[j].code == c;
    }
  }

  /** Removing the last active wager and clearing the day keeps the invariant. */
  lemma RemoveLastKeepsInvariant(ws: seq<Wager>, l: seq<Day>, t: Option<Day>, code: string)
    requires SessionInvariant(ws, l, t) && ActiveCodes(MarkRemoved(ws, code)) == {}
    ensures SessionInvariant(MarkRemoved(ws, code), l, None)
  {
    MarkRemovedKeepsRegistry(ws, code);
  }

  /**
   * Mid-day, dropping a removed wager's entry from the day state and from
   * the last ledger day keeps the invariant; the ledger update touches that
   * day alone.
   */
  lemma RemoveMidDayKeepsInvariant(ws: seq<Wager>, l: seq<Day>, t: Day, code: string)
    requires SessionInvariant(ws, l, Some(t)) && code in t.entries
    requires ActiveCodes(MarkRemoved(ws, code)) != {}
    ensures t.day != 0
    ensures MapDays(l, t.day, Drop(code)) == l[..|l| - 1] + [t.(entries := t.entries - {code})]
    ensures SessionInvariant(MarkRemoved(ws, code), l[..|l| - 1] + [t.(entries := t.entries - {code})], Some(t.(entries := t.entries - {code})))
  {
    MarkRemovedKeepsRegistry(ws, code);
    var dropped := t.(entries := t.entries - {code});
    assert WellFormedDay(dropped) by {
      assert WellFormedDay(l[|l| - 1]);
    }
    MapDaysTouchesLast(l, Drop(code));
    assert ApplyEdit(l[|l| - 1], Drop(code)) == dropped;
    ReplaceLastKeepsInvariant(MarkRemoved(ws, code), l, dropped);
  }

  /** Removing a wager the day has no entry for changes nothing but the registry, and keeps the invariant. */
  lemma RemoveOffDayKeepsInvariant(ws: seq<Wager>, l: seq<Day>, t: Option<Day>, code: string)
    requires SessionInvariant(ws, l, t) && !(t.Some? && code in t.value.entries)
    requires ActiveCodes(MarkRemoved(ws, code)) != {}
    ensures SessionInvariant(MarkRemoved(ws, code), l, t)
  {
    MarkRemovedKeepsRegistry(ws, code);
  }

  /** saveEditFn's registry update: new name, labels and category for the records with `code`. */
  function EditRecords(ws: seq<Wager>, code: string, ed: EditDraft): (r: seq<Wager>)
    ensures |r| == |ws|
    ensures forall i :: 0 <= i < |ws| ==>
      r[i] == if ws[i].code == code then ws[i].(name := ed.name, plus := ed.plus, minus := ed.minus, category := ed.category) else ws[i]
  {
    if ws == [] then []
    else
      var w := ws[|ws| - 1];
      EditRecords(ws[..|ws| - 1], code, ed) + [if w.code == code then w.(name := ed.name, plus := ed.plus, minus := ed.minus, category := ed.category) else w]
  }

  /** An edit with non-empty labels changes no code and no removed flag, so it keeps the invariant. */
  lemma EditKeepsInvariant(ws: seq<Wager>, l: seq<Day>, t: Option<Day>, code: string, ed: EditDraft)
    requires SessionInvariant(ws, l, t)
    requires ed.name != "" && ed.plus != "" && ed.minus != ""
    ensures ActiveCodes(EditRecords(ws, code, ed)) == ActiveCodes(ws)
    ensures SessionInvariant(EditRecords(ws, code, ed), l, t)
  {
    SameCodesSameSets(ws, EditRecords(ws, code, ed));
  }

  /** The registry finishSetup saves: one active record per accepted draft, in order. */
  function AsWagers(ds: seq<Draft>): (r: seq<Wager>)
    ensures |r| == |ds|
    ensures forall i :: 0 <= i < |ds| ==> r[i] == AsWager(ds[i])
  {
    if ds == [] then [] else AsWagers(ds[..|ds| - 1]) + [AsWager(ds[|ds| - 1])]
  }

  /** Accepted setup drafts with distinct codes make a well-formed registry in which every code is active. */
  lemma SetupRegistryOk(ds: seq<Draft>)
    requires DistinctCodes(ds)
    requires forall i :: 0 <= i < |ds| ==> Complete(ds[i]) && ValidCode(ds[i].code)
    ensures RegistryOk(AsWagers(ds))
    ensures ActiveCodes(AsWagers(ds)) == CodeSet(ds)
  {
    var ws := AsWagers(ds);
    assert forall i :: 0 <= i < |ws| ==> ws[i].code == ds[i].code && !ws[i].removed && ws[i].name == ds[i].name && ws[i].plus == ds[i].plus && ws[i].minus == ds[i].minus;
    SetupActiveCodes(ds);
  }

  lemma SetupActiveCodes(ds: seq<Draft>)
    ensures ActiveCodes(AsWagers(ds)) == CodeSet(ds)
  {
    var ws := AsWagers(ds);
    forall c | c in CodeSet(ds) ensures c in ActiveCodes(ws) {
      var j :| 0 <= j < |ds| && ds[j].code == c;
      assert ws[j] == AsWager(ds[j]);
    }
    forall c | c in ActiveCodes(ws) ensures c in CodeSet(ds) {
      var j :| 0 <= j < |ws| && !ws[j].removed && ws[j].code == c;
      assert ws[j] == AsWager(ds[j]);
    }
  }

  lemma ActiveCodesSnoc(ws: seq<Wager>)
    requires ws != []
    ensures ActiveCodes(ws) == ActiveCodes(ws[..|ws| - 1]) + (if ws[|ws| - 1].removed then {} else {ws[|ws| - 1].code})
  {
    var p := ws[..|ws| - 1];
    forall c | c in ActiveCodes(ws) ensures c in ActiveCodes(p) + (if ws[|ws| - 1].removed then {} else {ws[|ws| - 1].code}) {
      var j :| 0 <= j < |ws| && !ws[j].removed && ws[j].code == c;
      if j < |p| { assert p[j] == ws[j]; }
    }
    forall c | c in ActiveCodes(p) ensures c in ActiveCodes(ws) {
      var j :| 0 <= j < |p| && !p[j].removed && p[j].code == c;
      assert ws[j] == p[j];
    }
  }

  /** The day's entries once the first reconciliation loop has visited the records of `ws` in order. */
  function FillMissing(ws: seq<Wager>, t: map<string, Entry>, flip1: string -> bool): (r: map<string, Entry>)
    ensures t.Keys <= r.Keys
    ensures forall c :: c in t ==> r[c] == t[c]
  {
    if ws == [] then t
    else
      var m := FillMissing(ws[..|ws| - 1], t, flip1);
      var w := ws[|ws| - 1];
      if !w.removed && w.code !in m then m[w.code := FillOnLoad(w.category, flip1(w.code))] else m
  }

  /**
   * The first reconciliation loop gives the day an entry for every active
   * wager, keeps the entries it had, and fills each missing one by the
   * load-time fill of an active record with that code.
   */
  lemma FillMissingSpec(ws: seq<Wager>, t: map<string, Entry>, flip1: string -> bool)
    ensures FillMissing(ws, t, flip1).Keys == t.Keys + ActiveCodes(ws)
    ensures forall c :: c in t ==> FillMissing(ws, t, flip1)[c] == t[c]
    ensures forall c :: c in FillMissing(ws, t, flip1) && c !in t ==>
      exists i :: 0 <= i < |ws| && !ws[i].removed && ws[i].code == c && FillMissing(ws, t, flip1)[c] == FillOnLoad(ws[i].category, flip1(c))
  {
    FillMissingKeys(ws, t, flip1);
    FillMissingOrigin(ws, t, flip1);
  }

  lemma {:induction false} FillMissingKeys(ws: seq<Wager>, t: map<string, Entry>, flip1: string -> bool)
    ensures FillMissing(ws, t, flip1).Keys == t.Keys + ActiveCodes(ws)
    ensures forall c :: c in t ==> FillMissing(ws, t, flip1)[c] == t[c]
  {
    if ws != [] {
      FillMissingKeys(ws[..|ws| - 1], t, flip1);
      ActiveCodesSnoc(ws);
    }
  }

  lemma {:induction false} FillMissingOrigin(ws: seq<Wager>, t: map<string, Entry>, flip1: string -> bool)
    ensures forall c :: c in FillMissing(ws, t, flip1) && c !in t ==>
      exists i :: 0 <= i < |ws| && !ws[i].removed && ws[i].code == c && FillMissing(ws, t, flip1)[c] == FillOnLoad(ws[i].category, flip1(c))
  {
    if ws != [] {
      var p := ws[..|ws| - 1];
      var n := |ws| - 1;
      FillMissingOrigin(p, t, flip1);
      var mp := FillMissing(p, t, flip1);
      var m := FillMissing(ws, t, flip1);
      forall c | c in m && c !in t
        ensures exists i :: 0 <= i < |ws| && !ws[i].removed && ws[i].code == c && m[c] == FillOnLoad(ws[i].category, flip1(c))
      {
        if c in mp {
          var i :| 0 <= i < |p| && !p[i].removed && p[i].code == c && mp[c] == FillOnLoad(p[i].category, flip1(c));
          assert ws[i] == p[i];
        } else {
          assert !ws[n].removed && ws[n].code == c;
        }
      }
    }
  }

  /**
   * The first reconciliation loop: every active wager the day lacks gets an
   * entry by the load-time fill; `added` reports whether any was missing.
   */
  method AddMissing(ws: seq<Wager>, t: map<string, Entry>, flip1: string -> bool) returns (m: map<string, Entry>, added: bool)
    ensures m == FillMissing(ws, t, flip1)
    ensures added <==> m.Keys != t.Keys
  {
    m := t;
    added := false;
    var i := 0;
    while i < |ws|
      invariant 0 <= i <= |ws|
      invariant m == FillMissing(ws[..i], t, flip1)
      invariant t.Keys <= m.Keys
      invariant added <==> m.Keys != t.Keys
    {
      assert ws[..i + 1][..i] == ws[..i];
      var w := ws[i];
      if !w.removed && w.code !in m {
        m := m[w.code := FillOnLoad(w.category, flip1(w.code))];
        added := true;
      }
      i := i + 1;
    }
    assert ws[..i] == ws;
  }

  /**
   * The second reconciliation loop: every entry whose code is not active is
   * deleted; `dropped` reports whether any was.
   */
  method DropStale(active: set<string>, m: map<string, Entry>) returns (r: map<string, Entry>, dropped: bool)
    ensures r.Keys == m.Keys * active
    ensures forall c :: c in r ==> r[c] == m[c]
    ensures dropped <==> !(m.Keys <= active)
  {
    r := m;
    dropped := false;
    var keys := m.Keys;
    while keys != {}
      invariant keys <= m.Keys
      invariant forall c :: c in r <==> c in m && (c in keys || c in active)
      invariant forall c :: c in r ==> r[c] == m[c]
      invariant dropped <==> exists c :: c in m && c !in keys && c !in active
      decreases |keys|
    {
      var k :| k in keys;
      if k !in active {
        r := r - {k};
        dropped := true;
      }
      keys := keys - {k};
    }
  }

  /**
   * Load-time reconciliation of a stored day with the stored registry: every
   * active wager the day lacks gets an entry by the load-time fill, every
   * entry of a wager that is no longer active is dropped, and `changed`
   * reports whether anything was added or dropped.
   */
  method Reconcile(ws: seq<Wager>, t: Day, flip1: string -> bool) returns (r: Day, changed: bool)
    ensures r.day == t.day
    ensures r.entries.Keys == ActiveCodes(ws)
    ensures forall c :: c in r.entries && c in t.entries ==> r.entries[c] == t.entries[c]
    ensures forall c :: c in r.entries && c !in t.entries ==>
      exists i :: 0 <= i < |ws| && !ws[i].removed && ws[i].code == c && r.entries[c] == FillOnLoad(ws[i].category, flip1(c))
    ensures changed <==> t.entries.Keys != ActiveCodes(ws)
    ensures t.entries.Keys == ActiveCodes(ws) ==> r == t
  {
    var filled, added := AddMissing(ws, t.entries, flip1);
    FillMissingSpec(ws, t.entries, flip1);
    var kept, dropped := DropStale(ActiveCodes(ws), filled);
    r := t.(entries := kept);
    changed := added || dropped;
  }

  /** The three pieces of persisted session state. */
  datatype Session = Session(wagers: seq<Wager>, ledger: seq<Day>, today: Option<Day>)

  /**
   * addWagerFn's new state: an incomplete draft or a code an active wager
   * holds changes nothing; otherwise the record is added (AddRecord) and,
   * mid-day, the wager gets an entry by the two-flip rule in the day state
   * and in that day's ledger entry.
   */
  function AddWagerState(s: Session, draft: Draft, coin: Coin): (r: Session)
    ensures |r.ledger| == |s.ledger|
    ensures r.today.Some? <==> s.today.Some?
    ensures |s.wagers| <= |r.wagers| <= |s.wagers| + 1
  {
    var cleaned := draft.(code := NormalizeCode(draft.code));
    if !Complete(cleaned) || cleaned.code in ActiveCodes(s.wagers) then s
    else if s.today.Some? && s.today.value.day != 0 then
      var e := ResolveEntry(s.ledger, cleaned.code, cleaned.category, coin);
      var cur := s.today.value;
      Session(AddRecord(s.wagers, cleaned), MapDays(s.ledger, cur.day, Put(cleaned.code, LedgerForm(e))), Some(cur.(entries := cur.entries[cleaned.code := e])))
    else
      Session(AddRecord(s.wagers, cleaned), s.ledger, s.today)
  }

  /**
   * Adding a wager keeps the session invariant. A rejected draft changes
   * nothing; an accepted one activates exactly its code, and mid-day the
   * day state gains its entry, resolved against the ledger as it was, and
   * the ledger's last day is replaced by the new day state.
   */
  lemma AddWagerEffect(s: Session, draft: Draft, coin: Coin)
    requires SessionInvariant(s.wagers, s.ledger, s.today)
    ensures var r := AddWagerState(s, draft, coin);
      SessionInvariant(r.wagers, r.ledger, r.today)
    ensures var r := AddWagerState(s, draft, coin);
      var cleaned := draft.(code := NormalizeCode(draft.code));
      && (!Complete(cleaned) || cleaned.code in ActiveCodes(s.wagers) ==> r == s)
      && (Complete(cleaned) && cleaned.code !in ActiveCodes(s.wagers) ==>
            && ActiveCodes(r.wagers) == ActiveCodes(s.wagers) + {cleaned.code}
            && (s.today.None? ==> r.ledger == s.ledger && r.today == s.today)
            && (s.today.Some? ==>
                  && r.today == Some(s.today.value.(entries := s.today.value.entries[cleaned.code := ResolveEntry(s.ledger, cleaned.code, cleaned.category, coin)]))
                  && r.ledger == s.ledger[..|s.ledger| - 1] + [r.today.value]))
  {
    var cleaned := draft.(code := NormalizeCode(draft.code));
    if Complete(cleaned) && cleaned.code !in ActiveCodes(s.wagers) {
      AddRecordKeepsRegistry(s.wagers, cleaned);
      if s.today.Some? {
        var e := ResolveEntry(s.ledger, cleaned.code, cleaned.category, coin);
        MidDayAddKeepsInvariant(s.wagers, AddRecord(s.wagers, cleaned), s.ledger, s.today.value, cleaned.code, e);
      }
    }
  }

  class Engine {
    var wagers: seq<Wager>
    var ledger: seq<Day>
    var today: Option<Day>

    ghost predicate Valid()
      reads this
    {
      SessionInvariant(wagers, ledger, today)
    }

    /** The state before anything is loaded or set up. */
    constructor ()
      ensures Valid() && wagers == [] && ledger == [] && today.None?
    {
      wagers := [];
      ledger := [];
      today := None;
    }

    /** getLastEntry: the most recent entry for `code`, any mode. */
    method GetLastEntry(code: string) returns (r: Option<Entry>)
      ensures r == LastRef(ledger, code, Last, |ledger|)
    {
      var i := |ledger| - 1;
      while i >= 0
        invariant -1 <= i < |ledger|
        invariant LastRef(ledger, code, Last, |ledger|) == LastRef(ledger, code, Last, i + 1)
      {
        if code in ledger[i].entries {
          return Some(ledger[i].entries[code]);
        }
        i := i - 1;
      }
      return None;
    }

    /** getLastC: the most recent Constrained entry for `code`. */
    method GetLastC(code: string) returns (r: Option<Entry>)
      ensures r == LastRef(ledger, code, LastC, |ledger|)
    {
      var i := |ledger| - 1;
      while i >= 0
        invariant -1 <= i < |ledger|
        invariant LastRef(ledger, code, LastC, |ledger|) == LastRef(ledger, code, LastC, i + 1)
      {
        if code in ledger[i].entries && ledger[i].entries[code].mode == C {
          return Some(ledger[i].entries[code]);
        }
        i := i - 1;
      }
      return None;
    }

    /** The two-flip rule for one wager against the current ledger. */
    method ResolveWager(code: string, category: Category, coin: Coin) returns (e: Entry)
      ensures e == ResolveEntry(ledger, code, category, coin)
    {
      if coin.flip1 {
        return Entry(U, None, None);
      }
      var invType := if coin.flip2 then Last else LastC;
      var ref: Option<Entry>;
      if invType == Last {
        ref := GetLastEntry(code);
      } else {
        ref := GetLastC(code);
      }
      var refOutcome := if ref.Some? then NormalizeOpt(ref.value.outcome) else None;
      var outcome := if Holds(refOutcome) then InvertOutcome(refOutcome.value) else CategoryDefault(category);
      e := Entry(C, Some(outcome), Some(invType));
    }

    /** buildFlippedDay: one entry per active wager, each by the two-flip rule with its own coins. */
    method BuildFlippedDay(coins: string -> Coin) returns (state: map<string, Entry>)
      requires UniqueCodes(wagers)
      ensures state.Keys == ActiveCodes(wagers)
      ensures forall i :: 0 <= i < |wagers| && !wagers[i].removed ==>
        state[wagers[i].code] == ResolveEntry(ledger, wagers[i].code, wagers[i].category, coins(wagers[i].code))
      ensures WellFormedDay(Day(0, state))
    {
      state := map[];
      var i := 0;
      while i < |wagers|
        invariant 0 <= i <= |wagers|
        invariant state.Keys == set k | 0 <= k < i && !wagers[k].removed :: wagers[k].code
        invariant forall k :: 0 <= k < i && !wagers[k].removed ==>
          state[wagers[k].code] == ResolveEntry(ledger, wagers[k].code, wagers[k].category, coins(wagers[k].code))
      {
        var w := wagers[i];
        if !w.removed {
          var e := ResolveWager(w.code, w.category, coins(w.code));
          state := state[w.code := e];
        }
        i := i + 1;
      }
      forall k | k in state ensures WellFormedEntry(state[k]) {
        var j :| 0 <= j < |wagers| && !wagers[j].removed && wagers[j].code == k;
      }
    }

    /**
     * flipAll: when some wager is active and the current day (if any) is
     * fully resolved, starts the next day by the two-flip rule for every
     * active wager and appends it to the ledger; otherwise changes nothing.
     */
    method FlipAll(coins: string -> Coin)
      requires Valid()
      modifies this
      ensures Valid()
      ensures wagers == old(wagers)
      ensures !CanAdvance(old(wagers), old(today)) ==> ledger == old(ledger) && today == old(today)
      ensures CanAdvance(old(wagers), old(today)) ==>
        && today.Some?
        && today.value.day == (if old(today).Some? then old(today).value.day else |old(ledger)|) + 1
        && today.value.entries.Keys == ActiveCodes(wagers)
        && (forall i :: 0 <= i < |wagers| && !wagers[i].removed ==>
              today.value.entries[wagers[i].code] == ResolveEntry(old(ledger), wagers[i].code, wagers[i].category, coins(wagers[i].code)))
        && ledger == old(ledger) + [ToLedgerEntry(wagers, today.value)]
    {
      if ActiveCodes(wagers) == {} {
        return;
      }
      var canAdvanceDay := today.None? || Filled(wagers, today.value);
      if !canAdvanceDay {
        return;
      }
      var nextDay := (if today.Some? then today.value.day else |ledger|) + 1;
      var flipped := BuildFlippedDay(coins);
      var nextState := Day(nextDay, flipped);
      var nextEntry := ToLedgerEntry(wagers, nextState);
      assert nextDay == |ledger| + 1;
      assert WellFormedDay(nextState) by {
        assert forall k :: k in flipped ==> WellFormedEntry(flipped[k]);
      }
      ToLedgerEntryCopiesWellFormed(wagers, nextState);
      AppendDayKeepsInvariant(wagers, ledger, today, nextState);
      ledger := ledger + [nextEntry];
      today := Some(nextState);
    }

    /**
     * setOutcomeForCode: records or switches the outcome of one wager for
     * the current day, in the day state and in that day's ledger entry.
     */
    method SetOutcomeForCode(code: string, val: string)
      requires Valid()
      requires today.Some? && code in today.value.entries
      requires IsOutcome(NormalizeOutcome(val))
      modifies this
      ensures Valid()
      ensures wagers == old(wagers)
      ensures today == Some(old(today.value).(entries := old(today.value.entries)[code := old(today.value.entries[code]).(outcome := Some(NormalizeOutcome(val)))]))
      ensures ledger == old(ledger)[..|old(ledger)| - 1] + [today.value]
    {
      var cur := today.value;
      var nextState := cur.(entries := cur.entries[code := cur.entries[code].(outcome := Some(NormalizeOutcome(val)))]);
      var nextEntry := ToLedgerEntry(wagers, nextState);
      SetOutcomeStep(wagers, ledger, cur, code, NormalizeOutcome(val));
      var hasDay := exists i :: 0 <= i < |ledger| && ledger[i].day == nextEntry.day;
      assert hasDay;
      var nextLedger := if hasDay then MapDays(ledger, nextEntry.day, Replace(nextEntry)) else ledger + [nextEntry];
      assert nextLedger == ledger[..|ledger| - 1] + [nextState];
      today := Some(nextState);
      ledger := nextLedger;
    }

    /**
     * addWagerFn: the new state is AddWagerState's (see AddWagerEffect for
     * what that state is).
     */
    method AddWager(draft: Draft, coin: Coin)
      requires Valid()
      modifies this
      ensures Valid()
      ensures Session(wagers, ledger, today) == AddWagerState(Session(old(wagers), old(ledger), old(today)), draft, coin)
    {
      ghost var before := Session(wagers, ledger, today);
      AddWagerEffect(before, draft, coin);
      var cleaned := draft.(code := NormalizeCode(draft.code));
      var complete := cleaned.code != "" && cleaned.name != "" && cleaned.plus != "" && cleaned.minus != "";
      var taken := exists i :: 0 <= i < |wagers| && wagers[i].code == cleaned.code && !wagers[i].removed;
      assert taken <==> cleaned.code in ActiveCodes(wagers);
      if complete && !taken {
        var updated := AddRecord(wagers, cleaned);
        var nextLedger, nextToday := ledger, today;
        if today.Some? && today.value.day != 0 {
          var wagerState := ResolveWager(cleaned.code, cleaned.category, coin);
          var cur := today.value;
          nextToday := Some(cur.(entries := cur.entries[cleaned.code := wagerState]));
          nextLedger := MapDays(ledger, cur.day, Put(cleaned.code, LedgerForm(wagerState)));
        }
        wagers, ledger, today := updated, nextLedger, nextToday;
      }
    }

    /**
     * removeWagerFn: marks every record with `code` removed; with no active
     * wager left, clears the day and keeps the ledger; otherwise, when the
     * day has an entry for `code`, drops it from the day state and from that
     * day's ledger entry.
     */
    method RemoveWager(code: string)
      requires Valid()
      modifies this
      ensures Valid()
      ensures wagers == MarkRemoved(old(wagers), code)
      ensures ActiveCodes(wagers) == ActiveCodes(old(wagers)) - {code}
      ensures ActiveCodes(wagers) == {} ==> today.None? && ledger == old(ledger)
      ensures ActiveCodes(wagers) != {} && old(today).Some? && code in old(today.value.entries) ==>
        && today == Some(old(today.value).(entries := old(today.value.entries) - {code}))
        && ledger == old(ledger)[..|old(ledger)| - 1] + [today.value]
      ensures ActiveCodes(wagers) != {} && !(old(today).Some? && code in old(today.value.entries)) ==>
        today == old(today) && ledger == old(ledger)
    {
      MarkRemovedKeepsRegistry(wagers, code);
      var nextWagers := MarkRemoved(wagers, code);
      if ActiveCodes(nextWagers) == {} {
        RemoveLastKeepsInvariant(wagers, ledger, today, code);
        wagers := nextWagers;
        today := None;
        return;
      }
      if today.Some? && code in today.value.entries {
        RemoveMidDayKeepsInvariant(wagers, ledger, today.value, code);
        wagers := nextWagers;
        var dayNum := today.value.day;
        today := Some(today.value.(entries := today.value.entries - {code}));
        if dayNum != 0 {
          ledger := MapDays(ledger, dayNum, Drop(code));
        }
      } else {
        RemoveOffDayKeepsInvariant(wagers, ledger, today, code);
        wagers := nextWagers;
      }
    }

    /**
     * saveEditFn: with an edit open for a code and all three labels
     * non-empty, gives the records with that code the edited name, labels
     * and category; codes, flags, the ledger and the day stay as they are.
     */
    method SaveEdit(editingCode: string, edit: Option<EditDraft>)
      requires Valid()
      modifies this
      ensures Valid()
      ensures ledger == old(ledger) && today == old(today)
      ensures edit.None? || editingCode == "" || edit.value.name == "" || edit.value.plus == "" || edit.value.minus == "" ==>
        wagers == old(wagers)
      ensures edit.Some? && editingCode != "" && edit.value.name != "" && edit.value.plus != "" && edit.value.minus != "" ==>
        wagers == EditRecords(old(wagers), editingCode, edit.value)
      ensures ActiveCodes(wagers) == ActiveCodes(old(wagers))
    {
      if edit.None? || editingCode == "" {
        return;
      }
      var ed := edit.value;
      if ed.name == "" || ed.plus == "" || ed.minus == "" {
        return;
      }
      EditKeepsInvariant(wagers, ledger, today, editingCode, ed);
      wagers := EditRecords(wagers, editingCode, ed);
    }

    /** resetAll: back to setup with an empty registry, an empty ledger and no day. */
    method ResetAll()
      modifies this
      ensures Valid()
      ensures wagers == [] && ledger == [] && today.None?
    {
      wagers := [];
      ledger := [];
      today := None;
    }

    /**
     * finishSetup: normalises the drafts' codes and keeps the complete ones;
     * rejects the batch when two of them share a code or none is left, and
     * otherwise makes them the registry.
     */
    method FinishSetup(drafts: seq<Draft>) returns (ok: bool)
      requires Valid() && wagers == []
      modifies this
      ensures Valid()
      ensures ledger == old(ledger) && today == old(today)
      ensures ok <==> ValidDrafts(drafts) != [] && DistinctCodes(ValidDrafts(drafts))
      ensures ok ==> wagers == AsWagers(ValidDrafts(drafts)) && ActiveCodes(wagers) == CodeSet(ValidDrafts(drafts))
      ensures !ok ==> wagers == []
    {
      var valid := ValidDrafts(drafts);
      CodeSetSizeIffDistinct(valid);
      if |CodeSet(valid)| != |valid| {
        return false;
      }
      if |valid| == 0 {
        return false;
      }
      SetupRegistryOk(valid);
      wagers := AsWagers(valid);
      return true;
    }

    /**
     * The load effect: a stored day counts only with a non-zero day number;
     * when both a registry and a day are stored, the day is reconciled with
     * the registry; `persisted` reports whether the reconciled day had to be
     * written back. A registry that is not stored leaves the registry as it
     * was.
     */
    method Load(storedW: Option<seq<Wager>>, storedL: seq<Day>, storedT: Option<Day>, flip1: string -> bool) returns (persisted: bool)
      modifies this
      ensures wagers == (if storedW.Some? then storedW.value else old(wagers))
      ensures ledger == storedL
      ensures storedT.None? || storedT.value.day == 0 ==> today.None? && !persisted
      ensures storedT.Some? && storedT.value.day != 0 && storedW.None? ==> today == storedT && !persisted
      ensures storedT.Some? && storedT.value.day != 0 && storedW.Some? ==>
        && today.Some? && today.value.day == storedT.value.day
        && today.value.entries.Keys == ActiveCodes(wagers)
        && (forall c :: c in today.value.entries && c in storedT.value.entries ==> today.value.entries[c] == storedT.value.entries[c])
        && (forall c :: c in today.value.entries && c !in storedT.value.entries ==>
              exists i :: 0 <= i < |wagers| && !wagers[i].removed && wagers[i].code == c && today.value.entries[c] == FillOnLoad(wagers[i].category, flip1(c)))
        && (persisted <==> storedT.value.entries.Keys != ActiveCodes(wagers))
      ensures storedW.Some? && SessionInvariant(storedW.value, storedL, storedT) ==> Valid() && today == storedT && !persisted
    {
      var loadedT := if storedT.Some? && storedT.value.day != 0 then storedT else None;
      persisted := false;
      if storedW.Some? && loadedT.Some? {
        var reconciled, changed := Reconcile(storedW.value, loadedT.value, flip1);
        loadedT := Some(reconciled);
        persisted := changed;
      }
      if storedW.Some? {
        wagers := storedW.value;
      }
      ledger := storedL;
      today := loadedT;
    }
  }

  /**
   * Removing the last active wager while its Unconstrained entry still has
   * no outcome clears the day but keeps the ledger, so the entry stays on
   * the ledger's last day. Once any wager is added, the next flip is allowed
   * and appends a new day after it: the entry is left without an outcome on
   * a past day, where nothing can set it.
   */
  method RemoveThenFlipStrandsOpenEntry(e: Engine, code: string, draft: Draft, coin: Coin, coins: string -> Coin)
    requires e.Valid()
    requires e.today.Some? && code in e.today.value.entries
    requires e.today.value.entries[code].mode == U && e.today.value.entries[code].outcome.None?
    requires ActiveCodes(e.wagers) == {code}
    requires Complete(Normalized(draft))
    modifies e
    ensures e.Valid()
    ensures |e.ledger| == |old(e.ledger)| + 1 && e.ledger[..|old(e.ledger)|] == old(e.ledger)
    ensures var past := e.ledger[|e.ledger| - 2];
      code in past.entries && past.entries[code].mode == U && past.entries[code].outcome.None?
    ensures e.today.Some? && e.today.value.day == |e.ledger|
  {
    e.RemoveWager(code);
    assert e.today.None?;
    AddWagerEffect(Session(e.wagers, e.ledger, e.today), draft, coin);
    e.AddWager(draft, coin);
    assert ActiveCodes(e.wagers) != {};
    e.FlipAll(coins);
  }
}
