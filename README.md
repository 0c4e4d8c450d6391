# ATDU wager engine, modelled in Dafny

ATDU keeps a registry of *wagers*, each a habit or a choice with a plus and a
minus outcome. Every practice day a "flip" resolves each active wager with the
**two-flip rule**:

- flip 1 heads makes the day *Unconstrained* (U), and the user picks the outcome;
- otherwise the day is *Constrained* (C), and flip 2 picks the rule:
  - `last` inverts the wager's most recent ledger entry;
  - `lastC` inverts its most recent Constrained entry;
  - without a reference the rule falls back to the category default.

Each day is appended to a ledger. The session engine keeps three pieces of
state:

- the registry of wager records, soft-deleted with `removed`;
- the ledger of numbered days;
- the in-progress day state.

The engine's operations are flipping, choosing an outcome, adding, removing
and editing wagers, first-time setup, reset, and the reconciliation of a
stored day with the registry on load. On top of this the app computes:

- the odds for a wager's next Constrained day;
- the "bright U" highlight of the ledger grid;
- a per-wager analysis (lean, percentages, longest runs, running ratio);
- a simulation of the rule with a biased chooser, with its summary.

A build helper normalises the deployment base path.

The modules follow that structure:

| module | file | what it holds |
|---|---|---|
| `Options` | options.dfy | `Option`, JavaScript's `null` next to a value |
| `Outcomes` | outcomes.dfy | the outcomes `+`/`-`, the display glyph U+2212, inversion, normalisation, display |
| `Wagers` | wagers.dfy | wager records, drafts, categories, `normalizeCode`, the setup filter |
| `Ledger` | ledger.dfy | entries, days, the backward lookups `getLastEntry`/`getLastC`, `toLedgerEntry`, per-day edits |
| `Resolution` | resolution.dfy | the two-flip rule for one wager, and the load-time fill |
| `Practice` | practice.dfy | the session invariant, the load reconciliation loops, and the `Engine` class whose methods replace `wagers`, `ledger` and `today` |
| `Odds` | odds.dfy | `getConstrainedOdds`, `getRollingOddsForWager`, `formatOddsSymbol`, `isBrightU` |
| `Analysis` | analysis.dfy | `wagerAnalysis`: observations, lean, percentages, longest runs, running ratio |
| `Simulation` | simulation.dfy | `simulate`, and the `finals` summary of one profile |
| `BasePath` | base_path.dfy | `normalizeBase` of the build configuration |

The session invariant (`Practice.SessionInvariant`) has three parts:

- the registry's codes are unique across all records, removed or not, and well-formed;
- ledger day `i` is numbered `i + 1` and holds only well-formed entries;
- an in-progress day is numbered `|ledger|`, has an entry for exactly the active wagers, and equals the last ledger day.

Every `Engine` method except `Load` keeps it and states its whole new state,
in terms of pure functions about which lemmas prove what the app promises.
`Load` takes whatever storage holds: it keeps the invariant when the stored
session already satisfies it, and otherwise states the loaded day by its key
set, the entries it keeps and the load fills it adds.

Randomness is a parameter. The engine takes `coins: string -> Coin`, with the
two flips of each wager. The load fill takes `flip1: string -> bool`. The
simulation takes one `Draw` per day: the mode draw, then either the bias draw
or flip 2. Ratios are kept as integer numerators and denominators.
Percentages use exact half-up rounding (`Analysis.RoundPct`).

Three behaviours of the code are worth stating on their own:

- The load-time fill of a missing wager does not run flip 2 or look at the
  history. Its Constrained entry is always the category default with rule
  `last` (src/App.jsx:356-367). The app's own rules text says that a
  Constrained entry inverts the last entry, with "No prior entry defaults by
  category" (src/App.jsx:258), and that the category "Sets the first
  constrained default only" (src/App.jsx:270).
  `Resolution.FillOnLoadIgnoresHistory` exhibits a ledger on which the fill
  gives the default where the rule would invert the history.
- A wager with no Unconstrained entry is not excluded from the analysis. Its
  lean is `+`, by the tie rule, and its `uLeanPct` is 50
  (src/App.jsx:1256, 1264).
- Removing the last active wager clears the day state but keeps the ledger
  (src/App.jsx:613-617). If that wager's Unconstrained entry had no outcome
  yet, the entry stays on the ledger's last day. After any wager is added, the
  next flip is allowed and appends a new day, so the entry is left without an
  outcome on a past day for good. `Practice.RemoveThenFlipStrandsOpenEntry`
  calls these steps on the engine and proves the outcome.

## Model

| member | source | states |
|---|---|---|
| Outcomes.InvertOutcome | src/App.jsx:186-188 | the result is always `+` or `-`, never its argument, and is `-` exactly for `+` |
| Outcomes.InvertInvolution | src/App.jsx:186-188 | inverting a canonical outcome twice gives it back |
| Outcomes.NormalizeOutcome | src/App.jsx:190-194 | the result is `-` exactly for `-` and U+2212, `+` exactly for `+`; the glyph is the only value that is changed |
| Outcomes.NormalizeIdempotent | src/App.jsx:190-194 | normalising is idempotent and fixes `+` and `-` |
| Outcomes.NormalizeOpt | src/App.jsx:190-194 | `null` stays `null`; a value is normalised |
| Outcomes.NormalizeOptIdempotent | src/App.jsx:190-194 | normalising a possibly missing outcome is idempotent |
| Outcomes.FmtOutcome | src/App.jsx:196-199 | the symbol is the U+2212 glyph exactly when the outcome normalises to `-`, and `+` otherwise |
| Outcomes.FmtOutcomeRoundTrip | src/App.jsx:196-199 | reading the displayed symbol back gives the normalised outcome again |
| Wagers.CategoryDefault | src/App.jsx:444 | the default is an outcome, and it is `-` exactly for Planned Not Taken |
| Wagers.NormalizeCode | src/App.jsx:182-184 | the result is empty or a valid code: one or two characters, each from A-Z or 0-9 |
| Wagers.NormalizeCodeStrips | src/App.jsx:182-184 | a character that is not A-Z or 0-9 once upper-cased is stripped: deleting it from the input leaves the code unchanged |
| Wagers.NormalizeCodeTruncates | src/App.jsx:182-184 | after two code characters the rest of the input is cut off, whatever it holds |
| Wagers.NormalizeCodeUpcases | src/App.jsx:182-184 | upper-casing any one input character first leaves the code unchanged, so every character is upper-cased |
| Wagers.NormalizeCodeFixesValid | src/App.jsx:182-184 | a valid code is its own normal form |
| Wagers.NormalizeCodeIdempotent | src/App.jsx:182-184 | normalising a code twice is the same as once |
| Wagers.NormalizeCodeUppercases | src/App.jsx:182-184 | two lower-case letters come out as the same letters upper-cased |
| Wagers.FindRemoved | src/App.jsx:567 | the index of the first removed record with the code, or -1 exactly when there is none |
| Wagers.ValidDrafts | src/App.jsx:494-496 | every kept draft is complete with a valid code and is an input draft with its code normalised; every input draft that is complete once normalised is kept |
| Wagers.ValidDraftsAppend | src/App.jsx:494-496 | the filter works draft by draft and keeps the input order: filtering a concatenation concatenates the filtered parts |
| Wagers.CodeSetSizeIffDistinct | src/App.jsx:497 | the set of codes is as large as the draft list exactly when no two drafts share a code |
| Ledger.LastRef | src/App.jsx:430-442 | a found entry is the code's entry on some day, and is Constrained for `lastC` |
| Ledger.LastRefIsLatest | src/App.jsx:430-442 | the scan finds nothing exactly when no day qualifies, and otherwise the entry of the latest qualifying day |
| Ledger.LedgerForm | src/App.jsx:595-596 | the mode is kept, and a well-formed entry is copied unchanged |
| Ledger.ToLedgerEntry | src/App.jsx:522-531 | same day number; the entries are exactly the day state's entries for active wagers |
| Ledger.ToLedgerEntryCopiesWellFormed | src/App.jsx:522-531 | a well-formed day state over active wagers becomes its own ledger entry |
| Ledger.ApplyEdit | src/App.jsx:599 | a replace gives the new day; a put or drop changes that code's entry only and keeps the day number |
| Ledger.MapDays | src/App.jsx:598-601 | same length; days with the number are edited and every other day is untouched |
| Ledger.AppendDayKeepsLedger | src/App.jsx:537-541 | appending the day numbered one past the last keeps the ledger numbered and well-formed |
| Ledger.ReplaceLastKeepsLedger | src/App.jsx:558-560 | replacing the last day by a day with its number keeps the ledger well-formed |
| Ledger.MapDaysTouchesLast | src/App.jsx:558-560 | editing the day numbered like the last day of a well-formed ledger changes the last day and nothing else |
| Resolution.RefOutcome | src/App.jsx:513-514 | no reference outcome when no ledger day qualifies; otherwise the normalised outcome of the latest qualifying day's entry |
| Resolution.ResolveEntry | src/App.jsx:504-520 | the entry is well-formed; it is U exactly on flip 1 heads, and then has no outcome; a C entry carries the rule flip 2 picked |
| Resolution.ConstrainedInvertsLatestReference | src/App.jsx:504-520 | a C outcome is the inverse of the latest qualifying entry, or the category default without one or with an empty outcome |
| Resolution.FillOnLoad | src/App.jsx:356-367 | the fill is well-formed; it is U exactly on flip 1 heads, and a C fill has the category default |
| Resolution.FillOnLoadAgreesWithoutHistory | src/App.jsx:356-367 | without history for the code, the load fill equals the two-flip rule taking `last` |
| Resolution.FillOnLoadIgnoresHistory | src/App.jsx:356-367 | on a ledger whose last entry is `+`, the load fill gives `+` where the two-flip rule gives `-` |
| Practice.Filled | src/App.jsx:535 | a filled day has an entry with a non-empty outcome for every active wager |
| Practice.CanAdvance | src/App.jsx:534-535 | an allowed flip needs an active wager, and an in-progress day with an entry for each active wager |
| Practice.CanAdvanceWaitsOnlyOnU | src/App.jsx:534-535 | in a session that keeps the invariant, the flip is allowed exactly when some wager is active and every Unconstrained entry of the day has an outcome, since Constrained entries always have one |
| Practice.AppendDayKeepsInvariant | src/App.jsx:533-550 | appending a fresh well-formed day over the active wagers keeps the session invariant |
| Practice.AddRecord | src/App.jsx:567-573 | the registry grows by at most one record, holds the new wager, and only a removed record with the draft's code can be replaced |
| Practice.AddRecordKeepsRegistry | src/App.jsx:567-573 | adding a free code keeps codes unique and activates exactly that code |
| Practice.AddRecordShape | src/App.jsx:567-573 | a removed record with the code is reactivated in place (same length); only a code never held is appended |
| Practice.SetOutcomeStep | src/App.jsx:552-561 | the new day is its own ledger entry; the ledger holds its day, and replacing it changes only the last day and keeps the invariant |
| Practice.MidDayAddKeepsInvariant | src/App.jsx:591-601 | mid-day, the new code's entry goes into the day state and into the last ledger day only, and the invariant holds |
| Practice.MarkRemoved | src/App.jsx:609 | same length; records with the code are marked removed and the others are untouched |
| Practice.MarkRemovedKeepsRegistry | src/App.jsx:608-610 | removing deactivates exactly the code, keeps all codes and keeps the registry well-formed |
| Practice.RemoveLastKeepsInvariant | src/App.jsx:613-618 | clearing the day when no wager stays active keeps the invariant |
| Practice.RemoveMidDayKeepsInvariant | src/App.jsx:620-636 | dropping the code from the day state and from the last ledger day only keeps the invariant |
| Practice.RemoveOffDayKeepsInvariant | src/App.jsx:620 | removing a wager the day has no entry for keeps the invariant with the day and ledger unchanged |
| Practice.EditRecords | src/App.jsx:648-650 | same length; records with the code get the new name, labels and category, and the rest are untouched |
| Practice.EditKeepsInvariant | src/App.jsx:645-650 | an edit with non-empty labels keeps the active codes and the invariant |
| Practice.AsWagers | src/App.jsx:500 | one active record per accepted draft, in order |
| Practice.SetupRegistryOk | src/App.jsx:493-502 | accepted drafts with distinct codes make a well-formed registry whose active codes are the draft codes |
| Practice.FillMissing | src/App.jsx:356-367 | the first loop's result keeps every key of the stored day with its entry |
| Practice.FillMissingSpec | src/App.jsx:356-367 | the day gains an entry for every active wager, keeps its old entries, and each new one is the load fill of an active record with that code |
| Practice.AddMissing | src/App.jsx:356-367 | the first loop's map is the fill of the missing active wagers, and `added` is set exactly when a key was added |
| Practice.DropStale | src/App.jsx:370-376 | the keys kept are exactly the active ones, with their values unchanged; the flag is set exactly when a key was deleted |
| Practice.Reconcile | src/App.jsx:351-381 | the reconciled day has exactly the active codes, keeps existing entries, fills the new ones; `changed` exactly when the key set differed, and an unchanged day is returned as it was |
| Practice.AddWagerState | src/App.jsx:563-606 | adding a wager never appends or drops a ledger day, never starts or ends the day, and adds at most one record |
| Practice.AddWagerEffect | src/App.jsx:563-606 | a rejected draft changes nothing; an accepted one activates exactly its code; mid-day the day and its ledger entry gain the rule's entry against the old ledger; the invariant holds |
| Practice.Engine.constructor | src/App.jsx:316-320 | no registry, an empty ledger and no day, satisfying the invariant |
| Practice.Engine.GetLastEntry | src/App.jsx:430-435 | the backward loop returns the latest entry for the code, of any mode |
| Practice.Engine.GetLastC | src/App.jsx:437-442 | the backward loop returns the latest Constrained entry for the code |
| Practice.Engine.ResolveWager | src/App.jsx:506-518 | one wager's entry is the two-flip rule's against the current ledger |
| Practice.Engine.BuildFlippedDay | src/App.jsx:504-520 | an entry for exactly the active wagers, each the two-flip rule's with its own coins |
| Practice.Engine.FlipAll | src/App.jsx:533-550 | no change without an active wager or with an unfilled day; otherwise the new day is numbered one past the last, holds the rule's entries, and is appended to an otherwise unchanged ledger |
| Practice.Engine.SetOutcomeForCode | src/App.jsx:552-561 | only that code's outcome changes in the day, and the ledger's day is replaced in place with no append |
| Practice.Engine.AddWager | src/App.jsx:563-606 | the new state is `AddWagerState`'s, and the invariant is kept |
| Practice.Engine.RemoveWager | src/App.jsx:608-638 | the code is marked removed; with none left active the day is cleared and the ledger kept; otherwise the code leaves only the day state and the last ledger day |
| Practice.Engine.SaveEdit | src/App.jsx:645-653 | an incomplete or absent edit changes nothing; otherwise the records with the code are edited, with codes, flags, ledger and day kept |
| Practice.Engine.ResetAll | src/App.jsx:657-661 | empty registry, empty ledger, no day |
| Practice.Engine.FinishSetup | src/App.jsx:493-502 | accepted exactly when some drafts are complete and their codes are distinct; the registry is then those drafts, and it stays empty otherwise |
| Practice.Engine.Load | src/App.jsx:351-390 | a day with number 0 is dropped; a stored day is reconciled with a stored registry and written back exactly when its keys differed; each entry it adds is the load fill of an active record with that code; a consistent stored session is loaded unchanged and satisfies the invariant |
| Practice.RemoveThenFlipStrandsOpenEntry | src/App.jsx:608-638 | removing the last active wager while its U entry has no outcome, then adding a wager and flipping, leaves that entry without an outcome on a past ledger day |
| Odds.PlusVote | src/App.jsx:460-463 | a 0/1 vote that is 1 exactly when the rule's prediction is `+` |
| Odds.MinusVote | src/App.jsx:461-464 | a 0/1 vote that with the plus vote makes 1 |
| Odds.ConstrainedOdds | src/App.jsx:446-470 | `plusPct + minusPct == 100`, with `plusPct` in {0, 50, 100} |
| Odds.OddsAverageTheTwoRules | src/App.jsx:446-470 | without an override, `plusPct` is 50 for each rule whose Constrained entry would come out `+` |
| Odds.OverrideVotesAgainstTheChoice | src/App.jsx:455-457 | with an override, the `last` rule votes for the inverse of the day's own U choice |
| Odds.RollingOdds | src/App.jsx:472-476 | the rolling odds also sum to 100 |
| Odds.RollingOddsNeedNoOverride | src/App.jsx:472-476 | while the last ledger day mirrors the day state, the rolling odds equal the odds without a forced outcome |
| Odds.FormatOddsSymbol | src/App.jsx:205-210 | a dash exactly without odds, `+` exactly at plusPct 100, `-` exactly at minusPct 100 otherwise |
| Odds.SymbolOfConstrainedOdds | src/App.jsx:205-210 | on computed odds, `+` or `-` exactly at 100/0 or 0/100, and `split` exactly at 50/50 |
| Odds.EntryAt | src/App.jsx:479 | an entry exactly when the day exists and has the code |
| Odds.IsBrightU | src/App.jsx:478-487 | a bright entry lies on a ledger day that has a neighbouring day |
| Odds.BrightUIffInPair | src/App.jsx:478-487 | an entry is bright exactly when it and the day before or after form a pair of U entries with the same non-empty outcome |
| Odds.BrightUComesInPairs | src/App.jsx:478-487 | a bright U entry's matching neighbour is bright too |
| Analysis.Observations | src/App.jsx:1244-1249 | at most one observation per ledger day |
| Analysis.ObservationsSpec | src/App.jsx:1244-1249 | exactly one observation per day with a non-empty outcome, in ledger order, taken from that day's entry |
| Analysis.CollectObservations | src/App.jsx:1243-1249 | the loop collects exactly the observations |
| Analysis.CountInRun | src/App.jsx:1253-1267 | the number of U entries with (or without) the outcome, at most the number of observations |
| Analysis.CountMode | src/App.jsx:1253-1267 | the number of entries of one mode, at most the number of observations |
| Analysis.CountOutcome | src/App.jsx:1253-1267 | the number of entries with the outcome, at most the number of observations |
| Analysis.CountInRunSplitsU | src/App.jsx:1253-1255 | plus and non-plus U entries together are all U entries |
| Analysis.CountModeSplits | src/App.jsx:1253-1267 | U and C entries together are all entries, so `uTotal + cDays == totalDays` |
| Analysis.RoundPct | src/App.jsx:1264-1266 | exact half-up rounding of `100a/b`, in 0..100 when `a <= b`, and at least 50 when `2a >= b` |
| Analysis.Lean | src/App.jsx:1253-1256 | the lean is `+` exactly when `uPlus >= uMinus` |
| Analysis.ULeanCount | src/App.jsx:1253-1263 | the lean's U count is the larger of the plus side and the other side |
| Analysis.ULeanPct | src/App.jsx:1263-1264 | between 50 and 100; 50 without U entries; otherwise the half-up rounding of 100 times the lean's U count over the U total |
| Analysis.OverallPct | src/App.jsx:1265-1266 | the rounded share of entries equal to the lean, in 0..100 |
| Analysis.LongestRun | src/App.jsx:1270-1283 | the result is the length of the longest stretch of U entries with (or without) the lean outcome, so a C or opposite entry breaks runs |
| Analysis.RunWithinCount | src/App.jsx:1270-1283 | a run is no longer than the number of entries of its kind |
| Analysis.LongestRunWithinCount | src/App.jsx:1270-1283 | the longest run is at most the number of U entries with that outcome |
| Analysis.RunningRatio | src/App.jsx:1286-1290 | point `i` is (lean entries among the first `i + 1`, `i + 1`) with the entry's day |
| Analysis.AnalyzeWager | src/App.jsx:1242-1306 | null exactly without observations; otherwise every field of the analysis, with the bounds and the last running point equal to the overall lean share |
| Analysis.AnalyzeNext | src/App.jsx:1239-1307 | one loop pass adds at most one analysis, for record `i` only, and keeps the loop's three invariants |
| Analysis.AnalyzeAll | src/App.jsx:1239-1307 | empty without a ledger; each result is the analysis of an active wager, every active wager with an observation has one, and the results follow the registry order with at most one per record |
| Simulation.LastCE | src/App.jsx:1180-1184 | a found outcome is some simulated day's outcome |
| Simulation.SimDay | src/App.jsx:1169-1186 | the day is numbered one past the days before it, is U exactly on the mode draw, has a canonical outcome, follows the bias draw when U and records flip 2's rule when C, and bumps the plus count exactly on `+` |
| Simulation.Simulated | src/App.jsx:1165-1189 | one simulated day per draw |
| Simulation.NextDay | src/App.jsx:1169-1186 | one pass of the loop body yields the simulated day after the days so far, from the tracked values |
| Simulation.Simulate | src/App.jsx:1165-1189 | the loop with incremental `lastE`, `lastCE` and `plusCount` yields the simulated days |
| Simulation.SimulatedShape | src/App.jsx:1168-1186 | day numbers run 1, 2, ...; U exactly on the mode draw; outcomes are canonical; a U outcome follows the bias draw; a C day records its rule |
| Simulation.SimulatedPlusCount | src/App.jsx:1185-1186 | each day carries the number of `+` outcomes up to it, the numerator of `cumRatio` |
| Simulation.LastCEIsLastC | src/App.jsx:1180-1184 | `lastCE` is the outcome of the engine's `lastC` reference on the simulated ledger |
| Simulation.SimDayFollowsTwoFlipRule | src/App.jsx:1172-1182 | a simulated day has the mode, the rule and (when C) the outcome of the engine's rule for a Habit wager |
| Simulation.SimulationFollowsTwoFlipRule | src/App.jsx:1165-1189 | every simulated day follows the engine's rule on the ledger of the days before it |
| Simulation.SimDefaultIgnoresCategory | src/App.jsx:1178-1180 | the simulation's default is `+`, where the engine gives a Planned Not Taken wager `-` |
| Simulation.LongestEqualRun | src/App.jsx:1338-1342 | the length of the longest stretch of equal outcomes, across both modes |
| Simulation.SimulatedCDays | src/App.jsx:1337 | `cDays` is the number of mode draws that chose Constrained |
| Simulation.CountC | src/App.jsx:1337 | the number of Constrained days, at most the number of days |
| Simulation.SimFinal | src/App.jsx:1335-1343 | the final ratio is (`+` days, days), `cDays` counts C draws, and `longestRun` is the longest equal run |
| BasePath.NormalizeBase | vite.config.js:7-11 | the result starts and ends with `/`; `/ATDU/` for an unset or empty path |
| BasePath.NormalizeBaseFixesSlashed | vite.config.js:9-10 | a path that already starts and ends with `/` is unchanged |
| BasePath.NormalizeBaseIdempotent | vite.config.js:7-11 | normalising twice is the same as once |
| BasePath.NormalizeBaseAddsOnlyMissingSlashes | vite.config.js:9-10 | a set path gets a leading slash exactly when it lacks one and a trailing slash exactly when it lacks one, so `/ATDU` becomes `/ATDU/` |
| BasePath.NormalizeBaseAddsAtMostOneSlashEachSide | vite.config.js:9-10 | a set path comes back with at most one `/` added on each side |

## Left out

- Storage reads and writes, JSON encoding and the swallowed exceptions are not modelled. Each operation's new state is what it would persist. Malformed stored data is not modelled either.
- Haptics, the flip animation and its timers, React memoisation, and the draft-form editing helpers are left out as UI.
- `Math.random` and the bias draw are parameters (see above). The simulation's convergence is not a claim here.
- Floating-point `cumRatio` and `ratio` values are kept as integer pairs. The model rounds 100·a/b exactly half-up, while the app rounds the float product `a / b * 100`, which can fall just below a half: for 29 of 200 the app shows 14 (29/200*100 is 14.499999999999998 in floating point) and the model gives 15.
- Wagers.NormalizeCode: upper-cases ASCII letters only. JavaScript's full Unicode `toUpperCase`, which can map one character to several, is not modelled.
- The registry before setup (`null`) is the empty sequence. The load step treats a stored registry as present whenever it exists, including an empty one, as JavaScript's truthy empty array does.
- Practice.Engine.Load: does not state the session invariant after reconciling a day with a changed registry. The stored ledger's last day is not updated by the code in that case, so the mirror of the day state can be broken.
- Practice.Engine.SetOutcomeForCode: requires the day to have an entry for the code and `val` to normalise to `+` or `-`. These are the calls the app's buttons make. Under the session invariant the ledger always holds the current day, so the append branch is dead.
- Practice.Engine.FinishSetup: requires an empty registry. Setup is only reachable before a registry exists or after a reset.
- Stored categories and modes outside the three categories and the two modes are not modelled.
- Simulation: the bias is folded into the `Draw` booleans. The profiles, colours and chart series are UI.
