# Platonic dice simulator — verified model of the roll tally

The application lets a user pick one of the five Platonic dice (4, 6, 8, 12 or 20
faces), enter a number of rolls, and see how often each face came up. This project
models, in Dafny, the part of it that computes something:

- the die catalog and the record types (`types.dfy`, module `DiceTypes`;
  `catalog.dfy`, module `Catalog`);
- the tally run by the roll handler once its timer fires (`engine.dfy`, module
  `Engine`). A table with a zero for every face is built, one entry is incremented per
  draw, and the table is turned into a list of `{face, count, frequency}` records in the
  order `Object.keys` lists integer keys;
- the small state machine around it (`app.dfy`, module `Simulator`, class `App`). Its
  state is the selected die, the roll count, the shown summary, the "simulating" flag
  and the scheduled timer. Its events are editing the roll count, a shortcut button, a
  click on "roll", the timer firing, and a click on a die.

The two tally loops are methods over a local `map<int, int>`, which is the source's
`Record<number, number>`. They are proved against the specification functions
`ZeroCounts` and `Tally`. The result builder is the function `Engine.FormatResults`
(App.tsx:35-42), and the stored summary is the function `Engine.Summarize`
(App.tsx:44-48). The two die tables are the constants `Catalog.PlatonicDice`
(constants.ts:3-39) and `Catalog.InlinedPlatonicDice` (index.tsx:57-93). The lemmas
whose rows below say "about" one of them state its properties. The state machine is a
class whose methods keep the invariant `Valid()`.

The random draw is an input. `draws[i]` is the face the i-th roll produced, and it
must lie in `1..sides`, as `Math.floor(Math.random() * sides) + 1` guarantees.
`frequency` is a `real` equal to `count / totalRolls`. The time stamp is an opaque
integer. `parseInt` is replaced by its outcome: `Some(n)` for a number, `None` for NaN.

`index.tsx` is a single-file build of the same application. Its roll handler
(index.tsx:241-276), die-select handler (index.tsx:333-338), clamp (index.tsx:356) and
roll guard (index.tsx:380) are identical to App.tsx:15-51, 91-96, 114 and 138.
Every row below that cites those App.tsx lines applies equally to the index.tsx lines.
Its inlined die table (index.tsx:57-93) is modelled as a second constant, and
`InlinedCatalogIsSame` proves it equal to the exported one.

The icon shape is the datatype `IconShape`. It has five constructors, one per allowed
literal (types.ts:14).

The code has no error path. A non-numeric or too-small roll count is clamped to 1 by
the input handler, and the roll button is disabled while a run is in progress. The
model proves that the roll count is at least 1 in every reachable state (`App.Valid`).

## Model

| member | source | states |
|---|---|---|
| DiceTypes.DieType.Value | types.ts:1-7 | each die type stands for one of the values 4, 6, 8, 12, 20 |
| DiceTypes.DieTypeValuesDistinctPositive | types.ts:1-7 | die type values are positive, and two types have the same value only if they are the same type |
| DiceTypes.SumFrequenciesScaled | App.tsx:35-42 | if every frequency is count / n, the frequencies sum to (sum of counts) / n |
| Catalog.CatalogOrder | constants.ts:3-39 | about `PlatonicDice`: the catalog has exactly five entries: Tetrahedron, Cube, Octahedron, Dodecahedron, Icosahedron, in that order |
| Catalog.SidesMatchType | constants.ts:3-39 | every entry's `sides` equals the value of its `type` |
| Catalog.SidesStrictlyIncreasing | constants.ts:3-39 | `sides` strictly increases along the catalog, so no two entries share a type and the type can key the entries |
| Catalog.CatalogSidesAtLeastFour | constants.ts:7-35 | every die in the catalog has at least four faces, so every face range is non-empty |
| Catalog.DefaultIsCube | constants.ts:11-17 | entry 1 is the six-sided cube |
| Catalog.InlinedCatalogIsSame | index.tsx:57-93 | about `InlinedPlatonicDice`: the inlined table equals the exported one: five entries, each with `sides` equal to its type's value |
| Engine.InitCounts | App.tsx:21-26 | after the initialising loop, the table has exactly the keys 1..sides, each mapped to 0 |
| Engine.Occurrences | App.tsx:29-32 | the number of draws hitting a face lies in [0, number of draws] |
| Engine.TallyStep | App.tsx:31 | one roll adds 1 to the drawn face, leaves every other face unchanged, and adds no key |
| Engine.RollDice | App.tsx:28-32 | after the roll loop, each face holds the number of draws that hit it, the keys are unchanged, every count lies in [0, numRolls], and the counts sum to numRolls |
| Engine.TallyTotal | App.tsx:29-32 | when every draw is a face of the die, the table's counts sum to the number of rolls |
| Engine.TallyAt | App.tsx:36 | the definition of `Tally` read at one face: for a face 1..sides, the entry `counts[face]` that the builder reads back is the number of draws that hit that face |
| Engine.ObjectKeys | App.tsx:35 | every entry `Object.keys` lists is a key of the table, and the entries are strictly ascending, so none is listed twice |
| Engine.ObjectKeysComplete | App.tsx:35 | `Object.keys` lists every key of the table |
| Engine.AscendingFaceKeys | App.tsx:35 | for a table keyed by faces 1..n, `Object.keys` gives exactly 1, 2, ..., n |
| Engine.FormatResultsSpec | App.tsx:35-42 | about `FormatResults`: the result list has one record per table key with ascending faces; each record holds the table's count for its face and frequency count / numRolls |
| Engine.TallyBounds | App.tsx:29-32 | after the draws every face 1..sides is in the table, with a count in [0, number of draws] |
| Engine.TallyRecords | App.tsx:35-42 | about `FormatResults` on the tally table: after the draws, the i-th result record is the record of face i + 1, and there are exactly `sides` records |
| Engine.FrequencyBounds | App.tsx:40 | a frequency count / numRolls with 0 <= count <= numRolls lies in [0, 1] |
| Engine.RecordsWellFormed | App.tsx:35-48 | records of faces 1..sides over counts in [0, totalRolls] that sum to totalRolls form a well-formed summary: frequencies in [0, 1] summing to exactly 1 |
| Engine.SummarizeWellFormed | App.tsx:21-48 | about `Summarize`: for any in-range draws the stored summary has totalRolls = number of draws; it has one record per face 1..sides, ascending; the counts sum to totalRolls; each frequency is count / totalRolls, lies in [0, 1], and the frequencies sum to 1 (the per-face counts are stated by `SummaryCounts`) |
| Engine.SummaryCounts | App.tsx:21-48 | about `Summarize`: the stored summary has `sides` records, and the i-th record's count is the number of draws that hit face i + 1 |
| Engine.Simulate | index.tsx:245-275 | the timer callback's body returns a summary with totalRolls = numRolls and the given time stamp, well formed for the die, each record's count the number of draws hitting its face |
| Simulator.ClampRolls | App.tsx:114 | the edited roll count is at least 1; it is the entered number when that is at least 1, and 1 otherwise (including a non-numeric entry) |
| Simulator.RollDisabled | App.tsx:138 | the roll button is enabled only when no run is in progress and at least one roll is requested; it is disabled during a run |
| Simulator.RollDisabledOnlyWhileSimulating | App.tsx:138 | with the roll count at least 1, the button is disabled exactly while a run is in progress |
| Simulator.App.constructor | App.tsx:10-13 | initial state: the cube, 100 rolls, idle, no summary; the invariant holds |
| Simulator.App.RollEnabled | App.tsx:138 | in every reachable state the roll button is enabled exactly when no run is in progress |
| Simulator.App.ChangeRolls | App.tsx:114-115 | outside a run, an edit sets the roll count to the clamped entry; during a run the input is disabled and nothing changes |
| Simulator.App.PickPreset | App.tsx:123-127 | outside a run, a shortcut sets the roll count to its value; during a run nothing changes |
| Simulator.App.ClickRoll | App.tsx:15-20 | when enabled, a click sets "simulating", clears the summary and schedules the run with the current die and roll count; when disabled it changes nothing |
| Simulator.App.TimerFires | App.tsx:20-50 | completion shows a summary whose totalRolls is the captured roll count, whose time stamp is the given one and whose i-th count is the number of draws hitting face i + 1; it clears "simulating" and the timer, and the invariant (a well-formed summary for the selected die) is kept |
| Simulator.App.SelectDie | App.tsx:91-96 | during a run a click on a die is ignored; otherwise the die becomes the selection and the summary is cleared |

## Left out

- `Math.random()` and the floating-point scaling that turns it into a face (App.tsx:30). The draws are an input sequence of in-range faces. Uniformity is not modelled.
- `setTimeout` and its 1500 ms delay (App.tsx:20, 50). The timer is the explicit event `App.TimerFires`, and the callback's captured die and roll count are the field `pending`.
- Floating point. `frequency` is an exact `real`, so the frequencies sum to exactly 1, where the JavaScript doubles only come close. Counts are exact integers; doubles represent them exactly up to 2^53.
- `parseInt` and `Date.now()` are foreign calls. The parsed entry is an `Option<int>` input, and the time stamp is an integer input. A `parseInt` result of Infinity (an entry above Number.MAX_VALUE, about 1.8e308) is not modelled.
- Engine.ObjectKeys: it asks for an upper bound on the table's keys, which `Object.keys` does not need. The tally table's keys are the faces 1..sides, so the bound is `sides`.
- Engine.Simulate: it requires numRolls >= 1. With 0 rolls JavaScript would produce NaN frequencies. `App.Valid` proves that the application never calls it with fewer than one roll.
- Display: the chart transform to percentages with `toFixed`/`parseFloat` (App.tsx:54-57), the theoretical probability `1 / sides` shown beside it (App.tsx:59), `toLocaleString`, and all JSX rendering, styling and animation.
- The `min="10"`/`max="100000"` attributes of the roll-count input. The browser does not enforce them on typed input, and the handler's clamp is what the model keeps.
- The chart, selector and icon components, the service worker, and the install prompt / offline-ready state (index.tsx:210-239). They are presentation, browser events and cache I/O.
