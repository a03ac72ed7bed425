# wove, modelled in Dafny

wove is a desktop crochet machine. Its software core compiles a line-oriented stitch
language (`SLIP 3`, `MOVE 10 20`, `PAUSE 1.5`, `TURN`) into G-code-like motion
commands. Around that core sit helpers:

- machine axis limits, and the loading of machine profiles;
- a yarn-tension catalogue;
- a length-unit registry;
- gauge ratios and a factorial;
- an SVG polyline importer;
- the planner payload that the browser viewer reads;
- the viewer's own pure logic: comparing the envelope to the machine, finding yarn-feed pulses, formatting file sizes;
- the numeric helpers of the preview script.

This project models that core and proves what its sources promise.

- **Translator.** The translator is the `PatternTranslator` class in `translator.dfy`. Its fields match the Python object's: the cursor `xMm/yMm/zMm/extrusionMm` and the two parallel buffers of emitted lines and planner snapshots. Each handler is a `method` that mutates those fields. Each method is proved equal to a pure step function over a `TranslatorState` value: `LineStep`, `StitchAt`, `MoveStep` and so on. That includes the state left behind when a handler raises half-way through. The behavioural properties are proved about the step functions in `translator_properties.dfy`:
  - the buffers grow together;
  - Z only takes the safe height or a plunge depth of the stitch table;
  - extrusion never decreases;
  - the number of commands and the distance a stitch line advances;
  - which line an error names, and that the first error stops translation.
- **Loops.** Loops in the sources are loops here, proved against a specification function, for example:
  - the factorial;
  - the two loops that build the unit alias table;
  - the `_coerce_float` key search;
  - the axis table of `_machine_profile_from_mapping`;
  - the SVG points parser and importer;
  - the planner payload;
  - the viewer's feed scan and its envelope comparison.
- **Pure code.** Constants, lookups and branch chains are functions with contracts, and lemmas relate them:
  - the tension catalogue and its estimate;
  - conversion ratios;
  - gauges;
  - `normalizeAxisBounds`;
  - `formatFileSize`;
  - the preview helpers.
- **Numbers and text.**
  - Floats are `real`.
  - Where the sources tell NaN and infinities apart from finite numbers, a value is a `Float` (`Finite(v)`, `NaN`, `PosInf`, `NegInf`).
  - Python's `int()`/`float()` parsing and `:.2f`/`:.3f` formatting are fields of a `Runtime` value passed in; the JavaScript ones are fields of a `JsRuntime`.
  - Banker's `round` and JavaScript's `Math.round` are defined exactly.
  - Python's `strip`, `split` and `splitlines` use Python's full sets of whitespace and line-boundary characters. `upper` and `lower` map ASCII letters only.

Modules, one per file: `Wrappers` (Option, Result, Outcome), `Numbers` (Float, min/max,
rounding), `Text` (Python string methods), `Js` (JavaScript values and coercions), `Seqs`,
`Sorting` (Python's `sorted` on strings), `Gauge`, `MathUtils`, `Tension`, `Units`,
`MachineProfiles`, `PatternCli` (the translator), `PatternCliProperties`, `SvgImport`,
`PlannerPayload`, `PatternVisualize`, `ViewerBounds`, `ViewerFeeds`, `ViewerFormat`.

## Model

| member | source | states |
|---|---|---|
| MathUtils.Factorial | math_utils.py:24-29 | a negative or non-int argument fails with the ValueError; otherwise the loop's product 2·3·…·n equals n! (defined by n! = n·(n−1)!, 0! = 1) and is at least 1 |
| MathUtils.FactPositive | math_utils.py:26-29 | n! ≥ 1 for every n |
| MathUtils.FactAtLeast | math_utils.py:26-29 | n! ≥ n |
| Gauge.ValidatePositive | wove/gauge.py:4-7 | passes exactly when the value is positive; otherwise fails naming the argument |
| Gauge.Quotient | wove/gauge.py:23-25 | count checked first, then length; succeeds exactly when both are positive, with a positive result that times the length gives the count |
| Gauge.StitchesPerInch | wove/gauge.py:23-25 | succeeds exactly when both arguments are positive; it is `Quotient` naming "stitches" and "inches", whose row gives the error order and the value |
| Gauge.RowsPerInch | wove/gauge.py:41-43 | succeeds exactly when both arguments are positive; `Quotient` naming "rows" and "inches" |
| Gauge.StitchesPerCm | wove/gauge.py:59-61 | succeeds exactly when both arguments are positive; `Quotient` naming "stitches" and "cm" |
| Gauge.RowsPerCm | wove/gauge.py:77-79 | succeeds exactly when both arguments are positive; `Quotient` naming "rows" and "cm" |
| Gauge.GaugesAgree | wove/gauge.py:23-79 | the four gauges succeed on the same inputs and then return the same quotient |
| PatternVisualize.EnsureRange | scripts/pattern_visualize.py:22-32 | (0, 1) for an empty series; (min, max) when they are not close; padded by 1 (maximum zero) or by 5% of \|max\| when they are |
| PatternVisualize.EnsureRangeCovers | scripts/pattern_visualize.py:22-32 | the returned range is non-empty (low < high) and contains every value of the series |
| PatternVisualize.ScaleLinear | scripts/pattern_visualize.py:35-44 | a zero-width source maps to the target midpoint; otherwise the result divides the target in the same proportion as the value divides the source |
| PatternVisualize.ScaleLinearEnds | scripts/pattern_visualize.py:38-44 | the source's start and end map to the target's start and end |
| PatternVisualize.ScaleLinearWithin | scripts/pattern_visualize.py:38-44 | a value inside the source lands inside the target, whichever way the target runs |
| PatternVisualize.ChartPoints | scripts/pattern_visualize.py:51-53 | one (x, y) per snapshot, in order, or the single origin when there are no snapshots |
| Tension.MidpointWpi | wove/tension.py:19-24 | the midpoint is equidistant from both ends of the wraps-per-inch pair and lies between them |
| Tension.CatalogueIsKeyedByWeight | wove/tension.py:27-83 | every catalogue entry is filed under its own weight name and the dictionary holds nothing else |
| Tension.InsertDescendingPermutes | wove/tension.py:96-100 | one insertion step of the descending stable sort adds exactly the inserted profile to the multiset |
| Tension.InsertDescendingSorts | wove/tension.py:96-100 | inserting into a list ordered by non-increasing midpoint keeps it ordered |
| Tension.SortDescendingSorts | wove/tension.py:96-100 | `sorted(..., reverse=True)` by midpoint is a permutation of its input with non-increasing midpoints |
| Tension.InsertAscendingPermutes | wove/tension.py:121-124 | one insertion step of the ascending stable sort adds exactly the inserted profile |
| Tension.InsertAscendingSorts | wove/tension.py:121-124 | inserting into a list ordered by non-decreasing midpoint keeps it ordered |
| Tension.SortAscendingSorts | wove/tension.py:121-124 | `sorted` by midpoint is a permutation with non-decreasing midpoints |
| Tension.SortDescendingKeepsOrdered | wove/tension.py:96-100 | a list already strictly decreasing by midpoint is left as it is |
| Tension.SortAscendingReverses | wove/tension.py:121-124 | sorting a strictly decreasing list ascending reverses it |
| Tension.CatalogueStrictlyDecreasing | wove/tension.py:30-80 | the catalogue's midpoints strictly decrease from lace to super bulky |
| Tension.ListIsLightestFirst | wove/tension.py:91-101 | the listing is all 7 entries, strictly decreasing by midpoint, lace first and super bulky last |
| Tension.NormalizeWeight | wove/tension.py:86-88 | the normalised name has no surrounding whitespace and no upper-case letter, and normalising it again changes nothing |
| Tension.GetTensionProfile | wove/tension.py:104-112 | found exactly when the stripped, lower-cased name is a catalogue key, and then the entry of that weight; otherwise "Unknown yarn weight" quoting the input as given |
| Tension.GetTensionProfileNormalizes | wove/tension.py:86-88 | looking up the normalised name finds the same profile |
| Tension.GetTensionProfileFindsCatalogue | wove/tension.py:104-109 | every catalogue weight finds its own profile |
| Tension.EstimateFrom | wove/tension.py:118-139 | over any ascending list, fails exactly for a wraps-per-inch figure that Python finds ≤ 0; NaN passes the guard |
| Tension.EstimateTensionForWpi | wove/tension.py:115-139 | fails with "wraps_per_inch must be positive" exactly when the figure is ≤ 0 |
| Tension.InterpolateBetween | wove/tension.py:130-137 | the interpolation lies between the two forces and equals each end's force at its midpoint |
| Tension.SearchFindsBracket | wove/tension.py:130-137 | in a strictly ascending list, the pair loop returns the interpolation of the pair j, j+1 whose midpoints bracket the figure (strictly above j's) |
| Tension.EstimateFromInterpolates | wove/tension.py:125-137 | over a strictly ascending list, a figure above a positive midpoint j and at most midpoint j+1 gets their interpolation, which lies between the two forces |
| Tension.EstimateFromAtMidpoint | wove/tension.py:125-137 | over a strictly ascending list with positive midpoints, each profile's midpoint gives exactly its force |
| Tension.AscendingIsReversedCatalogue | wove/tension.py:121-124 | sorting the listing ascending gives the catalogue reversed |
| Tension.OrderedFacts | wove/tension.py:121-128 | ordered ascending, the catalogue runs from midpoint 6 (95 g) to midpoint 30 (20 g), strictly increasing |
| Tension.EstimateOverOrdered | wove/tension.py:121-139 | the estimate runs over the catalogue in ascending midpoint order |
| Tension.EstimateClampsLow | wove/tension.py:125-126 | 0 < wpi ≤ 6 gives super bulky's 95 g |
| Tension.EstimateClampsHigh | wove/tension.py:127-128 | wpi ≥ 30 gives lace's 20 g |
| Tension.EstimateOfNaN | wove/tension.py:118-139 | NaN passes every comparison guard and falls through to the final return, lace's 20 g |
| Tension.EstimateInterpolates | wove/tension.py:130-137 | between two adjacent midpoints the estimate is their linear interpolation and lies between the two forces |
| Tension.EstimateAtMidpoint | wove/tension.py:125-137 | at each profile's own midpoint the estimate is exactly its force |
| Units.AliasPairsOfLengthUnits | wove/units/__init__.py:30-44 | the assignments the constructor's outer loop makes over the five units, in order, are the fixed fifteen-entry alias list (each canonical name, then its two aliases) |
| Units.FactorsOfLengthUnits | wove/units/__init__.py:30-41 | the factor table the loop builds maps millimeter, centimeter, meter, inch and yard to 0.001, 0.01, 1, 0.0254 and 0.9144 metres |
| Units.AliasPairsDistinct | wove/units/__init__.py:30-44 | no alias is assigned twice |
| Units.AliasTargetsAreCanonical | wove/units/__init__.py:39-44 | every alias leads to a name of the factor table |
| Units.AliasPairsLowerCase | wove/units/__init__.py:30-47 | every registered spelling is already stripped and lower case, so `key.lower()` leaves it as it is |
| Units.FirstOccurrencesAreKeys | wove/units/__init__.py:37-46 | the dictionary's iteration order (first insertion of each key) lists exactly its keys |
| Units.AssignAllOfDistinct | wove/units/__init__.py:42-44 | with distinct keys, every assignment survives in the dictionary and it holds no other key |
| Units.LowerKeysOfLowerCase | wove/units/__init__.py:45-47 | re-keying a dictionary whose keys are already lower case by `key.lower()` gives the same keys and values |
| Units.LowerCaseTableOfDistinct | wove/units/__init__.py:37-47 | distinct lower-case assignments come through both start-up loops as a table holding exactly them |
| Units.BuiltAliasTable | wove/units/__init__.py:30-48 | the alias table the constructor stores knows exactly the fifteen registered spellings, each under its canonical name |
| Units.ValidateValue | wove/units/__init__.py:78-82 | a non-finite value fails "must be a finite value", a finite negative one "must be non-negative" (finiteness checked first); passes exactly for finite values ≥ 0 |
| Units.RegisterUnits | wove/units/__init__.py:37-49 | the two start-up loops return the factor table of the units and the alias table re-keyed by `lower()` in dictionary order |
| Units.RegisterUnit | wove/units/__init__.py:40-44 | one outer-loop pass adds the unit's factor and its name and aliases, in that order, to the alias dictionary and its key order |
| Units.RegisterAliases | wove/units/__init__.py:43-44 | the inner loop assigns each alias of a unit to its canonical name, in order |
| Units.LowerCaseKeys | wove/units/__init__.py:45-47 | the comprehension-style loop assigns each key's value under the key lower-cased, later keys overwriting earlier ones |
| Units.FactorTablePositive | wove/units/__init__.py:30-36 | every unit size is positive |
| Units.UnitRegistry.ValidIsConsistent | wove/units/__init__.py:29-49 | in the registry the constructor builds, every alias leads to a unit of positive size, so no lookup hits a `KeyError` and no ratio divides by zero |
| Units.UnitRegistry.constructor | wove/units/__init__.py:29-49 | stores the tables the two loops build over the five units |
| Units.UnitRegistry.NormalizeLengthUnit | wove/units/__init__.py:51-65 | succeeds exactly when the stripped, lower-cased spelling is in the alias table, giving a canonical unit that has a size; otherwise "Unknown length unit" quoting the input as given |
| Units.UnitRegistry.LengthFactor | wove/units/__init__.py:67-69 | known exactly when normalisation succeeds, and then the positive size of the canonical unit |
| Units.UnitRegistry.ConversionRatio | wove/units/__init__.py:71-76 | succeeds exactly when both units are known; the source unit is reported first; the ratio is positive and is the source size over the target size |
| Units.UnitRegistry.ConvertLength | wove/units/__init__.py:84-94 | the value's error wins over unit errors; with a valid value, succeeds exactly when the ratio does, with a non-negative result |
| Units.UnitRegistry.ConvertPerLength | wove/units/__init__.py:96-106 | as for lengths, but against the ratio from the target unit to the source unit |
| Units.UnitRegistry.LengthUnits | wove/units/__init__.py:108-112 | the canonical names in strictly ascending order, exactly the factor table's keys |
| Units.UnitRegistry.NormalizeKnownNames | wove/units/__init__.py:51-65 | a spelling is known exactly when, stripped and lower-cased, it is one of the fifteen registered spellings, and then it normalises to that spelling's canonical unit |
| Units.UnitRegistry.NormalizeIgnoresCase | wove/units/__init__.py:61-63 | normalising the stripped, lower-cased spelling gives the same unit as the original spelling |
| Units.UnitRegistry.RatioSelf | wove/units/__init__.py:71-76 | a known unit converts to itself with ratio 1 |
| Units.UnitRegistry.RatioOfFactors | wove/units/__init__.py:71-76 | between two known units the ratio exists and is the quotient of their sizes |
| Units.UnitRegistry.RatioInverse | wove/units/__init__.py:71-76 | the ratios in the two directions multiply to 1 |
| Units.UnitRegistry.RatioChain | wove/units/__init__.py:71-76 | the ratio from a to c is the ratio from a to b times the ratio from b to c |
| Units.UnitRegistry.ConvertScales | wove/units/__init__.py:84-94 | a successful conversion had a finite value and a known ratio, and returns the value times that ratio |
| Units.UnitRegistry.ConvertPreservesMeters | wove/units/__init__.py:84-94 | a converted length measures the same number of metres as the original |
| Units.UnitRegistry.ConvertRoundTrip | wove/units/__init__.py:84-94 | converting a length to another unit and back returns the original value |
| Units.UnitRegistry.BackScales | wove/units/__init__.py:84-94 | any non-negative value converts to its product with the ratio (the converse of ConvertScales) |
| Units.UnitRegistry.ConvertPerLengthKeepsTotal | wove/units/__init__.py:84-106 | a length and a density, both converted to the new unit, multiply to the same total as before |
| Units.UnitRegistry.PerLengthScales | wove/units/__init__.py:96-106 | a successful density conversion returns the value times the ratio from the target unit to the source unit |
| Units.UnitRegistry.LengthUnitsOfRegistry | wove/units/__init__.py:108-112 | the registry lists centimeter, inch, meter, millimeter, yard |
| Units.UnitRegistry.NormalizeCapitalisedAlias | wove/units/__init__.py:61-63 | "Inches" normalises to inch |
| Units.UnitRegistry.NormalizeUnknownName | wove/units/__init__.py:61-65 | "parsec" is reported as an unknown length unit |
| Units.UnitRegistry.FactorOfCanonical | wove/units/__init__.py:42-49 | a canonical name registered as its own alias has its tabulated size |
| Units.UnitRegistry.ConvertOfFactors | wove/units/__init__.py:84-106 | a length conversion from a to b and a density conversion from b to a both multiply by size(a)/size(b) |
| Units.UnitRegistry.ConvertLengthExample | wove/units/__init__.py:84-94 | 2 inches are 5.08 centimetres |
| Units.UnitRegistry.ConvertPerLengthExample | wove/units/__init__.py:96-106 | 5 per inch is 180 per yard |
| MachineProfiles.AxisEnsureWithin | wove/machine_profile.py:23-45 | passes exactly when the position is within the travel range by IEEE comparison, both ends included; otherwise the error carries the axis, the position, both limits and the line number (if any) |
| MachineProfiles.FiniteTravelIsInclusive | wove/machine_profile.py:28 | with finite limits the test passes exactly when min ≤ position ≤ max |
| MachineProfiles.InfiniteTravelAdmitsAll | wove/machine_profile.py:28 | limits of −inf and +inf admit every position |
| MachineProfiles.NaNTravelRefusesAll | wove/machine_profile.py:28 | a NaN limit refuses every position, since every comparison with NaN is false |
| MachineProfiles.OutOfRangeMessageStart | wove/machine_profile.py:34-44 | the range error's text starts "Axis <name> position " |
| MachineProfiles.OutOfRangeMessageEnd | wove/machine_profile.py:30-44 | the range error's text ends "(line N)" for a pattern line or "(generated command)" otherwise |
| MachineProfiles.EnsureWithin | wove/machine_profile.py:54-65 | an axis missing under its upper-cased name fails "missing axis" with that key; otherwise passes exactly when the position is within that axis's range by IEEE comparison |
| MachineProfiles.EnsureWithinIgnoresCase | wove/machine_profile.py:59 | checking "x" and "X" gives the same verdict |
| MachineProfiles.Lookup | wove/machine_profile.py:70-71 | absent exactly when no entry has the key; otherwise a value stored under the key |
| MachineProfiles.FirstPresent | wove/machine_profile.py:69-72 | the search stops at the first key the mapping holds; every key before it is absent |
| MachineProfiles.CoerceFloat | wove/machine_profile.py:68-79 | the for/else loop returns what `_coerce_float` returns or raises, including the NaN or infinity `float()` reads from "nan" or "inf", and reports missing keys exactly when none of the keys is present |
| MachineProfiles.CoercedInt | wove/machine_profile.py:82-89 | a missing key fails with "Missing key" naming it; an infinite float fails with the OverflowError `int()` raises, which is not turned into the integer error |
| MachineProfiles.AxisFromMapping | wove/machine_profile.py:92-110 | a loaded axis carries the given name, and its maximum does not compare at or below its minimum under IEEE `<=`, so a NaN or infinite limit can load |
| MachineProfiles.AxisFromMappingReads | wove/machine_profile.py:92-110 | a loaded axis holds exactly the four coerced fields; fields that coerce but leave the maximum at or below the minimum fail "invalid travel range" with both values |
| MachineProfiles.LoadedTravelAdmitsUnlessNaN | wove/machine_profile.py:23-28 | an axis that passed the load test admits some position exactly when neither limit is NaN |
| MachineProfiles.InfiniteMaxLoads | wove/machine_profile.py:92-110 | the axis {microstepping 16, steps_per_mm 80, min 0, max "inf"} loads with travel 0 to +inf |
| MachineProfiles.NaNMinLoads | wove/machine_profile.py:23-110 | the axis {microstepping 16, steps_per_mm 80, min "nan", max 200} loads with a NaN minimum and then refuses every position |
| MachineProfiles.TravelMinAliasOrder | wove/machine_profile.py:68-95 | the minimum comes from travel_min_mm, else min_mm, else min, as whatever double `float()` gives, NaN and infinities included; a value `float()` refuses is reported under travel_min_mm; none present reports all three keys |
| MachineProfiles.MachineProfileFromMapping | wove/machine_profile.py:113-128 | the loop over the axes mapping returns what `_machine_profile_from_mapping` returns or raises |
| MachineProfiles.AxesFromWellFormed | wove/machine_profile.py:119-125 | every axis the loop stores has an upper-case key, is named by that key, and has a maximum that does not compare at or below its minimum |
| MachineProfiles.AxesFromStep | wove/machine_profile.py:120-125 | one turn over an entry that loads stores its axis under the upper-cased raw name and goes on with the rest |
| MachineProfiles.AxesFromStoresEntry | wove/machine_profile.py:120-125 | after a successful loop, every entry of the document is stored under its upper-cased name |
| MachineProfiles.AxesFromKeepsKeys | wove/machine_profile.py:120-125 | the loop never removes an axis it has stored |
| MachineProfiles.AxesFromRejectsNonMapping | wove/machine_profile.py:121-123 | any entry anywhere that is not a mapping makes loading fail; none is skipped |
| MachineProfiles.AxesFromStopsAtFirst | wove/machine_profile.py:121-125 | a first entry that is not a mapping or whose axis does not load stops the loop with an error |
| MachineProfiles.ProfileFromMappingValid | wove/machine_profile.py:113-128 | a loaded profile has at least one axis that passed the range test and holds every entry of the document; a missing or non-mapping "axes" fails "must contain an 'axes' mapping"; an empty one fails "at least one axis" |
| PatternCli.AsText | wove/pattern_cli/__init__.py:34-37 | the text starts with the command; with a non-empty comment it is "command ; comment", otherwise just the command |
| PatternCli.AsDict | wove/pattern_cli/__init__.py:39-43 | "command" first; a second entry "comment" exactly when the comment is non-empty, holding it |
| PatternCli.Emitted | wove/pattern_cli/__init__.py:160-171 | one line and one snapshot of the unchanged cursor are appended; nothing else changes |
| PatternCli.LimitCheck | wove/pattern_cli/__init__.py:173-182 | without a profile nothing is refused; with one, refused exactly when the profile's `ensure_within` refuses, and then with a limit error |
| PatternCli.AfterReset | wove/pattern_cli/__init__.py:146-158 | the cursor is back at (0, 0, safe Z, E0) and the buffers hold exactly the G21, G90 and G92 preamble, each snapshot at that position |
| PatternCli.ParsePositiveInt | wove/pattern_cli/__init__.py:184-204 | no argument fails "requires a count"; succeeds exactly when the first argument parses as an integer ≥ 1, returning it (later arguments ignored) |
| PatternCli.ParseFloat | wove/pattern_cli/__init__.py:206-226 | succeeds exactly on a finite number, returning it; unparsable text fails "expects numeric values", NaN or infinity "expects finite values" |
| PatternCli.LinesFromFirst | wove/pattern_cli/__init__.py:112-135 | the line loop runs the first line, stops if it raised, and otherwise continues with the next line number |
| PatternCli.PatternTranslator.constructor | wove/pattern_cli/__init__.py:99-106 | a new translator is at (0, 0, safe Z) with no extrusion and empty buffers, and keeps the profile given |
| PatternCli.PatternTranslator.Translate | wove/pattern_cli/__init__.py:108-136 | the reset and the loop over `splitlines()` leave the state of the specification, and return its lines or the first error raised |
| PatternCli.PatternTranslator.TranslateLine | wove/pattern_cli/__init__.py:113-135 | one loop body: blank and `#` lines change nothing; stitch keywords, MOVE, PAUSE and TURN (case-insensitive) run their handler; anything else fails "Unknown command" |
| PatternCli.PatternTranslator.ResetState | wove/pattern_cli/__init__.py:146-158 | the object's state becomes the reset state |
| PatternCli.PatternTranslator.Emit | wove/pattern_cli/__init__.py:160-171 | the object's state becomes the emitted state |
| PatternCli.PatternTranslator.PlannerEvents | wove/pattern_cli/__init__.py:138-142 | the `planner_events` property is the snapshot buffer of the specification state |
| PatternCli.PatternTranslator.EnsureWithinLimits | wove/pattern_cli/__init__.py:173-182 | returns the limit check's verdict and changes nothing |
| PatternCli.PatternTranslator.EnsureSafeHeight | wove/pattern_cli/__init__.py:228-233 | below or above safe Z, checks Z, moves to safe Z and emits the raise; at safe Z does nothing |
| PatternCli.PatternTranslator.EmitStitches | wove/pattern_cli/__init__.py:235-264 | the loop over stitches 1..count leaves the state, and raises the error, of the stitch-by-stitch specification |
| PatternCli.PatternTranslator.EmitStitch | wove/pattern_cli/__init__.py:239-264 | one stitch: the plunge check, the plunge, feed and raise strokes, then the advance |
| PatternCli.PatternTranslator.StitchAdvance | wove/pattern_cli/__init__.py:257-264 | checks safe Z and then the new X, and only then moves by the stitch spacing and emits the advance |
| PatternCli.PatternTranslator.StitchStroke | wove/pattern_cli/__init__.py:242-256 | emits plunge, feed-yarn and raise lines, feeding the stitch's yarn length once |
| PatternCli.PatternTranslator.HandleMove | wove/pattern_cli/__init__.py:266-285 | fewer than two arguments fail first; then the raise to safe height, both parses, the positivity check and both limit checks, in the source's order, before the reposition |
| PatternCli.PatternTranslator.HandlePause | wove/pattern_cli/__init__.py:287-305 | exactly one positive finite value emits `G4 P<ms>` with the rounded milliseconds; the position never changes |
| PatternCli.PatternTranslator.HandleTurn | wove/pattern_cli/__init__.py:307-331 | more than one argument fails first; then the raise, the row height (default 6), its positivity, the X and Y checks, then X = 0 and Y advanced by the row height |
| PatternCli.TranslatePattern | wove/pattern_cli/__init__.py:334-340 | a fresh translator's result for the source |
| PatternCliProperties.PlungeHeightsAreTheTable | wove/pattern_cli/__init__.py:68-93 | the plunge heights (−1, −1.5, −2, −2.5 mm) are exactly the fabric plane minus each stitch's plunge depth |
| PatternCliProperties.CatalogueProfiles | wove/pattern_cli/__init__.py:68-93 | every stitch of the table plunges to one of those heights and feeds a positive yarn length |
| PatternCliProperties.MoveThenEmit | wove/pattern_cli/__init__.py:160-171 | updating the cursor to an allowed Z without losing extrusion and then emitting keeps the buffers aligned and extrusion monotone, and appends exactly one entry |
| PatternCliProperties.StitchStrokesKeepInv | wove/pattern_cli/__init__.py:240-256 | plunge, feed and raise append three commands, return to safe Z, feed the stitch's yarn length and leave X and Y alone, keeping the invariant |
| PatternCliProperties.StitchAtKeepsInv | wove/pattern_cli/__init__.py:238-264 | one stitch keeps the invariant and only appends, whether it completes or raises half-way |
| PatternCliProperties.StitchAtShape | wove/pattern_cli/__init__.py:238-264 | a stitch leaves the state untouched (plunge refused), stops after its three strokes (safe-Z or X check refused), or completes the advance |
| PatternCliProperties.StitchAtEffect | wove/pattern_cli/__init__.py:238-264 | a completed stitch appends four commands, advances X by the spacing, feeds the yarn length once and leaves Y; without a machine profile it cannot fail |
| PatternCliProperties.StitchesFromKeepInv | wove/pattern_cli/__init__.py:235-264 | the stitches of a line keep the invariant and only append, whether or not one raises |
| PatternCliProperties.StepsIsProduct | wove/pattern_cli/__init__.py:247-258 | adding a length n times one stitch at a time gives n times that length |
| PatternCliProperties.StitchesFromSteps | wove/pattern_cli/__init__.py:238-264 | the loop from stitch i completes by appending four commands per stitch left, with X and extrusion advanced once per stitch and Y unchanged; without a profile it cannot fail |
| PatternCliProperties.StitchLineEffect | wove/pattern_cli/__init__.py:235-264 | a stitch line with count n that completes is exactly n stitches: 4n commands, X advanced by n spacings, n yarn lengths fed, Y unchanged |
| PatternCliProperties.SafeHeightIdle | wove/pattern_cli/__init__.py:228-229 | at safe Z the raise does nothing |
| PatternCliProperties.SafeHeightRaises | wove/pattern_cli/__init__.py:228-233 | off safe Z and without a profile, the raise sets Z to safe height and emits one Z move |
| PatternCliProperties.MoveEffect | wove/pattern_cli/__init__.py:266-285 | fewer than two arguments fail with nothing changed; otherwise the line succeeds exactly when both values are finite, positive and within the limits, and then moves to them with one "reposition" command; more than two arguments are accepted |
| PatternCliProperties.PauseEffect | wove/pattern_cli/__init__.py:287-305 | succeeds exactly with one finite positive value; then one `G4` command with the milliseconds rounded half to even (within half a millisecond) and the seconds to three places, and the position untouched; a failure changes nothing |
| PatternCliProperties.TurnEffect | wove/pattern_cli/__init__.py:307-331 | more than one argument fails with nothing changed; otherwise succeeds exactly when the row height (6 mm when omitted) is finite and positive and X = 0 and the new Y are within the limits, and then moves to X 0 and Y plus the height with one command |
| PatternCliProperties.SafeHeightKeepsInv | wove/pattern_cli/__init__.py:228-233 | between lines the raise is idle |
| PatternCliProperties.MoveKeepsInv | wove/pattern_cli/__init__.py:266-285 | a MOVE line keeps the invariant and only appends, whether or not it raises |
| PatternCliProperties.PauseKeepsInv | wove/pattern_cli/__init__.py:287-305 | a PAUSE line keeps the invariant and only appends |
| PatternCliProperties.TurnKeepsInv | wove/pattern_cli/__init__.py:307-331 | a TURN line keeps the invariant and only appends, even when it raises after resetting X |
| PatternCliProperties.TurnStepShape | wove/pattern_cli/__init__.py:307-331 | from safe Z a turn leaves the state alone, only sets X to 0 (the Y check refused), or completes the move |
| PatternCliProperties.LineKeepsInv | wove/pattern_cli/__init__.py:112-135 | every pattern line keeps the invariant and only appends, whether or not it raises |
| PatternCliProperties.LinesKeepInv | wove/pattern_cli/__init__.py:112-135 | so does any run of lines |
| PatternCliProperties.ResetEstablishesInv | wove/pattern_cli/__init__.py:146-158 | the reset state satisfies the invariant |
| PatternCliProperties.ExtendedResetInvariants | wove/pattern_cli/__init__.py:146-171 | a state that keeps the invariant and extends the reset state has as many events as lines, begins with the preamble at the origin, only allowed Z heights, non-decreasing extrusion, and Z at safe height |
| PatternCliProperties.TranslateInvariants | wove/pattern_cli/__init__.py:108-171 | after any translation, successful or not: one event per line with the same command and comment, the preamble first at the origin, every snapshot's Z the safe height or a plunge depth, extrusion never decreasing, the needle ending at safe Z |
| PatternCliProperties.PlannerEventsAfterTranslate | wove/pattern_cli/__init__.py:138-142 | after a translation `planner_events` has one snapshot per emitted line, with that line's command and comment, and starts with the three snapshots of the reset preamble |
| PatternCliProperties.SkippedLineIsIdle | wove/pattern_cli/__init__.py:113-115 | a blank line or one starting with `#` after stripping changes nothing and cannot fail |
| PatternCliProperties.KeywordIgnoresCase | wove/pattern_cli/__init__.py:116-118 | lines with the same upper-cased keyword and the same arguments translate alike |
| PatternCliProperties.UnknownKeywordFails | wove/pattern_cli/__init__.py:133-135 | a keyword other than the four stitches, MOVE, PAUSE and TURN fails "Unknown command" with its line number and changes nothing |
| PatternCliProperties.StitchCountErrors | wove/pattern_cli/__init__.py:184-204 | a stitch line with no count, a non-integer count or a count ≤ 0 fails with the matching error and emits nothing |
| PatternCliProperties.LimitCheckNamesLine | wove/pattern_cli/__init__.py:173-182 | a limit error names the line passed in, or none for a missing axis |
| PatternCliProperties.StitchesErrorLine | wove/pattern_cli/__init__.py:235-264 | an error from a stitch line names that line, or no line |
| PatternCliProperties.MoveErrorLine | wove/pattern_cli/__init__.py:266-285 | an error from a MOVE line names that line, or no line (the raise's check passes none) |
| PatternCliProperties.TurnErrorLine | wove/pattern_cli/__init__.py:307-331 | likewise for TURN |
| PatternCliProperties.PauseErrorLine | wove/pattern_cli/__init__.py:287-305 | likewise for PAUSE |
| PatternCliProperties.CountErrorLine | wove/pattern_cli/__init__.py:184-204 | a count error names its line |
| PatternCliProperties.LineErrorNamesLine | wove/pattern_cli/__init__.py:112-135 | any error a line raises names that line's number, or no line at all |
| PatternCliProperties.FailureIndex | wove/pattern_cli/__init__.py:112-135 | the index of the first line that raises is at most the number of lines |
| PatternCliProperties.FirstErrorStops | wove/pattern_cli/__init__.py:112-136 | the lines before the first failing one all succeed; the result is that line's step on the state they left, with its own line number (skipped lines counted); with no failure the loop ends normally |
| PatternCliProperties.FirstLineFails | wove/pattern_cli/__init__.py:112-135 | when the first line raises, nothing ran before it and its step is the result |
| PatternCliProperties.FirstLineSucceeds | wove/pattern_cli/__init__.py:112-135 | when the first line succeeds, the first-failure statement holds for the whole run |
| PatternCliProperties.PrefixAfterFirst | wove/pattern_cli/__init__.py:112-135 | after a first line that succeeds, the failure index is one more than the rest's, and the first k + 1 lines run as the first line then k of the rest |
| PatternCliProperties.FailureShifts | wove/pattern_cli/__init__.py:112-135 | the failing line seen from the second line on is the same step on the same state with the same line number |
| SvgImport.StripNamespace | wove/pattern_cli/__init__.py:343-348 | a tag without `}` is returned as it is; otherwise the text after its first `}` |
| SvgImport.StripQualifiedName | wove/pattern_cli/__init__.py:343-348 | a qualified name `{uri}local` loses exactly its namespace part |
| SvgImport.ParsePointsAttribute | wove/pattern_cli/__init__.py:351-367 | the pair loop returns what `_parse_points_attribute` returns or raises: an odd token count is refused, the first bad number stops it |
| SvgImport.PairsFailureStays | wove/pattern_cli/__init__.py:359-365 | once a pair fails to parse, every longer run fails with the same error |
| SvgImport.PairsPrefixExactly | wove/pattern_cli/__init__.py:359-366 | the pairs parse exactly when every token parses as a float, and then point i is tokens 2i and 2i+1 |
| SvgImport.ParsedPointsCount | wove/pattern_cli/__init__.py:354-367 | an odd number of tokens fails "must contain coordinate pairs"; a parse that succeeds has half as many points as tokens |
| SvgImport.CommasAreSpaces | wove/pattern_cli/__init__.py:354 | replacing commas by spaces beforehand changes nothing: both separate coordinates alike |
| SvgImport.PointsFromSvg | wove/pattern_cli/__init__.py:370-390 | the element loop returns what `_points_from_svg` returns or raises |
| SvgImport.FirstShapeIsFirst | wove/pattern_cli/__init__.py:375-388 | a successful import returns the non-empty points of some polyline or polygon with points, and every such shape before it parsed to no points |
| SvgImport.FirstShapeIsLater | wove/pattern_cli/__init__.py:375-388 | when the first element contributes nothing, the search's result is found at a later element |
| SvgImport.NoShapeFails | wove/pattern_cli/__init__.py:375-390 | a document without a polyline or polygon carrying a non-empty points attribute fails "does not contain a polyline or polygon with points" |
| SvgImport.ClosedPolygonDropsRepeat | wove/pattern_cli/__init__.py:382-386 | a polygon of more than one point whose last point equals its first loses the last; a polyline keeps all its points |
| SvgImport.ScalePoints | wove/pattern_cli/__init__.py:404-408 | the first loop produces the scaled and offset points |
| SvgImport.MoveCommands | wove/pattern_cli/__init__.py:417-421 | the last loop writes one MOVE line per shifted point |
| SvgImport.PatternFromSvg | wove/pattern_cli/__init__.py:393-422 | returns what `_pattern_from_svg` returns or raises for the imported points |
| SvgImport.SeqMinShifted | wove/pattern_cli/__init__.py:409-416 | adding the same amount to every coordinate adds it to the least one |
| SvgImport.AdjustedClearsZero | wove/pattern_cli/__init__.py:409-421 | after the shift an axis whose least coordinate was ≤ 0 has least coordinate 0.001, any other keeps its least coordinate, and every coordinate is positive, as MOVE demands |
| SvgImport.AdjustedKeepsShape | wove/pattern_cli/__init__.py:404-420 | the shift moves whole axes: the difference between any two points is that of their scaled coordinates |
| SvgImport.SvgPatternLines | wove/pattern_cli/__init__.py:401-422 | an empty point list fails "did not provide any coordinates"; otherwise the pattern is one line per point, each starting "MOVE " |
| PlannerPayload.Entries | wove/pattern_cli/__init__.py:458-472 | one command entry per event |
| PlannerPayload.BuildPlannerPayload | wove/pattern_cli/__init__.py:445-512 | the commands loop, the bounds and the machine-axes loop return the payload `_planner_payload` builds, or nothing where `min` of the empty series raises |
| PlannerPayload.MachineAxes | wove/pattern_cli/__init__.py:500-510 | the loop over `sorted(machine_profile.axes)` lists each axis with its four fields in sorted name order |
| PlannerPayload.EntriesMirrorEvents | wove/pattern_cli/__init__.py:458-472 | entry i has index i, the command and comment of event i (comment present exactly when not None), and event i's four coordinates as its state |
| PlannerPayload.EnvelopeEncloses | wove/pattern_cli/__init__.py:454-496 | each axis's min and max are attained by some event and enclose every event, so min ≤ max |
| PlannerPayload.PayloadNeedsEvents | wove/pattern_cli/__init__.py:454-496 | there is a payload exactly when there is at least one event |
| PlannerPayload.ProfileAxesSorted | wove/pattern_cli/__init__.py:500-510 | the machine axes list every axis of the profile exactly once, in strictly ascending name order, each with its own microstepping, steps per mm and travel limits |
| PlannerPayload.ListedAxes | wove/pattern_cli/__init__.py:502-509 | a listing along strictly sorted names covering the axis table lists each axis once with its own entry |
| PlannerPayload.ProfileAxesListNames | wove/pattern_cli/__init__.py:502-509 | entry k of the listing is the k-th axis name in sorted order, with that axis's entry |
| PlannerPayload.EmptyCommentKeptByPayload | wove/pattern_cli/__init__.py:470-471 | an empty comment is kept by the payload entry (its test is `is not None`) but dropped by `as_dict` (its test is truthiness, at lines 39-43) |
| PlannerPayload.TranslationPayload | wove/pattern_cli/__init__.py:445-512 | every translation, even one that raised, has a payload with one entry per line; its Z tops out at the safe height and bottoms out at an allowed height, extrusion runs from 0 to the last snapshot's, and the origin lies inside the X and Y bounds |
| PlannerPayload.TranslationPreambled | wove/pattern_cli/__init__.py:108-171 | a translation's snapshots match its lines one for one, start at the origin at safe Z with no extrusion, keep Z allowed and extrusion rising |
| PlannerPayload.PreambleEnvelope | wove/pattern_cli/__init__.py:491-496 | the envelope of such snapshots has those properties |
| PlannerPayload.ExtrusionEnvelope | wove/pattern_cli/__init__.py:495 | with extrusion never decreasing, its bounds are the first and the last snapshot's |
| PlannerPayload.ZEnvelope | wove/pattern_cli/__init__.py:494 | with every Z allowed and the first at safe height, Z's maximum is the safe height and its minimum an allowed height |
| ViewerBounds.CoalesceKeysFirst | viewer/bounds.js:5-6 | a `??` chain yields the first key whose value is neither null nor undefined, or else the last key's value |
| ViewerBounds.CoalesceKeysNullish | viewer/bounds.js:5-6 | with every key null or undefined the chain is too |
| ViewerBounds.NormalizeAxisBounds | viewer/bounds.js:1-11 | a range exactly when the value is a truthy object whose lower and upper chains (min, min_mm, minimum, low; max, max_mm, maximum, high) coerce with `Number` to finite numbers with min ≤ max, and then those numbers |
| ViewerBounds.NormalizeNeedsObject | viewer/bounds.js:2-4 | only objects and arrays can normalise |
| ViewerBounds.NormalizeRejectsArray | viewer/bounds.js:5-9 | an array has none of the keys, so it never normalises |
| ViewerBounds.CoalesceFourKeys | viewer/bounds.js:5-6 | a four-key chain is the left-grouped `??` of the four lookups |
| ViewerBounds.NormalizeReadsFallbackKeys | viewer/bounds.js:5-10 | `{min_mm: a, max_mm: b}` with a ≤ b normalises to [a, b] |
| ViewerBounds.FallbackKeyEnds | viewer/bounds.js:5-6 | both ends of that object come from the second key of each chain |
| ViewerBounds.NullLowReadsAsZero | viewer/bounds.js:5-10 | a lower end given as `null` reads as 0, since `Number(null)` is 0 |
| ViewerBounds.NullLowEnds | viewer/bounds.js:5-6 | the lower chain of `{low: null, max: b}` ends at the null and the upper one at b |
| ViewerBounds.FirstBoundsIsFirst | viewer/bounds.js:30-36 | the candidate loop finds a range exactly when some candidate normalises, and then it is the first such |
| ViewerBounds.ResolveAxisBounds | viewer/bounds.js:25-37 | nothing for a side that is not a truthy object; otherwise the first candidate's normalised range |
| ViewerBounds.FiltersSnoc | viewer/bounds.js:56-73 | one more axis in the second pass adds at most that axis to the exceeding list and the details |
| ViewerBounds.TabulatesStep | viewer/bounds.js:41-42 | recording the next axis keeps the earlier entries, as axis keys are distinct |
| ViewerBounds.MissingSnoc | viewer/bounds.js:43-48 | one more axis adds at most that axis to a side's missing list |
| ViewerBounds.RecordAxis | viewer/bounds.js:41-48 | one side of one first-pass iteration records the axis's resolved range and notes it when missing |
| ViewerBounds.ResolveAxes | viewer/bounds.js:39-49 | the first pass tabulates both sides of every axis and collects each side's missing axes in axis order |
| ViewerBounds.CollectOverruns | viewer/bounds.js:53-73 | the second pass yields one detail per axis present on both sides and the overrunning axes, in order |
| ViewerBounds.CompareAxes | viewer/bounds.js:13-86 | the two passes and the summary flags give the comparison of the two sides over the axes |
| ViewerBounds.AxesKeysDistinct | viewer/bounds.js:14-19 | the four axes x, y, z, e have distinct keys |
| ViewerBounds.ComparePlannerToMachineBounds | viewer/bounds.js:13-86 | the comparison over x, y, z and e (e also found under `extrusion`) |
| ViewerBounds.MissingAxesExactly | viewer/bounds.js:39-49 | an axis is listed missing on a side exactly when that side's range does not resolve |
| ViewerBounds.MissingAxesAreKeys | viewer/bounds.js:39-49 | every missing key is the key of some axis |
| ViewerBounds.ExceedingAxesExactly | viewer/bounds.js:56-66 | an axis is listed as exceeding exactly when it resolves on both sides and the planner's range reaches below or above the machine's |
| ViewerBounds.ExceedingEarlierAxis | viewer/bounds.js:56-66 | the same holds for every axis but the last |
| ViewerBounds.ExceedingLastAxis | viewer/bounds.js:56-66 | and for the last |
| ViewerBounds.ExceedingAxesAreKeys | viewer/bounds.js:56-66 | every exceeding key is the key of some axis |
| ViewerBounds.DetailsAreBothSides | viewer/bounds.js:56-73 | each detail belongs to an axis present on both sides and carries both ranges and the two overrun flags |
| ViewerBounds.DetailsCoverBothSides | viewer/bounds.js:56-73 | every axis present on both sides has its detail |
| ViewerBounds.FitsExactly | viewer/bounds.js:51-75 | `fits` holds exactly when every axis resolves on both sides and the planner's range lies inside the machine's, ends included |
| ViewerBounds.NonObjectMissesEverything | viewer/bounds.js:25-49 | a side that is not a truthy object is missing every axis, in order |
| ViewerFeeds.ScanSnoc | viewer/src/feeds.js:12-36 | visiting one more event adds its index once if it is flagged, and makes its finite extrusion, if any, the previous one |
| ViewerFeeds.ComputeYarnFeedIndices | viewer/src/feeds.js:1-39 | the `forEach` scan into a set returns the flagged indices in visit order |
| ViewerFeeds.FeedsAscending | viewer/src/feeds.js:6-38 | the indices returned are positions of the array, strictly ascending, so none repeats |
| ViewerFeeds.FeedsExactly | viewer/src/feeds.js:13-33 | index i is returned exactly when event i is a truthy object whose string comment matches /feed/i, or whose finite extrusion exceeds the last finite extrusion seen before it by more than 0.01 |
| ViewerFeeds.PreviousWithoutExtrusion | viewer/src/feeds.js:10-26 | with no event carrying a finite extrusion, the previous extrusion stays the baseline |
| ViewerFeeds.PreviousIsLatest | viewer/src/feeds.js:22-35 | the previous extrusion is that of the last event with a finite one; later events without one leave it alone |
| ViewerFeeds.NoEventsNoFeeds | viewer/src/feeds.js:2-4 | a value that is not an array, or an empty array, has no feeds |
| ViewerFeeds.SmallRiseNotFlagged | viewer/src/feeds.js:22-33 | without a feed comment, a fall or a rise of at most 0.01 flags nothing |
| ViewerFeeds.MentionsFeedExactly | viewer/src/feeds.js:7-18 | a comment mentions a feed exactly when "feed" in some letter case occurs in it |
| ViewerFeeds.FirstRiseNeedsBaseline | viewer/src/feeds.js:10-33 | without a finite baseline the first event is flagged only by its comment |
| ViewerFormat.FormatFileSize | viewer/src/format.js:1-18 | `null` exactly when `Number(bytes)` is not a finite number ≥ 0; otherwise a label in bytes below 1024, kilobytes below 1024², megabytes from there on |
| ViewerFormat.SizeLabel | viewer/src/format.js:6-17 | the label's unit is the one its size range picks |
| ViewerFormat.LabelUnit | viewer/src/format.js:7-17 | a quantity followed by " B", " kB" or " MB" names that unit |
| ViewerFormat.BytesToNearest | viewer/src/format.js:6-11 | below 1 KiB the label is the whole number nearest the count, halves rounded up, then " B" |
| ViewerFormat.KilobytesToNearestTenth | viewer/src/format.js:15-17 | from 1 KiB to below 1 MiB the label is the count in KiB to the nearest tenth, halves rounded up, written with one decimal, then " kB" |
| ViewerFormat.MegabytesToTwoDecimals | viewer/src/format.js:12-14 | from 1 MiB up the label is the count in MiB written with two decimals, then " MB" |
| ViewerFormat.BytesExample | viewer/src/format.js:9-11 | 512 reads "512 B" |
| ViewerFormat.ZeroAndInvalidExamples | viewer/src/format.js:2-8 | 0 reads "0 B"; −5, NaN and undefined have no label |
| ViewerFormat.LargerExamples | viewer/src/format.js:12-17 | 1536 bytes read 1.5 kB; 1 MiB and 2.5 MiB read 1.00 and 2.50 MB |
| ViewerFormat.BytesRoundPastThreshold | viewer/src/format.js:9-11 | 1023.5 bytes read "1024 B": rounding comes after the unit is chosen |
| ViewerFormat.KilobytesRoundPastThreshold | viewer/src/format.js:15-17 | 1048575 bytes read 1024.0 kB rather than in megabytes |
| Numbers.SeqMin | wove/pattern_cli/__init__.py:456 | Python's `min` of a non-empty series is an element of it and no element is below it |
| Numbers.SeqMax | wove/pattern_cli/__init__.py:456 | `max` is an element and no element is above it |
| Numbers.RoundHalfEven | wove/pattern_cli/__init__.py:303 | Python's `round` gives an integer within 0.5 of the value, the even one on a tie |
| Numbers.RoundHalfEvenUnique | wove/pattern_cli/__init__.py:303 | those two properties determine the rounded value |
| Numbers.RoundHalfUp | viewer/src/format.js:10-16 | `Math.round` gives the integer n with n − 0.5 ≤ value < n + 0.5 |
| Numbers.IsCloseToZero | scripts/pattern_visualize.py:28-29 | with `isclose`'s default tolerances only 0 is close to 0 |
| Numbers.IsCloseSameSign | scripts/pattern_visualize.py:28-29 | close values have the same sign |
| Text.StripEnds | wove/pattern_cli/__init__.py:113 | what `strip()` leaves neither starts nor ends with whitespace and is no longer than the input |
| Text.TrimLeftDropsSpace | wove/pattern_cli/__init__.py:113 | the left trim drops exactly a leading run of whitespace |
| Text.TrimRightDropsSpace | wove/pattern_cli/__init__.py:113 | the right trim drops exactly a trailing run of whitespace |
| Text.Split | wove/pattern_cli/__init__.py:116-118 | `split()` yields non-empty tokens without whitespace; the first token of text not starting with whitespace is its leading run; text without whitespace is one token |
| Text.SplitLines | wove/pattern_cli/__init__.py:112 | `splitlines()` yields lines without line boundaries, and none exactly for the empty source |
| Text.SplitRebuilds | wove/pattern_cli/__init__.py:116-118 | the tokens of `split()`, with runs of whitespace between them and optionally at either end, give the text back: no character is lost or invented, and tokens are split only at whitespace |
| Text.SplitLinesRebuilds | wove/pattern_cli/__init__.py:112 | the lines of `splitlines()`, each followed by the boundary that ended it, give the source back; every line but the last ends at a boundary, the last at a boundary or at the end of the text, and "\r\n" is one boundary, never "\r" then an empty line |
| Text.LineBreakIsSpace | wove/pattern_cli/__init__.py:112-113 | every line boundary is whitespace |
| Text.UpperIdempotent | wove/machine_profile.py:59 | upper-casing twice changes nothing more |
| Text.StripLowerIdempotent | wove/units/__init__.py:61 | normalising a normalised name changes nothing |
| Text.ContainsPieceExactly | viewer/src/feeds.js:18 | the substring scan succeeds exactly when the piece occurs at some offset |
| Sorting.SortedSet | wove/pattern_cli/__init__.py:502 | `sorted` of a set of names lists each name exactly once, strictly ascending |
| Sorting.SortedSetUnique | wove/units/__init__.py:112 | any strictly ascending listing of a set is the one `sorted` returns |
| Sorting.LexLessTotal | wove/pattern_cli/__init__.py:502 | Python's string order is total |
| Sorting.LexLessTransitive | wove/pattern_cli/__init__.py:502 | and transitive |

## Left out

- `main`, `_write_output`, `_load_pattern` and `load_machine_profile`: file reading, JSON and YAML parsing, argument parsing and writing output are I/O. They are not modelled; the model starts from the parsed values.
- `_points_from_svg`: XML parsing is replaced by a sequence of `Element(tag, points)` values, one per element of the parsed tree in document order. Malformed XML (the parser's own exception) is therefore not modelled.
- Python's `int()` and `float()` on strings, `:.2f`/`:.3f` formatting with `repr`, and JavaScript's `Number()` on strings and arrays and `toFixed` are fields of the `Runtime` and `JsRuntime` values. Their one stated property is that parsing may fail; decimal rendering is not modelled.
- Floats are mathematical reals. Rounding error, and overflow to infinity in sums and differences, are not modelled. For example, in `computeYarnFeedIndices` the difference of two huge finite extrusions can overflow to ±Infinity; `Number.isFinite(delta)` then suppresses the flag, where the model would flag it. NaN and the infinities are modelled only where a value is a `Float`: the machine-profile travel limits (a limit `float()` reads as "nan" or "inf"), the values given to the unit conversions, the wraps-per-inch figure of the tension estimate, the numbers the translator parses (and refuses unless finite), the parsed SVG points, and the JavaScript values of the viewer helpers.
- Gauge.Quotient: takes its arguments as reals, so NaN and infinite arguments are not modelled. In Python a NaN length passes `_validate_positive`, because `nan <= 0` is false, and the gauge is then NaN; an infinite length gives 0.0. The contract's positive quotient holds only for finite arguments.
- PatternVisualize.EnsureRange: takes its series as reals, so NaN and infinite values are not modelled. The same holds for PatternVisualize.ScaleLinear.
- SvgImport.PatternFromSvg: takes its points as reals. An SVG coordinate that `float()` reads as NaN or infinity is not carried through the scaling and shifting.
- Text.ToUpper: maps ASCII letters only, as does Text.ToLower. Unicode case mapping (`'ß'.upper()`, for example) is not modelled. Whitespace and line boundaries are not affected: they follow Python's full character sets.
- MachineProfiles.FloatOf: `float()` of an integer too large for a double raises OverflowError, which `_coerce_float` does not catch. The model reads every integer as a finite value.
- Python dictionaries are sequences of key/value pairs in insertion order. Keys are strings, so `str(raw_name)` on a non-string key in `_machine_profile_from_mapping` is not modelled.
- PatternCli.PatternTranslator.PlannerEvents: the `planner_events` property returns a copy of the buffer. The model returns the sequence value, which cannot be aliased anyway.
- PlannerPayload.BuildPlannerPayload: `None` stands for the `ValueError` that `min()` raises on an empty event list. The exception's message is not modelled.
- `build_stl`, the stale module file `wove/pattern_cli.py`, and the viewer's DOM, canvas and UI code are not part of this model.
- `_timeline_chart`, `generate_previews`, `_load_patterns`, `parse_args` and `main` of `scripts/pattern_visualize.py` are not part of this model (SVG text assembly and file I/O). Only `_ensure_range`, `_scale_linear` and the empty-events fallback of `_xy_chart` are modelled.
- Exception types appear as constructors of per-module error datatypes. Message texts are modelled where a contract names them, such as the line number in a translator error.

## Notes on the sources

Where the code and its description disagree, the model follows the code:

- MOVE: the description asks for exactly two arguments. The code only rejects fewer than two (`len(arguments) < 2`), so `MOVE 1 2 3` moves to (1, 2).
- MOVE and TURN: the description raises to safe height "before moving". The code raises before it parses its arguments. The raise is a no-op between command lines, since Z is back at safe height after every command.
- Stitch lines: the raise to safe height is emitted before its Z target is checked against the machine profile. TURN sets X to 0 before Y is checked, so a failing Y check leaves X at 0 in the half-updated state.
- Comments: `GCodeLine.as_dict` drops an empty comment, because its test is truthiness. `_planner_payload` keeps any comment that is not `None`. `PlannerPayload.EmptyCommentKeptByPayload` shows the two disagree on `""`.
- `normalizeAxisBounds` picks each bound with JavaScript's `??`: the first of its keys that is neither `null` nor `undefined`. When only the last key (`low` or `high`) is present and it is `null`, `Number(null)` makes that bound 0, not a rejection (`ViewerBounds.NullLowReadsAsZero`).
- `formatFileSize` picks the unit before it rounds. So 1023.5 bytes read "1024 B", and 1048575 bytes read 1024.0 kB (`ViewerFormat.BytesRoundPastThreshold`, `ViewerFormat.KilobytesRoundPastThreshold`).
- `estimate_tension_for_wpi`: NaN passes every guard and brackets no pair of midpoints, so it returns the lightest weight's 20 g (`Tension.EstimateOfNaN`).
