# CVSS v3.1 calculator — a verified model

This project models the core of `score::CVSS`, a header-only C++ port of the
reference CVSS v3.1 calculator. It covers the calculator's two entry points:

- `calculateCVSSFromMetrics` takes the 22 metric values. It checks that every
  Base metric is defined, then checks every value against the weight table,
  gathers the weights, and computes the Base, Temporal and Environmental
  scores with their severities. It also serialises the metrics back into a
  vector string.
- `calculateCVSSFromVector` checks a `CVSS:3.1/...` vector string against the
  vector grammar. It splits the string on `/`, records each `name:value`
  token in a map that detects redefinitions, and passes the values it found
  to the first entry point.

Both return a `ResultT` record. The model is in nine modules, one per concern
of the header:

| module | file | models |
|---|---|---|
| `Schema` | schema.dfy | the 22 metric names and their canonical order; the `Weight` table as a total lookup |
| `Rounding` | rounding.dfy | `roundUp1` over exact reals |
| `Severity` | severity.dfy | `severityRatings` and `severityRating` |
| `VectorSyntax` | vector_syntax.dfy | the vector grammar (written by hand in place of the regular expression) and the `getline` split on `/` |
| `Assignment` | assignment.dfy | the 22 metric values and the vector-string serialiser |
| `Validation` | validation.dfy | the missing-Base-metric and unknown-value checks, with their `push_back` lists |
| `Formulas` | formulas.dfy | weight gathering and the Base, Temporal and Environmental formulas |
| `Parsing` | parsing.dfy | the token loop that fills `metricValues` and collects redefinitions |
| `Cvss` | cvss.dfy | `ResultT`, both entry points, and the end-to-end properties |

Each imperative part of the source is a method proved against a function that
specifies it:

| method | specified by | models |
|---|---|---|
| `Validation.CollectMissing` | `MissingBase` | the `push_back` list of undefined Base metrics |
| `Validation.CollectUnknown` | `Unknown` | the list of invalid values |
| `Assignment.BuildVectorString` | `VectorString` | the appends that build the vector string |
| `VectorSyntax.SplitOnSlash` | `Split` | the `getline` loop |
| `Parsing.TallyTokens` | `TallyOf` | the token loop |
| `Cvss.WriteListing` | `Listing` | the `", "`-joined error message |

The formulas, rounding and severity are pure functions.

The header's quirks are kept as it has them, and the lemmas state them:

- A value counts as valid when its weight is not 0.0, so `C`, `I` or `A` set to
  `N` (weight 0) is reported as an unknown value.
- The weight table has no entries for the Environmental requirement and
  modified metrics, so every value other than `X` for them is rejected.
- The token map starts with `"X"` for every Temporal and Environmental
  metric. A vector that names any of them therefore fails with
  `MultipleDefinitionsOfMetric`, and a result whose vector string carries
  one does not parse back (`Cvss.TemporalNotReparsed`).
- `PR:U` passes the grammar and is then rejected as an unknown value.
- A lookup of a name or code missing from the weight table yields 0.0, as
  `std::map::operator[]` does.
- `severityRatings` is a `std::map` and so is scanned alphabetically. The
  bands are disjoint, so the order does not change any rating
  (`Severity.ScanOrderIrrelevant`).

## Model

| member | source | states |
|---|---|---|
| Schema.CanonicalOrder | src/score/cvss.h:405-433 | the 22 metrics have distinct positions 0..21 in serialisation order; the Base metrics are exactly the first eight, in order |
| Schema.NameInjective | src/score/cvss.h:185-192 | distinct metrics have distinct names, so an error listing names each metric unambiguously |
| Schema.Weight | src/score/cvss.h:81-97 | the weight table as a total lookup by table and code, 0.0 where `operator[]` finds no entry; its bounds are stated by `Schema.WeightBounds` |
| Schema.WeightBounds | src/score/cvss.h:81-97 | every weight-table lookup lies in [0, 7.52] and is a whole number of hundredths; absent entries read 0.0 |
| Rounding.RoundHalfAway | src/score/cvss.h:569-581 | C `round`: the result is within one half of the input, with halves rounded away from zero |
| Rounding.Tenths | src/score/cvss.h:569-581 | the result counted in tenths is the least number of tenths not below the input rounded to 100000ths |
| Rounding.RoundUp1 | src/score/cvss.h:569-581 | `roundUp1` always returns a whole number of tenths, namely `Tenths(x)/10` |
| Rounding.ExactTenths | src/score/cvss.h:569-581 | a whole number of tenths is returned unchanged |
| Rounding.RoundUp1Idempotent | src/score/cvss.h:569-581 | rounding a rounded value again changes nothing |
| Rounding.RoundHalfAwayMonotone | src/score/cvss.h:569-581 | C `round` preserves order |
| Rounding.RoundUp1Monotone | src/score/cvss.h:569-581 | `roundUp1` preserves order |
| Rounding.SixthDecimal | src/score/cvss.h:551-568 | the documented examples: 0.000001 rounds to 0.0 and 0.000009 to 0.1 |
| Rounding.RoundUp1Range | src/score/cvss.h:569-581 | inputs in [0, 10] give results in [0, 10] |
| Rounding.RoundUp1NotBelow | src/score/cvss.h:569-581 | the result is never below the input by more than half a 100000th |
| Severity.FirstBand | src/score/cvss.h:602-610 | the scan returns the first band containing the score, or "undefined" when no band contains it |
| Severity.SeverityRating | src/score/cvss.h:593-611 | a negative score (one that is not an unsigned decimal) is "NaN"; otherwise "undefined" exactly when no band contains the score |
| Severity.UniqueBand | src/score/cvss.h:602-610 | in a table of disjoint bands the scan returns the one band containing the score, wherever it sits |
| Severity.ScanOrderFree | src/score/cvss.h:602-610 | two disjoint tables with the same bands rate every score alike |
| Severity.TablesDisjoint | src/score/cvss.h:99-107 | no score lies in two severity bands |
| Severity.ScanOrderIrrelevant | src/score/cvss.h:99-107 | scanning the bands alphabetically gives the same rating as scanning them in declared order |
| Severity.SeverityOfTenths | src/score/cvss.h:593-611 | 0.0 is None, 0.1-3.9 Low, 4.0-6.9 Medium, 7.0-8.9 High, 9.0-10.0 Critical, above 10.0 undefined, negative NaN |
| Severity.BetweenBands | src/score/cvss.h:99-107 | a score between two bands, such as 3.95 or 0.05, is rated "undefined" |
| VectorSyntax.IndexOf | src/score/cvss.h:517-518 | `find`: the first position holding the character, or the length when it is absent |
| VectorSyntax.IsVectorString | src/score/cvss.h:138-145 | the recognizer that replaces `vectorStringRegex`; its language is stated by `VectorSyntax.VectorGrammar` |
| VectorSyntax.Split | src/score/cvss.h:508-512 | the parts the `getline` loop yields; its round trips with `Join` are `VectorSyntax.SplitJoin` and `VectorSyntax.JoinSplit` |
| VectorSyntax.TokenName | src/score/cvss.h:517 | the name part of a token contains no ':' |
| VectorSyntax.TokenValue | src/score/cvss.h:518 | name, ':' and value rebuild the token; a token without ':' is its own value (npos + 1 wraps to 0) |
| VectorSyntax.TokenShape | src/score/cvss.h:138-145 | a token the grammar accepts has a known metric name and a one-letter value from that metric's letter class |
| VectorSyntax.TokenOf | src/score/cvss.h:138-145 | `name:code` is a token exactly when the code is one letter of the metric's class, and it splits back into that name and code |
| VectorSyntax.SplitJoin | src/score/cvss.h:508-512 | splitting a '/'-join of non-empty slash-free parts returns those parts |
| VectorSyntax.JoinSplit | src/score/cvss.h:508-512 | joining the parts of a split of a string that does not end in '/' rebuilds it, and there is at least one part |
| VectorSyntax.VectorGrammar | src/score/cvss.h:138-145 | a string is a vector exactly when it is the prefix followed by one or more grammar tokens joined by '/' |
| VectorSyntax.AcceptJoin | src/score/cvss.h:138-145 | the prefix followed by joined tokens is accepted, and its split returns the tokens |
| VectorSyntax.SplitOnSlash | src/score/cvss.h:508-512 | the `getline` loop computes `Split`, with no trailing empty part |
| Assignment.BaseOnly | tests/score/test.cvss.cpp:34-41 | a call with only the eight Base values leaves every other metric at "X" |
| Assignment.FieldsConcat | src/score/cvss.h:405-433 | the serialised fields of a concatenated metric list are the concatenation of the fields |
| Assignment.AppendsConcat | src/score/cvss.h:405-433 | appending two lists of fields appends their texts |
| Assignment.VectorString | src/score/cvss.h:405-433 | the serialised vector string; its shape is stated by `Assignment.VectorStringJoin` and `Cvss.SuccessVector` |
| Assignment.VectorStringJoin | src/score/cvss.h:405-433 | the vector string is the prefix followed by the '/'-join of the included fields in canonical order |
| Assignment.AppendBase | src/score/cvss.h:408-417 | appending a Base field extends the serialisation by that field |
| Assignment.AppendOptional | src/score/cvss.h:419-433 | an optional metric is appended exactly when its value is not "X" |
| Assignment.BuildVectorString | src/score/cvss.h:405-433 | the appends build exactly `VectorString(m)` |
| Validation.MissingIn | src/score/cvss.h:185-192 | a metric is listed exactly when it is one of those checked and its value is "undefined" or empty |
| Validation.Names | src/score/cvss.h:185-192 | the names listed correspond one to one, in order, with the metrics flagged |
| Validation.MissingBase | src/score/cvss.h:185-192 | the Base metrics flagged as missing; characterised by `Validation.MissingBaseExactly` |
| Validation.CheckTable | src/score/cvss.h:249-272 | the table each value is checked in: PRU for PR, CIA for C, I and A, the metric's own name otherwise (absent for the Environmental metrics) |
| Validation.ValidValue | src/score/cvss.h:249-272 | the value check: a non-zero weight in the checked table, or "X" for an Environmental metric; its accepted codes are stated by `Validation.ValidValueCodes` |
| Validation.Unknown | src/score/cvss.h:249-272 | the metrics flagged with unknown values; characterised by `Validation.UnknownExactly` |
| Validation.Listing | src/score/cvss.h:194-202 | the error message, each name followed by ", "; it determines the list (`Validation.ListingInjective`) |
| Validation.ValidValueCodes | src/score/cvss.h:249-272 | a value is valid exactly when it is one of the codes with a non-zero weight (PR checked in the Unchanged table; X, or nothing else, for requirement and modified metrics) |
| Validation.MissingInConcat | src/score/cvss.h:185-192 | checking two lists one after the other lists the missing metrics of both, in order |
| Validation.InvalidInMembers | src/score/cvss.h:249-272 | a metric is listed invalid exactly when it is checked and its value is not valid |
| Validation.InvalidInConcat | src/score/cvss.h:249-272 | checking two lists one after the other lists the invalid metrics of both, in order |
| Validation.MissingInOrder | src/score/cvss.h:185-192 | missing metrics are listed in canonical order |
| Validation.InvalidInOrder | src/score/cvss.h:249-272 | invalid metrics are listed in canonical order |
| Validation.MissingBaseExactly | src/score/cvss.h:185-192 | the missing list holds exactly the undefined Base metrics, in order |
| Validation.UnknownExactly | src/score/cvss.h:249-272 | the unknown-value list holds exactly the metrics with invalid values, in order |
| Validation.ListingInjective | src/score/cvss.h:194-202 | the ", "-joined message determines the list of flagged metrics |
| Validation.ListingHead | src/score/cvss.h:194-202 | the message starts with the first flagged name followed by ", " |
| Validation.MissingStep | src/score/cvss.h:185-192 | one `push_back` check turns `Names(MissingIn(m, done))` into `Names(MissingIn(m, done + [id]))`, appending the name exactly when the value is undefined or empty |
| Validation.CollectMissing | src/score/cvss.h:179-192 | the eight checks push exactly the names of the missing Base metrics |
| Validation.InvalidStep | src/score/cvss.h:249-272 | one validity check turns `Names(InvalidIn(m, done))` into `Names(InvalidIn(m, done + [id]))`, appending the name exactly when the value is not valid |
| Validation.CheckBaseValues | src/score/cvss.h:249-256 | the Base checks push the names of the Base metrics with invalid values |
| Validation.CheckTemporalValues | src/score/cvss.h:258-260 | the Temporal checks push the names of the Temporal metrics with invalid values |
| Validation.CheckRequirementValues | src/score/cvss.h:262-264 | the requirement checks push the names of CR, IR and AR when they are invalid |
| Validation.CheckModifiedValues | src/score/cvss.h:265-272 | the modified-metric checks push the names of the modified metrics with invalid values |
| Validation.CollectUnknown | src/score/cvss.h:249-272 | the 22 checks push exactly the names of the metrics with invalid values |
| Formulas.PrivilegeWeight | src/score/cvss.h:292-310 | the PR weight, looked up in the table chosen by Scope, is at most 0.85 |
| Formulas.GatherWeights | src/score/cvss.h:288-315 | the 22 weights of one call; how each is resolved is stated by `Formulas.GatherWeightsResolution` |
| Formulas.GatherWeightsResolution | src/score/cvss.h:290-315 | PR is read from PRU when S is U and from PRC when S is C; MPR from the table of MS, or of S when MS is "X"; each Modified metric left "X" weighs what its Base metric weighs, and one that is set is looked up itself; E, RL, RC, CR, IR and AR left "X" weigh 1.0 |
| Formulas.Iss | src/score/cvss.h:326 | the Impact Sub-Score; bounded by `Formulas.IssBound` |
| Formulas.Impact | src/score/cvss.h:328-335 | the impact, with the degree-15 correction when Scope is changed |
| Formulas.Exploitability | src/score/cvss.h:337 | 8.22 times the four exploitability weights; non-negative by `Formulas.ExploitabilityNonNegative` |
| Formulas.BaseScore | src/score/cvss.h:339-353 | 0 for a non-positive impact, else the capped sum (times 1.08 when Scope is changed) rounded up; range stated by `Formulas.BaseScoreRange` |
| Formulas.TemporalScore | src/score/cvss.h:357 | the Base score times E, RL and RC, rounded up; range stated by `Formulas.TemporalScoreRange` |
| Formulas.Miss | src/score/cvss.h:373-376 | the Modified Impact Sub-Score capped at 0.915; equal to ISS without requirements by `Formulas.MissWithoutRequirements` |
| Formulas.ModifiedImpact | src/score/cvss.h:378-386 | the modified impact, with the 0.9731 scaling and degree-13 correction when the effective Modified Scope is changed |
| Formulas.EnvironmentalScore | src/score/cvss.h:388-403 | 0 for a non-positive modified impact, else the rounded capped modified sum weighted by E, RL and RC and rounded again; range stated by `Formulas.EnvironmentalScoreRange` |
| Formulas.GatheredBounded | src/score/cvss.h:288-315 | every gathered weight lies in its table's range: non-negative, C/I/A and their modified weights at most 0.56, Temporal weights at most 1, requirement weights at most 1.5 |
| Formulas.Min | src/score/cvss.h:347 | `std::min`: not above either argument and equal to one of them |
| Formulas.ExploitabilityNonNegative | src/score/cvss.h:337 | exploitability is never negative |
| Formulas.CappedScore | src/score/cvss.h:339-352 | a score capped at 10 and rounded up lies in [0, 10] and is already rounded |
| Formulas.BaseScoreRange | src/score/cvss.h:326-353 | the Base score lies in [0, 10] and is a whole number of tenths |
| Formulas.TemporalScoreRange | src/score/cvss.h:357 | the Temporal score lies between 0 and the Base score |
| Formulas.TemporalNotDefined | src/score/cvss.h:357 | with E, RL and RC not defined the Temporal score equals the Base score |
| Formulas.EnvironmentalScoreRange | src/score/cvss.h:390-403 | the Environmental score lies in [0, 10] |
| Formulas.ScoresRange | src/score/cvss.h:288-403 | for every metric assignment: Base in [0, 10] and rounded, Temporal between 0 and Base, Environmental in [0, 10] |
| Formulas.IssBound | src/score/cvss.h:326 | ISS lies in [0, 0.914816] |
| Formulas.MissWithoutRequirements | src/score/cvss.h:373-376 | with every requirement at 1.0, MISS equals ISS |
| Formulas.EnvironmentalOfBase | src/score/cvss.h:390-403 | with Scope unchanged the Environmental score is the Temporal formula applied to the rounded capped sum |
| Formulas.UndefinedEnvironmentalWeights | src/score/cvss.h:305-315 | with every Environmental metric "X", the requirements weigh 1.0 and each modified weight equals its Base weight |
| Formulas.EnvironmentalMatchesTemporal | src/score/cvss.h:288-403 | with every Environmental metric "X" and Scope Unchanged, MISS, the modified impact and exploitability equal their Base counterparts and the Environmental score equals the Temporal score |
| Formulas.UnchangedBase | src/score/cvss.h:345-348 | the Scope-Unchanged Base score is the tenth that bounds the rounded sum of exploitability and impact |
| Formulas.PhysicalHighComplexityExample | tests/score/test.cvss.cpp:34-35 | P/H/L/N/U/L/L/H scores 5.1 |
| Formulas.PhysicalLowComplexityExample | tests/score/test.cvss.cpp:37-38 | P/L/L/N/U/L/L/H scores 5.4 |
| Formulas.PhysicalHighImpactExample | tests/score/test.cvss.cpp:40-41 | P/L/L/N/U/H/H/H scores 6.6 |
| Parsing.TallyTokens | src/score/cvss.h:515-528 | the token loop computes `TallyOf`: the value map and the redefinition list |
| Parsing.Lookup | src/score/cvss.h:520-522 | `metricValues[name]` as a read: the stored value, or "" for a name not in the map |
| Parsing.Record | src/score/cvss.h:517-527 | one pass of the loop: a name still "undefined" takes the token's value, any other is reported; its meaning is stated by `Parsing.RecordStep` |
| Parsing.TallyOf | src/score/cvss.h:482-528 | the map and bad list after the loop, starting from `Parsing.Initial` (Base names "undefined", the rest "X"); characterised by `Parsing.TallyMeaning` |
| Parsing.FirstValueUndefined | src/score/cvss.h:482-490 | over grammar tokens, the first value for a name is "undefined" exactly when no token names it |
| Parsing.RecordStep | src/score/cvss.h:520-527 | recording one more token keeps the map describing the tokens read: first values for Base names, "X" for the others, and the redefinitions so far |
| Parsing.TallyMeaning | src/score/cvss.h:482-528 | after the loop every Base name maps to its first value, every other name to "X", and the bad list is the redefinitions |
| Parsing.RedefinitionsExactly | src/score/cvss.h:520-527 | a name is listed as bad exactly when some token redefines it |
| Parsing.OptionalRedefines | src/score/cvss.h:482-490 | any token naming a Temporal or Environmental metric is reported as a redefinition |
| Cvss.WriteListing | src/score/cvss.h:196-197 | the stream copy writes each name followed by ", " |
| Cvss.Failure | src/score/cvss.h:53-79 | a failed `ResultT`: success false, the error type and message, every other field zero or empty |
| Cvss.Result.Succeeded | src/score/cvss.h:77 | `operator bool`: the success flag; when it holds is stated by `Cvss.MetricsOutcome` |
| Cvss.Result.Below | src/score/cvss.h:78 | `operator<`: comparison of Base scores alone; see `Cvss.FailureSortsFirst` |
| Cvss.FromMetrics | src/score/cvss.h:151-461 | the result of `calculateCVSSFromMetrics`; characterised by `Cvss.MetricsOutcome`, `Cvss.SuccessScores` and `Cvss.SuccessBaseValues` |
| Cvss.FromVector | src/score/cvss.h:480-548 | the result of `calculateCVSSFromVector`; characterised by `Cvss.VectorErrors`, `Cvss.VectorDeclares`, `Cvss.RoundTrip` and `Cvss.CanonicalVectorUnchanged` |
| Cvss.MetricNames | src/score/cvss.h:482-490 | the names the grammar and the map of metric values know are exactly the 22 metric names, and a name starts "undefined" exactly when it names a Base metric |
| Cvss.CalculateCVSSFromMetrics | src/score/cvss.h:151-461 | the method computes `FromMetrics(m)` |
| Cvss.CalculateCVSSFromVector | src/score/cvss.h:480-548 | the method computes `FromVector(s)` |
| Cvss.MissingBaseEmpty | src/score/cvss.h:185-194 | no Base metric is missing exactly when all eight are defined |
| Cvss.UnknownEmpty | src/score/cvss.h:249-275 | no value is unknown exactly when all 22 are valid |
| Cvss.MetricsOutcome | src/score/cvss.h:77 | success (`operator bool`) exactly when every Base metric is defined and every value is valid; the missing check takes precedence; each error message lists the flagged names |
| Cvss.FailureCarriesNoScores | src/score/cvss.h:53-79 | a failed result is `Failure(errorType, errorMessage)`: every score and sub-score zero, every severity and the vector string empty, an empty value map; and its message is non-empty |
| Cvss.MetricsErrorType | src/score/cvss.h:151-461 | the metrics entry point reports no error, MissingBaseMetric or UnknownMetricValue, and nothing else |
| Cvss.RatedScore | src/score/cvss.h:593-611 | every rounded score in [0, 10] gets one of the five ratings |
| Cvss.TemporalWhole | src/score/cvss.h:357 | the Temporal score is a whole number of tenths |
| Cvss.EnvironmentalWhole | src/score/cvss.h:390-403 | the Environmental score is a whole number of tenths |
| Cvss.SuccessScores | src/score/cvss.h:435-461 | a successful result has every score in range and every severity one of the five ratings |
| Cvss.SuccessBaseValues | src/score/cvss.h:435-461 | a successful result maps exactly the eight Base names to their values |
| Cvss.FailureSortsFirst | src/score/cvss.h:78 | `operator<`: no result orders below a failure, whose score is 0 |
| Cvss.AcceptedLetters | src/score/cvss.h:138-145 | every code the validator accepts is one letter that the grammar allows for that metric |
| Cvss.ValidToken | src/score/cvss.h:405-433 | a valid value serialises to a grammar token that reads back as its name and value |
| Cvss.SuccessVector | src/score/cvss.h:405-433 | a successful result's vector string is accepted by the grammar and splits into the included fields |
| Cvss.ReadBack | src/score/cvss.h:515-528 | the eight Base tokens of a serialisation contain no redefinition and read back to the metrics |
| Cvss.MetricsOfLookups | src/score/cvss.h:542-548 | the values passed on are the map's entries for the 22 names |
| Cvss.RoundTrip | src/score/cvss.h:405-548 | a successful result with no optional metric parses back from its own vector string to the same result |
| Cvss.CanonicalVectorUnchanged | src/score/cvss.h:405-548 | a recognised vector string whose tokens are the eight Base metrics, once each in canonical order, and which scores successfully comes back unchanged as the result's vector string |
| Cvss.OptionalTokenRefused | src/score/cvss.h:482-540 | a vector naming any Temporal or Environmental metric fails with MultipleDefinitionsOfMetric, and that name is listed |
| Cvss.TemporalNotReparsed | src/score/cvss.h:419-540 | a successful result that carries an optional metric does not parse back from its own vector string |
| Cvss.VectorDeclares | src/score/cvss.h:482-548 | a well-formed vector without redefinitions scores as the metrics it declares, the others not defined |
| Cvss.VectorErrors | src/score/cvss.h:496-540 | MalformedVectorString with an empty message exactly when the grammar rejects the string; otherwise MultipleDefinitionsOfMetric exactly when a token redefines a name |
| Cvss.BaseOnlyValid | src/score/cvss.h:185-272 | eight accepted Base codes with no optional metric always succeed |
| Cvss.VectorExample | tests/score/test.cvss.cpp:48 | CVSS:3.1/AV:P/AC:H/PR:L/UI:N/S:U/C:L/I:L/A:H scores 5.1, Medium, and its result's vector string is the input itself |

## Left out

- Floating point: the scores are computed over exact reals. `std::pow` with an integer exponent and `std::min` are modelled exactly, and the IEEE-754 representation error that `roundUp1` guards against is not modelled.
- Severity.SeverityRating: the rendering of the score through a string stream and the regular expression test are reduced to "negative means NaN". The text of NaN, infinities and -0.0 is not modelled.
- The regular expression engine: the vector grammar is a hand-written recognizer with the same language as `vectorStringRegex`.
- `generateJSONFromVector` and the `baseMetricsValueNames` table it uses: these only format a result as JSON text.
- Console output of the test driver.
- Writes to the weight table: `Weight[t][v]` with an absent key inserts a 0.0 entry into the static map. The model reads 0.0 and leaves the table unchanged. The inserted entries are themselves 0.0, so no later lookup changes.
- `metricValues[name]` inserts an entry for a name missing from the map. The model does this too (`Parsing.Lookup`, `Parsing.Record`, `Parsing.TallyTokens` write back the stored value, or "" for an absent name). No name the grammar accepts is ever missing, so the insertion cannot be observed.
- The default arguments of `calculateCVSSFromMetrics` are not modelled as such: the model always takes all 22 values, and `Assignment.BaseOnly` builds the values for a call that passes only the Base metrics.
