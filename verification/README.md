# pyphysim simulations core, modelled in Dafny

This project models two parts of pyphysim's `simulations` package.

**The integer path of the configuration validators**
(`pyphysim/simulations/configobjvalidation.py`):
- the range-expression parser `_parse_int_range_expr`;
- `integer_numpy_array_check` on strings, bracketed lists and lists of strings;
- `integer_scalar_or_integer_numpy_array_check`.

**The parameter-sweep engine, as its test suite pins it down**
(`tests/simulations_package_test.py`):
- `SimulationParameters`: named parameters, some of them marked for unpacking. They span a grid of variations, indexed in mixed radix, and `get_pack_indexes` maps fixed values back to indexes.
- `Result`: SUMTYPE, RATIOTYPE and MISCTYPE accumulators. They have update counts, running sums and optional sample history. `merge` combines two of them.
- `SimulationResults`: results by name, with the operations `add_result`, `append_result`, `append_all_results`, `merge_all_results` and `get_result_values_list`, plus equality.
- The pure rules of `SimulationRunner`:
  - the results filename template;
  - the file a single-variation run writes;
  - the refusal to resume from partial results saved with other parameters;
  - the repetition loop with its `_keep_going` predicate.
- The progress aggregation of `ProgressbarMultiProcessServer` and `ProgressbarZMQServer`: client registration, count reports, the percentage shown, and the reference-counted start and stop of the updater. Also the fill arithmetic of the text bars.

**Modules**

| module | file | contents |
|---|---|---|
| `Outcomes` | `outcomes.dfy` | `Option` and `Result` |
| `Text` | `text.dfy` | Python's `split(sep)`, `split()`, `strip()`, `replace(',', ' ')` and `str(n)` |
| `ConfigValidation` | `config_validation.dfy` | the validators |
| `MixedRadix` | `mixed_radix.dfy` | the index encoding of the variations |
| `Parameters` | `parameters.dfy` | `SimulationParameters` |
| `Accumulators` | `accumulators.dfy` | `Result` |
| `ResultsCollection` | `results_collection.dfy` | `SimulationResults` |
| `Runner` | `runner.dfy` | `SimulationRunner`'s rules |
| `Progress` | `progress.dfy` | the aggregator and the bars |

Each `*_examples.dfy` module states the scenarios of the test suite about its module as lemmas.

**Abstractions**
- String-to-integer conversion (`validate.is_integer` and `int`) is a parameter, `conv: string -> Option<int>`. `Text.ParseDecimal`, a strict decimal reader, is the converter used in the examples.
- Parameter values are a type parameter `V`.
- The text a parameter is written as inside a filename is a parameter, `render`.
- A run of the unit of work is a parameter, `run`. So is the merging of two runs' results, `combine`.

**Choices the tests pin down:**
- Variation indexes vary the first-unpacked parameter fastest: `{third: 5, fourth: B, fifth: Z}` is index 7 (tests/simulations_package_test.py:515-525).
- MISCTYPE results keep their sample history when asked to (tests/simulations_package_test.py:726-734).
- A result that keeps samples refuses to merge one that does not. The other way round works (tests/simulations_package_test.py:819-839).
- The last `stop_updater` of the ZMQ server shows 100% once more (tests/simulations_package_test.py:2266-2274). The multi-process server's test reads back 30% after `stop_updater(0)`; see "## Left out".
- The repetition loop always makes at least one run, so the default `rep_max` of 1 (tests/simulations_package_test.py:1448-1458) runs each variation once.

## Model

| member | source | states |
|---|---|---|
| Text.SplitOn | pyphysim/simulations/configobjvalidation.py:35 | `split(':')` gives at least one field, none of which contains the separator. Joining the fields back with the separator gives the input. |
| Text.SplitOnJoin | pyphysim/simulations/configobjvalidation.py:35 | Fields free of the separator, joined with it, split back into exactly those fields. |
| Text.Split | pyphysim/simulations/configobjvalidation.py:261 | `split()` yields non-empty tokens without whitespace. A text starting with a non-space starts its first token. |
| Text.SplitKeepsText | pyphysim/simulations/configobjvalidation.py:261 | Splitting loses exactly the whitespace: the tokens glued together are the text with all whitespace removed. |
| Text.SplitJoin | pyphysim/simulations/configobjvalidation.py:261 | Non-empty whitespace-free tokens, joined with single spaces, split back into the same tokens. |
| Text.LeadingSpaces | pyphysim/simulations/configobjvalidation.py:261 | Whitespace before a text adds no token. |
| Text.TrailingSpaces | pyphysim/simulations/configobjvalidation.py:261 | Whitespace after a text adds no token. |
| Text.AllSpaces | pyphysim/simulations/configobjvalidation.py:261 | Whitespace alone has no tokens. |
| Text.SplitWordThenSpaces | pyphysim/simulations/configobjvalidation.py:260-261 | A word followed by a whitespace run of any length is one token, and the rest is split on its own. So `"0  5"`, left by `"[0, 5]"` after commas become spaces, gives `0` and `5`. |
| Text.SplitTwoWords | pyphysim/simulations/configobjvalidation.py:260-261 | Two words separated by any whitespace run split into exactly those two words. |
| Text.StripDecompose | pyphysim/simulations/configobjvalidation.py:259 | `strip()` removes only whitespace. The input is some whitespace, then the stripped text, then some whitespace. |
| Text.Strip | pyphysim/simulations/configobjvalidation.py:259 | A stripped text neither starts nor ends with whitespace. |
| Text.CommasToSpaces | pyphysim/simulations/configobjvalidation.py:260 | Each comma becomes a space. Every other character and the length are kept. |
| Text.NatToStringValue | tests/simulations_package_test.py:1576 | The decimal numeral written for an index reads back as that index. |
| Text.NatToStringInjective | tests/simulations_package_test.py:1576 | Different indexes are written as different numerals. |
| ConfigValidation.Arange | pyphysim/simulations/configobjvalidation.py:38-40 | `np.arange(start, stop, step)`: term `k` is `start + k*step`. Every term is on the near side of `stop`, and the next term would not be. |
| ConfigValidation.ArangeUnitStep | pyphysim/simulations/configobjvalidation.py:38 | With step 1, the terms are exactly the integers of `[start, stop)`. |
| ConfigValidation.ConvertAll | pyphysim/simulations/configobjvalidation.py:36 | The conversion succeeds exactly when every field converts, and then yields each field's value in order. |
| ConfigValidation.ParseRangeExprErrors | pyphysim/simulations/configobjvalidation.py:34-42 | The range parser raises `VdtTypeError` exactly when some `:`-field does not convert, or when three fields have a zero step. |
| ConfigValidation.ParseRangeExprRanges | pyphysim/simulations/configobjvalidation.py:37-40 | Two fields give `arange(a, b)`. Three give `arange(a, b, s)`, with the middle field as the step. |
| ConfigValidation.ParseRangeExprPassthrough | pyphysim/simulations/configobjvalidation.py:35-44 | The input comes back unchanged exactly when every field converts and there are neither two nor three fields. |
| ConfigValidation.TwoFieldRange | pyphysim/simulations/configobjvalidation.py:65-80 | `"a:b"` parses as `arange(a, b)`. |
| ConfigValidation.ThreeFieldRange | pyphysim/simulations/configobjvalidation.py:39-42 | `"a:s:b"` parses as `arange(a, b, s)`, or fails when `s` is 0. |
| ConfigValidation.Min | pyphysim/simulations/configobjvalidation.py:287-288 | `out.min()` is an element of the array and no larger than any element. |
| ConfigValidation.Max | pyphysim/simulations/configobjvalidation.py:294-295 | `out.max()` is an element of the array and no smaller than any element. |
| ConfigValidation.CheckBounds | pyphysim/simulations/configobjvalidation.py:283-298 | The check passes exactly when every element lies within the given bounds, and then returns the array unchanged. It checks `min` first and reports the smallest element, then `max` and reports the largest. |
| ConfigValidation.FlattenAppend | pyphysim/simulations/configobjvalidation.py:271 | Stacking two lists of arrays is stacking each list and concatenating the results. |
| ConfigValidation.Stack | pyphysim/simulations/configobjvalidation.py:271 | `np.hstack` of integer arrays is their concatenation in order. Nothing to stack is an error. |
| ConfigValidation.ListTokens | pyphysim/simulations/configobjvalidation.py:258-261 | The tokens between the brackets are non-empty and whitespace-free. Together they are shorter than the text. |
| ConfigValidation.CheckText | pyphysim/simulations/configobjvalidation.py:256-298 | An accepted string lies within the bounds. The empty string fails, because it has no first character. |
| ConfigValidation.CheckTextCases | pyphysim/simulations/configobjvalidation.py:256-298 | The three readings of a non-empty string. A bracketed string is checked as its list of tokens. A string the converter accepts is the one-element array of its value, checked against the bounds. Any other string is parsed as a range expression: its error surfaces unchanged, and its result is checked against the bounds. |
| ConfigValidation.CheckList | pyphysim/simulations/configobjvalidation.py:265-298 | A list that passes lies within the bounds as a whole. |
| ConfigValidation.CheckEach | pyphysim/simulations/configobjvalidation.py:270 | When it succeeds, element `k` of the result is element `k`'s own check. When it fails, the error is that of the first failing element, and every element before it passed. |
| ConfigValidation.FirstFailureWitness | pyphysim/simulations/configobjvalidation.py:270 | A failing list has a position whose element fails with the error while every earlier element passes. |
| ConfigValidation.EachAllOk | pyphysim/simulations/configobjvalidation.py:270 | Converse of `CheckEach`: when every element passes, the comprehension yields exactly their results. |
| ConfigValidation.ListConcatenates | pyphysim/simulations/configobjvalidation.py:265-298 | For any bounds, a list whose elements all give integer arrays checks as the concatenation of those arrays, in list order, checked once more against the bounds. |
| ConfigValidation.IntegerArrayCheck | pyphysim/simulations/configobjvalidation.py:217-298 | A list value is checked element by element. A string is read in one of four ways: empty (an error), bracketed (its token list), a number the converter accepts (a one-element array checked against the bounds), or a range expression (parsed, then checked against the bounds). Every accepted result lies within the bounds. |
| ConfigValidation.CommasAreSpaces | pyphysim/simulations/configobjvalidation.py:258-261 | Commas and spaces are interchangeable inside brackets: the list checks the same with its commas replaced. |
| ConfigValidation.SplitStripCommas | pyphysim/simulations/configobjvalidation.py:259-261 | Stripping before `replace` and `split` changes no token. |
| ConfigValidation.SplitIgnoresCommaPlacement | pyphysim/simulations/configobjvalidation.py:259-261 | Replacing commas before or after stripping yields the same tokens. |
| ConfigValidation.IntegerScalarOrArrayCheck | pyphysim/simulations/configobjvalidation.py:343-349 | The result is a bare integer exactly when the string converts and lies within the bounds. A converting string out of bounds raises `TooSmall`/`TooBig` with its value and does not fall back. Anything that does not convert gets the array check's outcome. |
| ConfigExamples.PlainScalars | tests/simulations_package_test.py:228-238 | `"4"` and `"76"` without bounds come back as the integers 4 and 76, not as arrays. |
| ConfigExamples.ScalarBounds | tests/simulations_package_test.py:240-246 | `"6"` is too small for `min=10`, too big for `max=5`, and otherwise the bare integer 6. |
| ConfigExamples.BracketedList | tests/simulations_package_test.py:249-255 | `"[0 5 10:15]"` with bounds 0 and 30 is the array `[0, 5, 10, 11, 12, 13, 14]`. |
| ConfigExamples.RangeTenToFifteen | tests/simulations_package_test.py:257-262 | `"10:15"` with bounds 0 and 30 is the array `[10, 11, 12, 13, 14]`. |
| ConfigExamples.BracketedRange | tests/simulations_package_test.py:264-269 | `"[10:15]"`, a list holding one range, is the same array as `"10:15"`. |
| ConfigExamples.TokensOfCommaList | tests/simulations_package_test.py:271 | `"[0,5,10:15,20]"` yields the tokens `0`, `5`, `10:15`, `20`: commas separate like spaces. |
| ConfigExamples.CommaList | tests/simulations_package_test.py:271-276 | `"[0,5,10:15,20]"` with bounds 0 and 30 is the array `[0, 5, 10, 11, 12, 13, 14, 20]`. |
| ConfigExamples.ListBelowMinimum | tests/simulations_package_test.py:278-283 | `"[0,5,10:15,20]"` with `min=4` fails with too-small 0, its first element. |
| ConfigExamples.ListAboveMaximum | tests/simulations_package_test.py:285-288 | `"[0,5,10:15,20]"` with `max=15` fails with too-big 20, its last element; the elements before it pass. |
| ConfigExamples.RangeWithin | tests/simulations_package_test.py:257-262 | `"10:15"` passes every maximum from 14 up. |
| ConfigExamples.CheckEachSkip | pyphysim/simulations/configobjvalidation.py:265-271 | an element that passes does not change the error of a failing rest of the list. |
| MixedRadix.Decompose | tests/simulations_package_test.py:450-526 | Every index below the product of the dimensions has a valid digit vector. |
| MixedRadix.ComposeBound | tests/simulations_package_test.py:450-526 | Every valid digit vector addresses an index below the number of variations. |
| MixedRadix.ComposeDecompose | tests/simulations_package_test.py:450-526 | Decomposing an index and composing its digits gives back the index. |
| MixedRadix.DecomposeCompose | tests/simulations_package_test.py:450-526 | Composing digits and decomposing the index gives back the digits. |
| MixedRadix.IndexIffDigits | tests/simulations_package_test.py:450-526 | An index and a digit vector correspond in both directions. |
| Parameters.Create | tests/simulations_package_test.py:299-307 | `create(dict)` holds exactly the given parameters, with nothing unpacked and one variation. |
| Parameters.Add | tests/simulations_package_test.py:309-313 | `add` sets one parameter and leaves every other parameter and the unpacked names alone. |
| Parameters.SetUnpack | tests/simulations_package_test.py:315-360 | Marking fails with `InvalidParameterKind` exactly for a missing name, or for a scalar when marking. On success, the unpacked set gains the name (mark) or loses it (unmark), and the parameters are unchanged. |
| Parameters.Remove | tests/simulations_package_test.py:355-360 | Unmarking removes exactly that name from the unpacked names and keeps them distinct. |
| Parameters.UnpackMultiplies | tests/simulations_package_test.py:427-449 | Unpacking another list parameter multiplies the number of variations by its length. |
| Parameters.Dims | tests/simulations_package_test.py:427-449 | The dimensions are the lengths of the unpacked parameters, in unpacking order. |
| Parameters.VariationAt | tests/simulations_package_test.py:391-426 | Variation `i` records index `i` and its origin. It has the same names as the original, and the parameters that are not unpacked are unchanged. |
| Parameters.VariationValue | tests/simulations_package_test.py:391-426 | In variation `i`, each unpacked parameter takes its value at `i`'s matching mixed-radix digit. |
| Parameters.Variations | tests/simulations_package_test.py:391-426 | The unpacked list has one variation per index, in index order, each knowing its index and origin. |
| Parameters.NothingUnpacked | tests/simulations_package_test.py:396-397 | With nothing unpacked, the list holds the parameters themselves, once. |
| Parameters.EveryChoiceListed | tests/simulations_package_test.py:402-420 | Every choice of one value per unpacked parameter appears in the list, at the index its digits compose. |
| Parameters.Position | tests/simulations_package_test.py:450-526 | The index of a value is its first occurrence. |
| Parameters.PackIndexes | tests/simulations_package_test.py:450-526 | Fixing a name that is not unpacked, or a value the parameter does not have, fails with `InvalidValue`. Otherwise the indexes are increasing, and each selects a variation that takes every fixed value. |
| Parameters.PackIndexesComplete | tests/simulations_package_test.py:474-500 | Completeness: when the fixed parameters list distinct values, an index is selected exactly when its variation takes the fixed values. |
| Parameters.PackIndexesNothingFixed | tests/simulations_package_test.py:450-526 | Fixing nothing selects every variation, in order. |
| Parameters.PackIndexesAllFixed | tests/simulations_package_test.py:513-526 | Fixing every unpacked parameter selects exactly one index: the composition of the fixed values' positions. |
| Parameters.PackIndexesOfDigits | tests/simulations_package_test.py:513-526 | With distinct values, fixing each unpacked parameter to its value at `digits[k]` selects exactly the index those digits compose. |
| Parameters.GetPackIndexes | tests/simulations_package_test.py:450-526 | The result is a bare index exactly when every unpacked parameter is fixed, and a list otherwise. Both agree with the indexes selected. |
| Parameters.GetPackIndexesOfDigits | tests/simulations_package_test.py:513-526 | A full assignment of distinct values gives back the bare index its digits compose. |
| Parameters.RepMaxIgnored | tests/simulations_package_test.py:385-389 | Setting `rep_max` on either side never changes equality. |
| Parameters.OtherParamsMatter | tests/simulations_package_test.py:361-384 | Equality notices any other parameter that differs. |
| Parameters.UnpackOrderIrrelevant | tests/simulations_package_test.py:325-330 | The order in which names are marked does not matter to equality. |
| ParameterExamples.EightVariations | tests/simulations_package_test.py:427-437 | One variation before unpacking. Four values times two gives 8, over four parameters. |
| ParameterExamples.UnpackErrors | tests/simulations_package_test.py:335-344 | Unpacking the scalar `fifth` or the absent `sixth` fails. |
| ParameterExamples.PackSevenFifteenTwo | tests/simulations_package_test.py:515-525 | `{5, B, Z}` is index 7, `{5, B, X}` is 15, and `{2, A, Z}` is 2. |
| ParameterExamples.PackInvalidValue | tests/simulations_package_test.py:507-511 | Fixing `fourth` to `C` fails. |
| Accumulators.Fresh | tests/simulations_package_test.py:646-665 | A new result has its name, type and history setting, no updates, no samples and zero running sums. Its statistic starts at 0 for SUMTYPE, 0 over 0 for RATIOTYPE, and nothing written for MISCTYPE. |
| Accumulators.Update | tests/simulations_package_test.py:667-735 | Each update counts once. SUMTYPE adds the sample to its value. RATIOTYPE adds the value and the total separately. MISCTYPE keeps the sample as its last value. The running sum and sum of squares grow by the update's contribution. With history on, the sample (and for RATIOTYPE the total) is appended. Errors: a RATIOTYPE update without a total, an unknown type, or a non-number for SUMTYPE or RATIOTYPE. |
| Accumulators.UpdateAll | tests/simulations_package_test.py:667-735 | A series of updates adds its length to the update count and keeps the name and type. |
| Accumulators.UpdateAllAppend | tests/simulations_package_test.py:667-735 | Applying two batches of updates in turn is applying their concatenation. |
| Accumulators.UpdateAllSums | tests/simulations_package_test.py:667-672 | Any series of numbers is accepted by a SUMTYPE result, whose value grows by their sum. |
| Accumulators.UpdateAllRatios | tests/simulations_package_test.py:675-681 | Any series of numbers with totals is accepted by a RATIOTYPE result. Its value grows by the sum of the numbers, and its total by the sum of the totals. |
| Accumulators.UpdateAllMisc | tests/simulations_package_test.py:685-692 | Any non-empty series is accepted by a MISCTYPE result, which keeps the last sample. |
| Accumulators.ReadsSumOfSeries | tests/simulations_package_test.py:667-672 | A fresh SUMTYPE result fed a non-empty series of numbers reads their sum. Fed nothing, it reads "Nothing yet". |
| Accumulators.Create | tests/simulations_package_test.py:752-753 | `Result.create` is a fresh result with exactly one update. It fails exactly when that update would. Its statistic is the sample (SUMTYPE), the sample over its total (RATIOTYPE) or the sample as last value (MISCTYPE), and with history on the sample is its only kept value. |
| Accumulators.GetResult | tests/simulations_package_test.py:667-704 | SUMTYPE and MISCTYPE read "Nothing yet" exactly when there has been no update (:876, :878). After that, SUMTYPE reads its sum and MISCTYPE the last value written. RATIOTYPE reads value over total, or NaN when the total is zero (:877). An unknown type reads nothing. |
| Accumulators.Merge | tests/simulations_package_test.py:736-839 | Merging fails exactly on a different name or type, MISCTYPE, or a history-keeping result absorbing one without history. Otherwise values, totals, counts and both running sums add up, and the samples are concatenated when history is on. |
| Accumulators.MergeCommutes | tests/simulations_package_test.py:736-792 | Merging in either order gives the same statistic, counts and sums, and the same samples up to order. |
| Accumulators.MergeAssociates | tests/simulations_package_test.py:736-839 | Merging is associative, samples included. |
| Accumulators.MergeFresh | tests/simulations_package_test.py:736-792 | Merging in a fresh result of the same name and type changes nothing. |
| Accumulators.MergeThenUpdate | tests/simulations_package_test.py:736-792 | Updating the merged-in result and then merging is the same as merging and then updating. |
| Accumulators.MergeThenUpdateAll | tests/simulations_package_test.py:736-792 | Merging in a result that received updates is applying those updates to the merge. |
| AccumulatorExamples.SumUpdates | tests/simulations_package_test.py:668-672 | 13 then 4 sums to 17. |
| AccumulatorExamples.RatioUpdates | tests/simulations_package_test.py:675-681 | (3, 4) then (9, 36) is 12/40 = 0.3. Then (12, 8) reads 0.5. |
| AccumulatorExamples.Representation | tests/simulations_package_test.py:875-887 | Fresh SUMTYPE and MISCTYPE results read "Nothing yet", and a fresh RATIOTYPE reads 0/0 as NaN. After 10, (2, 4) and 0.4 they read 10, 0.5 and 0.4. |
| AccumulatorExamples.MiscUpdates | tests/simulations_package_test.py:685-692 | MISCTYPE reads whatever was written last. |
| AccumulatorExamples.UpdateErrors | tests/simulations_package_test.py:694-703 | A ratio update without a total fails, and so does any update of an unknown type. |
| AccumulatorExamples.KeptSums | tests/simulations_package_test.py:706-714 | SUMTYPE with history: 13 and 30 give 43 and the samples `[13, 30]`. |
| AccumulatorExamples.KeptRatios | tests/simulations_package_test.py:716-724 | RATIOTYPE with history keeps values `[3, 6, 1]` and totals `[10, 7, 15]`, and reads 10/32. |
| AccumulatorExamples.KeptMisc | tests/simulations_package_test.py:726-735 | MISCTYPE with history keeps `[3, "some string", 2]` and reads 2. |
| AccumulatorExamples.RatioMerge | tests/simulations_package_test.py:758-776 | 10/32 merged with 46/68 is 56/100, with five updates. |
| AccumulatorExamples.SumMerge | tests/simulations_package_test.py:794-804 | 13, 30 merged with 11, 22, 4 is 80, and the samples are `[13, 30, 11, 22, 4]`. |
| AccumulatorExamples.MergeErrors | tests/simulations_package_test.py:778-792 | MISCTYPE never merges, and neither do results with different names or types. |
| AccumulatorExamples.HistoryMismatch | tests/simulations_package_test.py:819-839 | A result with history cannot absorb one without. The other way round gives 67/126 and no samples. |
| AccumulatorExamples.Equality | tests/simulations_package_test.py:889-901 | 10 then 7 equals `create(7)` then 10. Changing the type breaks equality. |
| ResultsCollection.Empty | tests/simulations_package_test.py:1077-1084 | A new collection holds no names. |
| ResultsCollection.AddResult | tests/simulations_package_test.py:1013-1027 | `add_result` makes the result the only entry under its name and leaves the other names alone. |
| ResultsCollection.AddNewResult | tests/simulations_package_test.py:968-972 | `add_new_result` adds a result created with one update, failing when that update fails. |
| ResultsCollection.AppendResult | tests/simulations_package_test.py:1028-1044 | `append_result` adds the result after the entries under its name. It fails exactly when that list holds another type. |
| ResultsCollection.AppendAllResults | tests/simulations_package_test.py:1045-1057 | Every list of the other collection follows this one's list of the same name, and names only in the other are copied in. Different types under one name fail. |
| ResultsCollection.JoinedKeepsKind | tests/simulations_package_test.py:1045-1057 | Appending keeps every list to one name and one type. |
| ResultsCollection.MergeLast | tests/simulations_package_test.py:1058-1076 | Only the last entry of a list changes, to its merge with the other result. |
| ResultsCollection.MergeFailure | tests/simulations_package_test.py:1058-1066 | `merge_all_results` has a reason to fail exactly when some name has no mergeable partner. A name missing from the other collection is reported as `MissingKey`. |
| ResultsCollection.MergeAllResults | tests/simulations_package_test.py:1058-1084 | An empty collection takes over the other's results. Otherwise each name's last entry absorbs the other's last entry, failing exactly when some name has no mergeable partner, and names only in the other collection are ignored. |
| ResultsCollection.MergedEntries | tests/simulations_package_test.py:1058-1076 | After a merge, each list keeps its length and all but its last entry. The last entry is the merge of the two last entries. |
| ResultsCollection.MergedResults | tests/simulations_package_test.py:1058-1076 | The merged lists keep their names, lengths and types. |
| ResultsCollection.MergeSingleton | tests/simulations_package_test.py:1058-1076 | A single result is replaced by its merge with the other's last result. |
| ResultsCollection.ElapsedTimeIgnored | tests/simulations_package_test.py:1085-1101 | Setting `elapsed_time` on either side never changes equality. |
| ResultsCollection.ExtraNameMatters | tests/simulations_package_test.py:1123-1127 | A name present on one side only breaks equality. |
| ResultsCollection.ChangedResultMatters | tests/simulations_package_test.py:1112-1121 | A changed result breaks equality. |
| ResultsCollection.ValuesFor | tests/simulations_package_test.py:1129-1144 | Without fixed parameters, the list is `get_result()` of each entry in order. With fixed parameters, it is the entries at the selected indexes. Errors: an unknown name, or a bad fixed value. |
| ResultsCollection.ValuesForNothingFixed | tests/simulations_package_test.py:1129-1144 | Fixing nothing filters nothing when there is one entry per variation. |
| ResultsExamples.AppendAll | tests/simulations_package_test.py:1045-1057 | After appending, `lala` and `lele` hold two entries each and `lili` holds one. Their values are `[13, 30]`, `[0.55, 0.4]` and `["a string"]`. |
| ResultsExamples.MergeAll | tests/simulations_package_test.py:1058-1076 | After merging, `lala` is 43 from two updates and `lele` is 15/30 from three. `lili` is ignored. |
| ResultsExamples.MergeIntoEmpty | tests/simulations_package_test.py:1077-1084 | An empty collection merging the other takes over its names. |
| ResultsExamples.AddReplaces | tests/simulations_package_test.py:1013-1019 | Adding `lala` again leaves the single result 25. |
| ResultsExamples.AppendOne | tests/simulations_package_test.py:1028-1044 | Appending 25 after 13 works. Appending a RATIOTYPE `lala` fails. |
| ResultsExamples.EqualityScenario | tests/simulations_package_test.py:1085-1127 | A different `elapsed_time` does not matter. An added parameter or an added result does. |
| ResultsExamples.ValueMatters | tests/simulations_package_test.py:1103-1110 | A parameter on one side only breaks equality, and it holds again once both sides have it. |
| Runner.CloseAt | tests/simulations_package_test.py:1469-1476 | Finds the first `}` of a text, or reports that there is none. |
| Runner.Format | tests/simulations_package_test.py:1469-1476 | A template without braces formats to itself. The only errors are a stray `}`, an unclosed field, or an unknown name. |
| Runner.FormatSpell | tests/simulations_package_test.py:1469-1476 | Round trip: formatting a template built from plain text and known fields replaces every field by its text. |
| Runner.FormatPlainPrefix | tests/simulations_package_test.py:1469-1476 | Plain text before the rest of a template is copied as it is. |
| Runner.FormatField | tests/simulations_package_test.py:1469-1476 | A `{name}` field is replaced by the parameter's text. |
| Runner.FieldTexts | tests/simulations_package_test.py:1469-1476 | Every parameter has a text for the template, written by `render`. |
| Runner.ResultsFilename | tests/simulations_package_test.py:1469-1476 | Without a template, no filename. Otherwise the formatted template plus `.pickle`, failing exactly when formatting fails. |
| Runner.Pad2 | tests/simulations_package_test.py:1576 | The variation index is written with at least two decimal digits. |
| Runner.Pad2Injective | tests/simulations_package_test.py:1576 | Different indexes are padded differently. |
| Runner.UnpackFilename | tests/simulations_package_test.py:1576 | The file of a single variation starts with the results filename's base. |
| Runner.UnpackFilenameInjective | tests/simulations_package_test.py:1576 | Different variations of one sweep write different files. |
| Runner.SingleVariationFile | tests/simulations_package_test.py:1555-1594 | A single-variation run fails with `NotConfigured` exactly when no template is set. Otherwise it writes `<base>_unpack_<ii>.pickle`. |
| Runner.Resume | tests/simulations_package_test.py:1523-1546 | Saved partial results are reloaded exactly when they were produced with equal parameters, and refused with `CheckpointMismatch` otherwise. |
| Runner.Repeat | tests/simulations_package_test.py:1464-1468 | The loop makes at least one run and at most `rep_max` runs (or one). Every run but the last was approved by the predicate, and it stops early only when the predicate refuses. The accumulated results are every run folded in. |
| Runner.DefaultRunsAll | tests/simulations_package_test.py:1464-1468 | With the always-continue predicate, the loop makes exactly `rep_max` runs. |
| Runner.DefaultSettings | tests/simulations_package_test.py:1448-1458 | A default runner makes one repetition and has no filename. |
| RunnerExamples.SomeName | tests/simulations_package_test.py:1469-1476 | No template gives no filename. `some_name_{bias}` gives `some_name_1.3.pickle`. |
| RunnerExamples.UnpackFour | tests/simulations_package_test.py:1555-1576 | `simulate(3)` without a template fails. Variation 4 of `dummyrunner_results_bias_{bias}` writes `dummyrunner_results_bias_1.3_unpack_04.pickle`. |
| RunnerExamples.ChangedBias | tests/simulations_package_test.py:1523-1546 | Partial results saved with `bias = 1.3` are refused once `bias` is 1.5, and reloaded while it is unchanged. |
| RunnerExamples.TwoRepetitions | tests/simulations_package_test.py:1370-1396 | `rep_max = 2` with the default predicate makes two repetitions. |
| Progress.Register | tests/simulations_package_test.py:2088-2113 | A new client gets the next id and a zero count. The total final count grows by its final count, and nothing else changes. |
| Progress.RegisterAllIds | tests/simulations_package_test.py:2088-2099 | Clients registered in turn get consecutive ids, and the total is the sum of their final counts. |
| Progress.RegisterId | tests/simulations_package_test.py:2088-2099 | The `k`-th client registered receives id `k`. |
| Progress.Advance | tests/simulations_package_test.py:2114-2162 | A report sets that client's count and leaves the others alone. An unknown id is refused. |
| Progress.Start | tests/simulations_package_test.py:2163-2190 | Every start is counted, and the updater runs afterwards. |
| Progress.Stop | tests/simulations_package_test.py:2163-2190 | A stop undoes one start. The updater halts exactly when the last start is matched, and then shows 100% once more, as the ZMQ server's test reads back. A stop with nothing to match changes nothing. |
| Progress.Nesting | tests/simulations_package_test.py:2163-2190 | After `n` starts, the updater keeps running through `n - 1` stops and halts at the `n`-th. |
| Progress.Percentage | tests/simulations_package_test.py:2247-2274 | The percentage is the counts' sum over the total final count, capped at 100. There is none while nothing is expected. |
| Progress.ClampWidth | tests/simulations_package_test.py:1829-1831 | A width below 40 becomes 40. A wider width is kept. |
| Progress.BarPercent | tests/simulations_package_test.py:1876-1877 | Any count at or past the final count shows 100%, and only those do. |
| Progress.Filled | tests/simulations_package_test.py:1991-2039 | The filled cells are the percentage of the inner width, rounded down. |
| Progress.FilledMonotone | tests/simulations_package_test.py:1991-2039 | More progress never fills fewer cells, and 100% fills them all. |
| ProgressExamples.TwoClients | tests/simulations_package_test.py:2088-2113 | 10 and 15 get ids 0 and 1 and a total of 25. A third client of 13 gets id 2, and the total becomes 38. |
| ProgressExamples.SixtyPercent | tests/simulations_package_test.py:2247-2274 | Counts 5 and 10 out of 10 and 15 show 60%. |
| ProgressExamples.ThirtyPercent | tests/simulations_package_test.py:2114-2162 | The first client reports 6 of 10 and the second 6 of 15. A third client of 25 registers later, gets id 2, and reports 3. Together they show 15 of 50, which is 30%. |
| ProgressExamples.StartStopTwice | tests/simulations_package_test.py:2163-2201 | Two starts need two stops. The second stop shows 100%, and a further stop changes nothing. |
| ProgressExamples.FillCounts | tests/simulations_package_test.py:1991-2039 | The fills of the width-50 and width-80 bars, with and without side characters. |
| ProgressExamples.BarCounts | tests/simulations_package_test.py:1839-1928 | A 50-wide bar fills 10, 35 and 50 cells for 10, 35 and 55 of 50. 1 of 200 fills nothing. |

## Left out

- The float path of the validators (`_parse_float_range_expr`, `real_numpy_array_check`, `real_scalar_or_real_numpy_array_check`): it works on floating point, which the model does not represent.
- `validate.is_integer` itself is not part of this model. It enters as the converter parameter `conv`. Its handling of non-string values, and of `min`/`max` given as strings, is not modelled.
- ConfigValidation.Stack: a list element that passes through as a string (four or more colon-separated fields that all convert) reaches `np.hstack` only when there are no bounds, because with a bound the element's own check already fails (configobjvalidation.py:283-295). With no bounds the source returns an array of strings; the model returns `Err(NonNumeric)`.
- ConfigValidation.FirstFailureWitness: this proves only that a failure implies a first failing position. The converse (a first failing position implies that error) is not stated as a lemma.
- ConfigValidation.CheckText: its own contract states only bounds and the empty case. The three non-empty readings (bracketed list, converted number, range expression) are stated by `CheckTextCases` and repeated in `IntegerArrayCheck`'s contract. They are kept out of `CheckText`'s own contract because that function is recursive through `CheckList`.
- ConfigValidation.ParseRangeExpr: integers are unbounded. `np.arange` raises inside the `try` of configobjvalidation.py:34-42 for bounds past 64 bits or a range too large to allocate, which makes the parse a type error; the model returns the range instead.
- ConfigValidation.Arange: the terms are unbounded integers, with no 64-bit limit and no allocation failure, for the reason above.
- Progress.Stop: the final 100% render follows the ZMQ server's test. The multi-process server's test (tests/simulations_package_test.py:2146-2156) reads back 30% as the last line after `stop_updater(0)`. The server implementations are not part of this model, so whether that server skips the final render, or the render is cut off by the zero argument, cannot be decided here.
- Accumulators: numbers are exact reals, not IEEE doubles, so `0.55` and `(11 + 4)/(20 + 10)` are exact.
- Accumulators: the RATIOTYPE contribution to the running sums is value/total, or 0 when the total is 0. This contribution is not pinned down by the tests.
- The mean, variance and confidence interval of a result (`get_result_mean`, `get_result_var`, `get_confidence_interval`) and of a collection are left out. They are floating-point statistics.
- Accumulators.SameResult: `__eq__` is modelled as the same name, type, value and total. The tests compare only results with equal update counts (tests/simulations_package_test.py:889-900, 1085-1127), so whether equality also compares the update count and the kept samples is not decided by them; the model leaves both out.
- `__repr__` of results, collections and parameters, and the text layout of the progress bars (title lines, central message, percentage text), are left out. They are formatting only. What `__repr__` shows for a result is what `get_result()` reads, and that reading is modelled.
- Persistence (pickle, HDF5, config files), `load_from_file` and `save_to_file` are left out. They are I/O. The resume rule is modelled on the loaded value.
- Parameters.Position: when a value occurs twice in a parameter, the first occurrence is used. The tests use distinct values.
- Parameters.PackIndexes: a fixed name that is not unpacked is refused with `InvalidValue`. The tests do not exercise this case.
- Runner.Format: braces doubled as escapes (`{{`, `}}`) and format specifications inside a field are not modelled. A field name is any text up to the first `}`.
- Runner.SingleVariationFile: the `VariationOutOfRange` guard for an index past the last variation is added by the model.
- Runner: which variations a resumed run skips, running the unit of work, parallel execution, timing, `elapsed_time` and command-line arguments are left out. They are I/O and processes.
- Progress: processes, sockets, the updater's sleep and its start delay are left out. The updater is modelled as the state it reads: final counts, current counts and the start count.
- Progress.Percentage: the cap at 100 is an assumption for counts past the final count. The aggregator tests stay below it.
- Progress.Filled: rounding is modelled as floor on exact reals.
- The doctests and the IPython-parallel tests are left out. They run code outside this core.
