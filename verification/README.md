# insert_data record normaliser — a Dafny model

This project models the core of `tools/insert_data.py`. The tool is an
interactive converter that turns a JSON document of "levels", each holding
"facts" (arithmetic and fraction exercises), into one canonical format. The
model covers the following parts of the tool:

- `find_similar_keys`: ranks the sample record's keys against a target field
  name by a similarity score.
- `prompt_user_for_field`: the field chooser. It offers the top five matches,
  or asks for a key by name, and keeps re-asking on bad input.
- The container-key menu and `prompt_for_optional_fields`.
- `auto_generate_operator` and `map_fact`: one source fact becomes a target
  fact or is rejected with a warning.
- `convert_json`:
  - step 1 finds the levels container and step 1.5 flattens the `tracks`
    nesting;
  - steps 2 and 3 build the level and fact field mappings on the first level
    and its first fact, and choose the optional fields;
  - step 4 rebuilds every level, with `factCount` placed before `facts`.
- The merge of `main`: the existing output file's levels are kept in front
  of the new ones, unless `--wipe-output-file` is given.

How the model represents the tool:

- A JSON dict is an ordered list of entries, so Python's insertion order is
  kept. Assignment replaces an entry in place or appends a new one (`Json.Set`).
- The module-level `stats` dictionary is threaded through as a `Stats` value.
- What the user types is a list of lines. Running out of lines is `input()`
  raising EOFError.
- The similarity ratio (difflib's SequenceMatcher) is a parameter
  `sim: Scorer` with values in [0, 1].
- `convert_json` can return None for four reasons, modelled as
  `Aborted(reason)`. A Python exception the tool does not catch is `Crash`.
  Both are modelled, so every input has an outcome.
- `map_fact` reads the `type` it derives an operator from out of the record
  it is building (line 164), where `type` never is; see Findings. Everything
  from `map_fact` up to the merge takes a `Variant`. `AsWritten` is the code
  as it stands, so `ConvertJson(AsWritten, ...)` is the model of
  `convert_json`. `Corrected` reads `type` from the source fact.

Modules follow the program:

| Module | Covers |
|---|---|
| `Json` | JSON values and dict entries |
| `Text` | `strip`, `lower`, `split`, `int` and `str` |
| `Similarity` | `find_similar_keys` |
| `Schema` | the field lists |
| `Report` | `stats` and the failure kinds |
| `Prompts` | the three prompts |
| `Facts` | `map_fact` and the operator table |
| `Container` | step 1 |
| `Mapping` | steps 2 and 3 |
| `Assembly` | step 4 |
| `Convert` | `convert_json` |
| `Merge` | `main` after argument parsing |
| `Scenarios` | the documented conversion, worked end to end |

## Model

| member | source | states |
|---|---|---|
| Similarity.Candidates | tools/insert_data.py:48-52 | a key is collected, with its score, exactly when its score reaches the threshold; nothing else is collected |
| Similarity.SortByScore | tools/insert_data.py:53 | the result is a permutation of the input, sorted by descending score, and stable: the matches with any one score keep their input order |
| Similarity.FindSimilarKeys | tools/insert_data.py:46-53 | holds exactly the keys scoring at least the threshold, each with its score, best first, ties in key order |
| Similarity.InsertSorted | tools/insert_data.py:53 | inserting into a score-sorted list keeps it sorted |
| Similarity.InsertWithScore | tools/insert_data.py:53 | insertion puts the new match in front of every earlier match of equal score (stability) |
| Text.Split | tools/insert_data.py:141 | `split(',')` gives at least one piece, no piece holds the separator, and joining the pieces with it restores the string |
| Text.SplitJoin | tools/insert_data.py:141 | splitting a join of separator-free pieces gives back the pieces (round trip) |
| Text.Strip | tools/insert_data.py:77 | the stripped text is empty exactly when the line is all white space, and otherwise neither starts nor ends with white space |
| Text.StripIsSlice | tools/insert_data.py:77 | the stripped text is a slice of the line, and only white space is cut off in front of it and behind it |
| Text.StripUnique | tools/insert_data.py:77 | any slice that cuts off only white space and neither starts nor ends with white space is the stripped text, so `strip()` is determined |
| Text.StripPadded | tools/insert_data.py:77 | white space added on either side of a line does not change its stripped text |
| Text.StripKeepsTrimmed | tools/insert_data.py:77 | `strip()` leaves text that neither starts nor ends with white space unchanged |
| Text.Lower | tools/insert_data.py:132 | lower-casing maps each character on its own and keeps the length |
| Text.ParseNumeral | tools/insert_data.py:79 | a token reads exactly when it is a run of ASCII digits, with single underscores between digits, optionally after `+` or `-`; the value is the digits' decimal value, negated after `-` |
| Text.ParseInt | tools/insert_data.py:79 | `int()` reads a line exactly when its stripped text is such a numeral, and returns that numeral's value |
| Text.ParseIntPadded | tools/insert_data.py:79 | white space around a line does not change what `int()` reads from it |
| Text.ParseIntShow | tools/insert_data.py:141 | `int(str(n)) == n` for every integer, negative ones included |
| Text.DigitsValueShowNat | tools/insert_data.py:141 | reading back the decimal digits of a natural number gives the number |
| Prompts.AwaitAnswer | tools/insert_data.py:75-98 | a re-asking loop succeeds exactly when some line is accepted; the answer is that of the first accepted line, and exactly the lines after it remain; otherwise input runs out |
| Prompts.MenuNumber | tools/insert_data.py:221-225 | a line is accepted exactly when `int()` reads its stripped text as a number in 1..n, and the answer is that number |
| Prompts.MenuNumberTyped | tools/insert_data.py:221-225 | typing a menu number, with any white space around it, picks that number |
| Prompts.ContainerAnswer | tools/insert_data.py:221-227 | a line is accepted exactly when it names a menu number, and picks the key at that position |
| Prompts.ChooseContainer | tools/insert_data.py:214-231 | the menu answers exactly when some line is a valid menu number; the key is the candidate the first such line numbers, and exactly the lines after it remain; otherwise input runs out |
| Prompts.FieldAnswer | tools/insert_data.py:76-98 | with suggestions shown, 0 declines and k in 1..(number shown) picks the k-th suggestion, and no other line is accepted; with none shown, a blank line declines, a typed key of the sample is taken as typed after stripping, and any other line is refused |
| Prompts.Offered | tools/insert_data.py:63-65 | the suggestions are the first min(5, number of matches) of the ranked matches; no match left out scores above one shown; each is a sample key scoring at least 0.6 |
| Prompts.PromptUserForField | tools/insert_data.py:55-98 | a chosen key is a key of the sample, and it reaches the 0.6 threshold whenever any key does; the chooser fails only by running out of input |
| Prompts.PromptUserForFieldAnswer | tools/insert_data.py:55-98 | the chooser answers exactly when some line is accepted against the suggestions `Offered` lists; the answer is that of the first accepted line, and exactly the lines after it remain |
| Prompts.OptionalCandidates | tools/insert_data.py:121-122 | the candidates are exactly the available fields that are not essential in either schema, in their original order |
| Prompts.InRange | tools/insert_data.py:142 | the kept numbers are the typed numbers in 1..n, each kept as many times as it was typed, and nothing else |
| Prompts.InRangeAppend | tools/insert_data.py:142 | filtering a concatenation gives the concatenation of the filtered parts, so the kept numbers stay in typed order |
| Prompts.SelectNumbers | tools/insert_data.py:142 | the selection has one entry per in-range number typed, in typed order, each the candidate that number names |
| Prompts.ParseEach | tools/insert_data.py:141 | a list reads when every token reads, each number being its token's reading; it fails exactly when some token does not read |
| Prompts.ParseAll | tools/insert_data.py:141 | `[int(x) for x in tokens]` succeeds exactly when every token is an integer, position by position |
| Prompts.ParseEachOf | tools/insert_data.py:141 | tokens that each read as a given number read as that list of numbers |
| Prompts.ParseSelection | tools/insert_data.py:134-147 | the selection only names candidates; an empty answer selects nothing, `all` selects every candidate, and a non-integer token discards the whole answer |
| Prompts.PromptForOptionalFields | tools/insert_data.py:119-147 | with no candidate nothing is asked and no line is read; the selection only holds available, non-essential fields; it fails exactly when a prompt is due and no line is left |
| Prompts.TypedNumbersShape | tools/insert_data.py:132 | a comma-joined list of numbers passes `strip().lower()` unchanged and is neither empty nor `all` |
| Prompts.ShownWithoutComma | tools/insert_data.py:141 | a written-out number holds no comma |
| Prompts.ParseAllShown | tools/insert_data.py:141 | written-out numbers read back as themselves (round trip) |
| Prompts.TypedSelection | tools/insert_data.py:132-144 | typing numbers separated by commas selects the candidates they name, in typed order, keeping duplicates and dropping out-of-range numbers |
| Facts.AutoGenerateOperator | tools/insert_data.py:100-117 | the operator is non-empty exactly for the thirteen listed types, and is always one of the table's seven operators or empty |
| Facts.OperatorTableSize | tools/insert_data.py:102-116 | the type table has thirteen distinct entries |
| Facts.OperatorFor | tools/insert_data.py:156-169 | the operator is taken from the mapped key, else from a literal `operator` key, else derived from the type, and a warning is due exactly when the derivation finds nothing |
| Facts.FirstUnsupplied | tools/insert_data.py:170-179 | the loop stops at the first essential field, other than `operator`, whose mapped key is missing; it reaches the end exactly when every such field is present |
| Facts.MapEssentials | tools/insert_data.py:155-179 | the essential-field loop moves no counter and leaves the field-mapping log alone |
| Facts.EssentialsRecord | tools/insert_data.py:155-179 | the loop yields a record exactly when every non-operator field is found; that record appends the fields in declared order, each with the value under its mapped key, and keeps earlier entries |
| Facts.EssentialsWarningsPrefix | tools/insert_data.py:166-178 | the loop only appends to the warnings |
| Facts.EssentialsWarningsExact | tools/insert_data.py:155-179 | the loop appends exactly a missing-operator warning when one is due, then the missing-field warning for the first absent field |
| Facts.OptionalSource | tools/insert_data.py:182-186 | an optional field is taken from the fact's own key first, then from its mapped alias, and is left out when neither is present |
| Facts.CopyOptionalRecord | tools/insert_data.py:181-186 | the optional loop keeps the existing keys in front, adds exactly the selected fields that have a source, with their source values, and changes nothing else |
| Facts.AllSuppliedRequired | tools/insert_data.py:170-179 | every essential field but `operator` is found exactly when every required field is found |
| Facts.MapFactOf | tools/insert_data.py:149-189 | the `AsWritten` variant is `map_fact` reading `type` from the record under construction, as line 164 does; the `Corrected` variant reads it from the source fact |
| Facts.MapFactOutcome | tools/insert_data.py:149-189 | in either variant, a fact is rejected exactly when some required field's mapped key is missing; only an accepted fact is counted as processed |
| Facts.MapFactWarnings | tools/insert_data.py:155-179 | in either variant, the warnings `map_fact` logs are exactly those of the essential-field loop run with that variant's source for `type` |
| Facts.EssentialKeysOf | tools/insert_data.py:155-179 | an accepted fact's essential record has exactly the five essential keys, in declared order, without duplicates |
| Facts.EssentialValuesOf | tools/insert_data.py:170-173 | wherever `type` is read from, every required field in the record holds its mapped source value, and `operator` holds the operator chosen with that source for `type` |
| Facts.RequiredAreEssential | tools/insert_data.py:27 | the required fields are the essential fact fields other than `operator` |
| Facts.MapFactKeys | tools/insert_data.py:152-186 | an accepted fact starts with the five essential keys in declared order, then holds exactly the selected optional fields that have a source; its keys are distinct |
| Facts.MapFactValues | tools/insert_data.py:155-186 | in either variant, an accepted fact's required values are the mapped source values, its operator is the one chosen with that variant's source for `type`, and optional values are copied unchanged |
| Facts.EssentialsIndependent | tools/insert_data.py:155-179 | the record built does not depend on the statistics or on the level it is reported under |
| Facts.MapFactIndependent | tools/insert_data.py:149-189 | the record `map_fact` returns does not depend on the statistics or on the level label |
| Facts.AsWrittenReadsNoType | tools/insert_data.py:164 | reading `type` from the record under construction is the same as reading it from an empty record |
| Facts.DerivedOperator | tools/insert_data.py:162-169 | with no operator to copy, the operator is the table entry for the type read, and a warning is due exactly when the table has none |
| Facts.WarningsOfAccepted | tools/insert_data.py:166-178 | an accepted fact logs at most the missing-operator warning |
| Facts.ViaDerivedOperator | tools/insert_data.py:162-169 | when the operator must be derived, an accepted fact carries the table's operator for the type read, and a warning is logged exactly when the table has none |
| Facts.MapFactAsWrittenLosesOperator | tools/insert_data.py:162-169 | as written, every derived operator is the empty string and always draws a missing-operator warning |
| Facts.MapFactDerivesOperator | tools/insert_data.py:162-169 | corrected, a derived operator is the table entry for the fact's own type, with a warning only for types the table lacks |
| Facts.ViaAccepts | tools/insert_data.py:170-179 | wherever `type` is read from, a fact is accepted exactly when every required field is found |
| Facts.AdditionFactAsWritten | tools/insert_data.py:162-169 | an addition fact without an operator gets operator "" and one missing-operator warning, as written |
| Facts.AdditionFactCorrected | tools/insert_data.py:162-169 | the same fact, corrected, gets operator "+" and logs nothing |
| Container.ContainerKeys | tools/insert_data.py:212 | the menu lists exactly the document's keys whose value is a dict or a list, in document order |
| Container.LevelList | tools/insert_data.py:238-249 | a non-empty list is taken as is and a non-empty dict gives its values in order; an empty list, dict or string aborts with "no levels"; every other value raises, null, booleans and numbers at `len()` |
| Container.ResolveContainer | tools/insert_data.py:206-249 | a non-dict document raises; with no `levels` key and no candidate it aborts; a result is the non-empty level list of some non-empty key of the document; the only aborts are "no container" and "no levels" |
| Container.LevelsKeyWins | tools/insert_data.py:207-209 | with a `levels` key nothing is asked and no line is read, and the outcome is that key's level list |
| Container.MenuDecides | tools/insert_data.py:210-249 | without a `levels` key the menu decides: the first valid menu line picks the key and the lines after it remain; an empty key aborts with "no container"; otherwise the outcome is that key's level list or its failure |
| Container.TrackDict | tools/insert_data.py:262 | the `tracks` test is decided for a dict and raises exactly for values on which Python's `in` raises or passes into a failing subscript |
| Container.FlattenTracksFails | tools/insert_data.py:260-265 | flattening fails exactly when some container makes the `tracks` test raise |
| Container.FlattenCons | tools/insert_data.py:261-264 | flattening is the first container's tracks followed by the rest's |
| Container.FlattenMembers | tools/insert_data.py:260-266 | the flattened records are exactly the tracks of the containers |
| Container.FlattenOne | tools/insert_data.py:262-264 | a dict with a dict `tracks` contributes exactly that dict's values, and any other dict contributes nothing |
| Container.SampleLevels | tools/insert_data.py:251-272 | the sample is the first level; without a `tracks` dict the levels are unchanged; with one they are the flattened tracks; every failure is a raise |
| Mapping.MapFieldsMapping | tools/insert_data.py:276-288 | a successful mapping loop maps every field, keeps other entries, maps present fields to themselves, maps every asked field to a non-empty sample key, and maps the fact `operator` to itself or to None |
| Mapping.MapFieldsDomain | tools/insert_data.py:277-285 | every field gets an entry and every other entry is kept |
| Mapping.MapFieldEntry | tools/insert_data.py:277-285 | the same, for one key |
| Mapping.MapFieldValue | tools/insert_data.py:311-331 | the value one field gets: itself when present, a non-empty sample key when asked, and for `operator` itself or None |
| Mapping.MapFieldsValues | tools/insert_data.py:311-331 | the values all fields get, as above |
| Mapping.MapFields | tools/insert_data.py:276-288 | the loop fails only by running out of input or by aborting |
| Mapping.MapFieldsStats | tools/insert_data.py:285 | the loop moves no counter or warning and only appends to `field_mappings` |
| Mapping.MapFieldsChoices | tools/insert_data.py:328 | each logged choice is for a field of this kind that the sample lacks, and names a sample key |
| Mapping.MapFieldsAbort | tools/insert_data.py:286-288 | an abort names a field of this kind that the sample lacks, and never the fact `operator` |
| Mapping.MapFieldsDeclines | tools/insert_data.py:276-288 | conversely, when the fields before it are present and the first missing field's chooser declines with None or a blank answer, the loop aborts naming that field |
| Mapping.SkipUnasked | tools/insert_data.py:277-279 | fields the sample has, and the fact `operator`, are passed over without reading a line, each given its own name or None |
| Mapping.AllPresentNoPrompt | tools/insert_data.py:278-279 | when the sample has every field, nothing is asked, no line is read and nothing is logged |
| Mapping.UnmappedKeys | tools/insert_data.py:293 | `--include-all` selects exactly the sample keys that no essential field maps to, in order |
| Mapping.OptionalFields | tools/insert_data.py:290-295 | under `--include-all` the unmapped keys are taken without a prompt; otherwise the selection holds only available keys |
| Assembly.FactItems | tools/insert_data.py:364 | a list iterates its items, an empty dict or string iterates nothing, and anything else raises in the loop |
| Assembly.FactStep | tools/insert_data.py:370-374 | in either variant, a fact is rejected exactly when a required field is missing; exactly one of processed and skipped grows by one; the warnings grow by that fact's warnings with the variant's source for `type` |
| Assembly.FactStepOperator | tools/insert_data.py:162-169 | in the fact loop as written, a kept fact whose operator must be derived gets operator "" and exactly one missing-operator warning; corrected, it gets the table's operator for its own type |
| Assembly.MapFacts | tools/insert_data.py:369-374 | the fact loop's only failure is a raise |
| Assembly.MapFactsFails | tools/insert_data.py:369-374 | the fact loop fails exactly when some fact is not a dict |
| Assembly.MapFactsSurvivors | tools/insert_data.py:369-372 | the facts kept are exactly the records the variant's `map_fact` accepts, in source order |
| Assembly.MapFactsCounts | tools/insert_data.py:369-374 | every fact is either kept and counted as processed or skipped; no other counter moves and warnings are only appended |
| Assembly.MapFactsWarnings | tools/insert_data.py:369-374 | the fact loop appends exactly its facts' warnings under the variant's `map_fact`, in order |
| Assembly.CopyMappedRecord | tools/insert_data.py:350-355 | the id and title loop copies exactly the fields whose mapped key the level has, with that key's value, and leaves other entries alone |
| Assembly.WithFacts | tools/insert_data.py:376-378 | `factCount` equals the number of facts, `facts` holds them, and every other key keeps its value |
| Assembly.WithFactsKeys | tools/insert_data.py:376-378 | on a record without either key they come last, `factCount` before `facts`, and distinct keys stay distinct |
| Assembly.LevelHeadRecord | tools/insert_data.py:347-360 | a level record's head holds exactly the mapped id and title the level has and the selected optional fields it has, with their values |
| Assembly.AssembleLevel | tools/insert_data.py:344-381 | a level pass succeeds exactly on a dict whose facts iterate to dicts; it yields the reference record built with the variant's `map_fact`, counts one level, splits the facts between processed and skipped, and appends that level's warnings |
| Assembly.AssembleLevels | tools/insert_data.py:344-383 | the level loop's only failure is a raise |
| Assembly.LevelRecordShape | tools/insert_data.py:376-378 | every output level has `factCount` equal to the length of its `facts` list |
| Assembly.LevelRecordsAt | tools/insert_data.py:344-380 | the i-th output level is the record of the i-th input level |
| Assembly.AssembleLevelsRecords | tools/insert_data.py:344-383 | the level loop emits the reference record of every level, in order, built with the variant's `map_fact` |
| Assembly.AssembleLevelsFails | tools/insert_data.py:344-383 | the level loop fails exactly when some level cannot be got through |
| Assembly.AssembleLevelsCounts | tools/insert_data.py:374-381 | the level loop counts every level and splits every offered fact between processed and skipped |
| Assembly.AssembleLevelsWarnings | tools/insert_data.py:367-374 | the level loop appends exactly each level's warnings under the variant's `map_fact`, labelled by title or position |
| Convert.SampleFact | tools/insert_data.py:301-306 | the facts check aborts exactly when the facts key is absent or falsy; a sample fact is the first item of a non-empty list |
| Convert.FindLevels | tools/insert_data.py:203-272 | the levels found are non-empty and start with the sample level |
| Convert.LevelChoices | tools/insert_data.py:275-295 | the level mapping maps id, title and facts to keys the sample has; an abort names a level field |
| Convert.FactChoices | tools/insert_data.py:310-338 | the fact mapping maps every required field to a key the sample fact has; an abort names a fact field |
| Convert.DecidePlan | tools/insert_data.py:275-338 | steps 2 and 3 give a plan mapping every essential level field, changing only the field-mapping log |
| Convert.Analyze | tools/insert_data.py:197-338 | steps 1 to 3 raise on a non-dict document, and otherwise give a valid plan and at least one level |
| Convert.ConvertJson | tools/insert_data.py:197-385 | a non-dict input raises |
| Convert.ConvertFails | tools/insert_data.py:197-385 | a conversion succeeds exactly when the analysis succeeds and every level can be got through |
| Convert.ConvertLevelDeclined | tools/insert_data.py:275-288 | when the sample level has the level fields before a missing one and the chooser declines that one, `convert_json` aborts naming it |
| Convert.ConvertFactDeclined | tools/insert_data.py:310-331 | when the level mapping is decided, the sample fact has the fact fields before a missing one and the chooser declines that one, `convert_json` aborts naming it |
| Convert.ConvertNoFacts | tools/insert_data.py:297-306 | `convert_json` aborts for want of facts exactly when the levels are found, the level mapping is decided, and the sample level's mapped facts key is absent or falsy |
| Convert.PlanNoFacts | tools/insert_data.py:275-306 | steps 2 and 3 abort for want of facts exactly when the level mapping is decided and the sample level's mapped facts key is absent or falsy |
| Convert.ConvertOutcome | tools/insert_data.py:340-385 | the output is `{"levels": [...]}` with every level's reference record, built with the variant's `map_fact`, in order; the statistics count every level and fact and append exactly the facts' warnings |
| Convert.RecordsCounted | tools/insert_data.py:376-378 | every reference record is a dict whose `factCount` is the length of its `facts` list |
| Convert.ConvertFactCounts | tools/insert_data.py:376-385 | the output has the single key `levels`, and every output level's `factCount` is the length of its `facts` |
| Merge.ExistingLevels | tools/insert_data.py:441-463 | an existing file contributes levels only if it is a dict with a `levels` list and wiping is off; it always contributes when that holds |
| Merge.MergeInto | tools/insert_data.py:475-477 | the merged document keeps its keys and other values, and its levels are the existing ones followed by the new ones |
| Merge.ConvertHasLevels | tools/insert_data.py:385 | a successful conversion's output is a dict with a `levels` list |
| Merge.Insert | tools/insert_data.py:467-477 | a run writes exactly when the conversion succeeds, and then writes the merge of the existing levels with the conversion's output |
| Merge.InsertLevels | tools/insert_data.py:441-477 | the written file holds only `levels`: the existing levels unchanged, then one reference record per input level, built with the variant's `map_fact` |
| Merge.MergeReadBack | tools/insert_data.py:448 | the file a run writes, read back by the next run, contributes every level it holds |
| Merge.MergeAccumulates | tools/insert_data.py:475-477 | two runs without wiping stack their levels after the existing ones, in run order |
| Scenarios.PresentMapsToItself | tools/insert_data.py:277-279 | when the sample has every field, each maps to itself and nothing is asked |
| Scenarios.NormalisedFactKept | tools/insert_data.py:149-189 | a fact already in the target shape is kept unchanged and counted, with no warning |
| Scenarios.DroppedWithoutResult | tools/insert_data.py:174-179 | a fact lacking only `result` is skipped, with exactly one warning naming its level, its index and `result` |
| Scenarios.KeptThenDropped | tools/insert_data.py:369-374 | a kept fact followed by one lacking `result`: the first is emitted and counted, the second skipped with its one warning |
| Scenarios.AddThenShort | tools/insert_data.py:369-374 | the same on the documented example facts |
| Scenarios.NormalisedFacts | tools/insert_data.py:369-374 | facts already in the target shape all pass unchanged and are counted as processed |
| Scenarios.NormalisedLevel | tools/insert_data.py:344-381 | a level of normalised facts is got through with every fact kept and nothing logged |
| Scenarios.AddAnalysis | tools/insert_data.py:197-338 | on the documented example, steps 1 to 3 ask nothing and decide the identity plan |
| Scenarios.AddConversion | tools/insert_data.py:197-385 | the documented example converts without a prompt into its expected output, counting one level and one fact, with nothing skipped or logged |

## Left out

- Terminal output is not modelled: the `print` calls, the `Colors` class and the confidence stars at line 66. They change no data.
- `print_report` (lines 387-413) is not modelled. It only formats `stats`, and the model returns `stats` as a value.
- Argument handling (lines 418-425) is not modelled. The two flags are the `includeAll` and `wipe` parameters.
- Reading and writing files (lines 427-438 and 483-491) is not modelled. The input is a parsed `Json` value. The existing output file is the `OutputFile` datatype: missing, unreadable or unparseable, or parsed.
- JSON parsing and serialisation, including `indent=2` and `ensure_ascii`, are not modelled.
- The similarity ratio is the `sim` parameter rather than difflib's SequenceMatcher, because its matching-block algorithm is outside this model.
- Text.Lower: only lower-cases ASCII letters. Unicode case mapping is not modelled.
- Text.ParseInt: reads an optional sign and ASCII digits, with single underscores between digits. It rejects the non-ASCII decimal digits that Python's `int()` also accepts.
- `stats['field_mappings']` is a dict keyed `level.<field>` and `fact.<field>`. The model keeps it as a list of `FieldChoice` entries. Each field is asked at most once per run, so the list holds the dict's entries in insertion order.
- The `except` handler of `map_fact` (lines 191-195) is not modelled as a warning. It is reached only by a fact that is not a dict, and there the handler's own `source_fact.get` raises again. So the model treats such a fact as an uncaught exception (`Crash`).
- Python exceptions are not distinguished by type. Every uncaught exception is `Crash`. This covers `input()` at end of input only partly: running out of lines is the separate `EndOfInput`.
- The other source files of the repository (the server API and its samples) are not part of this model.
- Features of a newer variant of the converter are not in `tools/insert_data.py` and are not modelled. These are synonym tables, an `index` derived from the record's position, a skip-invalid policy, QTI single-level detection, metadata indirection, level curation and live remapping during normalisation. The model follows the code.
- The design of that newer variant rejects a fact whose operator cannot be derived. The code keeps the fact with an empty operator and a warning (lines 165-169), and the `AsWritten` variant follows the code.
- ConvertJson: its own contract states only that a non-dict input raises. Its behaviour is stated by `Convert.ConvertFails`, `Convert.ConvertOutcome`, `Convert.ConvertNoFacts`, `Convert.ConvertLevelDeclined` and `Convert.ConvertFactDeclined`.
- MapFields: its own contract states only the failure kinds. Which field an abort names is stated by `Mapping.MapFieldsAbort`. The converse, `Mapping.MapFieldsDeclines`, covers the first field that is asked for; a decline after an earlier field was chosen is not stated.
- PromptUserForField: its own contract states only that a choice is a well-scoring sample key. Which line is taken and what it answers is stated by `Prompts.PromptUserForFieldAnswer`, `Prompts.Offered` and `Prompts.FieldAnswer`.

## Findings

| source | as written | input that shows it | evidently intended | confidence | as-written member | corrected member |
|---|---|---|---|---|---|---|
| tools/insert_data.py:164 | the operator fallback reads `type` from `target_fact`, the record being built, which never holds `type` at that point; the derived operator is therefore always "" and the "No operator found or generated" warning is always logged | the fact `{"index": 0, "operands": [2, 3], "result": 5, "expression": "2+3", "type": "addition"}` with no operator key gets operator "" and one warning | read `type` from `source_fact`, so the addition fact gets operator "+" and logs nothing | high, not executed | Facts.MapFactAsWritten (Facts.MapFactAsWrittenLosesOperator, Facts.AdditionFactAsWritten, Assembly.FactStepOperator) | Facts.MapFact (Facts.MapFactDerivesOperator, Facts.AdditionFactCorrected) |

Every operation from `Assembly.FactStep` up to `Merge.Insert` takes a
`Facts.Variant`. `AsWritten` runs the code as it stands, and
`Assembly.FactStepOperator` states the effect in the fact loop. `Corrected`
runs the evidently intended `Facts.MapFact`.
