# Metadata dictionary and NL-to-ESQL pipeline, modelled in Dafny

This project models the two notebooks at the core of an Elasticsearch
question-answering assistant:

- **The metadata-dictionary builder** (`create_metadata_dictionary.py`).
  - For every index, it reads the index mapping into `{field_name, data_type}` descriptors.
  - For every field, it samples representative terms with one aggregation request: frequent, rare and significant terms, the cardinality, and a few sample hits. A `text` field is aggregated on its `.keyword` sub-field.
  - It asks a Llama 3 model for a description, through a prompt built from two `str.format` templates.
  - It parses as JSON the span of the answer that runs from its first `{` to its last `}` (the regular expression is greedy). When there is no such span, or it does not parse, it builds a fallback entry instead.
  - Fields are processed on a thread pool and collected in completion order. Indices are processed one after another, and their entries are concatenated.
- **The question loop** (`nl2esql.py`).
  - `generate_esql` formats the ESQL prompt and asks the model.
  - `extract_tag` cuts the query out of the answer between `<sql_query>` tags, using the regular expression `<tag>\s*(.*?)\s*</tag>` with `DOTALL`.
  - `run_all_questions` numbers the questions from 1. A query that is not blank is executed, and its table is reported as empty or shown. A blank query is reported as missing.

Modules:

- `Wrappers`: `Option` and `Result`.
- `Text`: Python's whitespace class, `str.strip`, `str.find`, `str.join` and `str(int)`.
- `PyFormat`: `str.format(**kwargs)` over `{name}`, `{{` and `}}`. A template written as a list of tokens (`Piece`) formats to the rendering of those tokens (`FormatPieces`).
- `JsonData`: JSON values and bucket keys.
- `DescriptionPrompt`: the templates and `generate_prompt`.
- `MetadataDictionary`: `get_fields`, `get_diverse_terms`, the combined samples, `extract_json`, `process_field`, `process_index` and `generate_metadata_dictionary`.
- `Nl2Esql`: `extract_tag`, `generate_esql` and `run_all_questions`.

External services are given as function-valued parameters. These are Elasticsearch (`getMapping`, `search`, the SQL endpoint), the model (`generateText`), `json.loads` (`parseJson`) and `json.dumps` (`dumps`). The same applies to the order in which `list(set(...))` enumerates a set (`listSet`), which is constrained only to list every element once (`ListsSets`).

An exception is modelled as the error side of a `Result` or as `None`. For example, `format` raising `KeyError` on an unknown field is `None`.

Three behaviours of the code that a reader may not expect; the model follows the code as written:

- `extract_tag` returns `match.group(1)` and never calls `strip()`. Its result has no surrounding whitespace only because of the two `\s*` around the lazy group. `ExtractTagIsStripped` and `ExtractTagTrimmed` prove that it equals the stripped text between the first `<tag>` and the first `</tag>` after it.
- A failing aggregation request is not caught in `process_field`. It is raised outside the `try`, and `future.result()` re-raises it. So one field's sampling error aborts its index and the whole build. It does not yield a per-field fallback. `ProcessField`, `ProcessIndex` and `GenerateMetadataDictionary` state exactly this.
- An exception inside `run_all_questions` is not caught, so it ends the loop. The model records it as a final `Raised` step.

## Model

| member | source | states |
|---|---|---|
| Text.Strip | nl2esql.py:184 | `strip()` removes whitespace at both ends: the result is no longer than the input, neither starts nor ends with whitespace, and is empty exactly when the input is all whitespace |
| Text.StripSlice | nl2esql.py:130 | stripping the slice between two positions gives the text between the end of the leading whitespace run and the start of the trailing one |
| Text.StripTrimmed | nl2esql.py:184 | a string without whitespace at its ends is its own strip |
| Text.Find | nl2esql.py:130 | the search finds the first occurrence at or after the start, or reports that there is none |
| Text.FindExtend | nl2esql.py:130 | the first occurrence in a text stays the first one when more text is appended |
| Text.NatToString | create_metadata_dictionary.py:210 | `str(n)` is a non-empty digit string with no leading zero, denoting `n` |
| Text.IntToString | create_metadata_dictionary.py:210 | `str(i)` is the shortest decimal numeral denoting `i`: digits with no leading zero (except `"0"` itself), after a `-` exactly when `i` is negative |
| PyFormat.Format | create_metadata_dictionary.py:206-216 | `str.format(**kwargs)`; specified by `FormatPlain`, `FormatFieldThen`, `FormatEscapeThen`, `FormatAppend` and `FormatPieces` below |
| PyFormat.FormatPlain | create_metadata_dictionary.py:206-216 | text without braces formats to itself |
| PyFormat.FormatFieldThen | create_metadata_dictionary.py:206-216 | a `{name}` field is replaced by its keyword argument; a name missing from the arguments makes `format` raise |
| PyFormat.FormatEscapeThen | create_metadata_dictionary.py:183-189 | `{{` and `}}` each format to one literal brace |
| PyFormat.FormatAppend | create_metadata_dictionary.py:206-216 | a template prefix that formats on its own is formatted the same way inside a longer template |
| PyFormat.FormatConcat | create_metadata_dictionary.py:174-191 | two templates that format concatenate into a template that formats to the concatenation |
| PyFormat.FormatPieces | create_metadata_dictionary.py:206-216 | a template written as tokens formats exactly when every field is bound, and then to the tokens' rendering |
| PyFormat.RenderConcat | create_metadata_dictionary.py:174-191 | rendering distributes over concatenation of token lists |
| DescriptionPrompt.InputSectionRender | create_metadata_dictionary.py:175-179 | the input lines of the user template render with index, field, data type and samples in their places |
| DescriptionPrompt.InstructionsRender | create_metadata_dictionary.py:180-183 | the instruction lines render to their text, with `{{` giving one `{` |
| DescriptionPrompt.AnswerFormatRender | create_metadata_dictionary.py:184-189 | the five-key answer format renders with field, index, data type and samples filled in and `}}` giving one `}` |
| DescriptionPrompt.UserPromptFormat | create_metadata_dictionary.py:206-211 | formatting the user template with the four arguments never raises and yields the written-out user prompt |
| DescriptionPrompt.TurnRender | create_metadata_dictionary.py:162-165 | each chat turn renders to its opening token, its role header, a newline and its argument |
| DescriptionPrompt.BasePromptFormat | create_metadata_dictionary.py:212-216 | formatting the Llama 3 base prompt never raises and places the system prompt, user prompt and assistant prefix in the system, user and assistant turns |
| DescriptionPrompt.GeneratePrompt | create_metadata_dictionary.py:196-216 | `generate_prompt`; `GeneratePromptText` states the prompt it returns |
| DescriptionPrompt.GeneratePromptText | create_metadata_dictionary.py:196-216 | the full prompt is the chat frame holding the system prompt, the user prompt for this field with its samples joined by `", "`, and the assistant prefix |
| JsonData.GetMember | create_metadata_dictionary.py:313-319 | in an object with distinct keys, looking up a member's key finds that member's value |
| MetadataDictionary.PropertiesOf | create_metadata_dictionary.py:65 | a response without the index raises `KeyError`; otherwise the mapping's `properties` list is returned unchanged, or no properties when it has none |
| MetadataDictionary.Fields | create_metadata_dictionary.py:56-70 | one descriptor per mapping property, in order, with the property's name and its type or `"unknown"`; the mapping call's error propagates, and a response without the index raises `KeyError(index)` |
| MetadataDictionary.GetFields | create_metadata_dictionary.py:64-70 | the loop appends exactly the descriptors `Fields` specifies |
| MetadataDictionary.AggField | create_metadata_dictionary.py:93 | the aggregation target is `field + ".keyword"` exactly for `text` fields, the field itself otherwise |
| MetadataDictionary.SamplingRequest | create_metadata_dictionary.py:94-125 | the five aggregations all target the aggregation field, except the hit sample; terms sizes are `size`, the rare-terms ceiling is 5 and the hit sample holds 3 |
| MetadataDictionary.BucketKeys | create_metadata_dictionary.py:129-131 | one key per bucket, in bucket order |
| MetadataDictionary.GetDiverseTerms | create_metadata_dictionary.py:82-134 | the search's error propagates; otherwise the three term lists are the bucket keys and count and hits are passed through |
| MetadataDictionary.CombinedSamples | create_metadata_dictionary.py:302-306 | `list(set(frequent + rare + significant))[:threshold]`; `CombinedSamplesSpec` states what it holds |
| MetadataDictionary.ListingSize | create_metadata_dictionary.py:302-306 | a list without duplicates is as long as its set of elements |
| MetadataDictionary.CombinedSamplesSpec | create_metadata_dictionary.py:302-306 | the combined samples are distinct terms of the three lists, as many as the threshold allows, and all of them when the threshold reaches their number |
| MetadataDictionary.JsonSpan | create_metadata_dictionary.py:227-228 | the regex span starts at the leftmost `{` that has a `}` after it and ends at the last `}`; none exists exactly when no `{` precedes a `}` |
| MetadataDictionary.ExtractJson | create_metadata_dictionary.py:218-234 | "no JSON object" is raised exactly when no brace span exists; an unparsable span raises; otherwise the span's parse is returned |
| MetadataDictionary.Fallback | create_metadata_dictionary.py:313-319 | the fallback object; `FallbackEntry` states its keys and values |
| MetadataDictionary.FallbackEntry | create_metadata_dictionary.py:313-319 | the fallback object has exactly the five keys, once each, holding field, index, data type, model text and the first sample or `""` |
| MetadataDictionary.ModelText | create_metadata_dictionary.py:307-308 | the model's answer to the field's prompt after `strip()`: no longer than the answer and without whitespace at either end |
| MetadataDictionary.ProcessField | create_metadata_dictionary.py:287-321 | `process_field` fails exactly when sampling fails, with sampling's error; extraction failures never escape |
| MetadataDictionary.ProcessFieldParsed | create_metadata_dictionary.py:310-311 | when the stripped model text holds a parsable brace span, that parse is the entry |
| MetadataDictionary.ProcessFieldFallback | create_metadata_dictionary.py:312-319 | when extraction fails, the entry is the fallback built from the inputs, the stripped model text and the combined samples |
| MetadataDictionary.AsCompleted | create_metadata_dictionary.py:363-364 | the results are collected in some completion order: on success a permutation of all the entries, and otherwise one of the failures |
| MetadataDictionary.ProcessIndex | create_metadata_dictionary.py:349-365 | succeeds exactly when the mapping is read and every field succeeds, then returns a permutation of the per-field entries; otherwise raises the mapping error or one field's error |
| MetadataDictionary.FlattenAppend | create_metadata_dictionary.py:379 | `extend` appends the next index's list to the concatenation |
| MetadataDictionary.FieldCountAppend | create_metadata_dictionary.py:378-379 | the field count of the processed indices grows by the next index's field count |
| MetadataDictionary.AllDoneAppend | create_metadata_dictionary.py:378-379 | the per-index results remain valid after one more index is processed |
| MetadataDictionary.ProcessIndices | create_metadata_dictionary.py:377-380 | the loop succeeds exactly when every index succeeds, and then yields the per-index lists concatenated in index order, one entry per field; otherwise the first failing index's error |
| MetadataDictionary.GenerateMetadataDictionary | create_metadata_dictionary.py:367-380 | `get_indices`' error propagates; otherwise the dictionary is the per-index entries in index order, one per field, or the error of the first failing index |
| Nl2Esql.Group | nl2esql.py:130 | where group 1 of the `re.search` match lies: within the text, and with no whitespace at either end of a non-empty group; `GroupIsSearch` states which match it is |
| Nl2Esql.ExtractTag | nl2esql.py:118-131 | `extract_tag`: the result is no longer than the text and has no whitespace at either end; `ExtractTagIsSearch` and the lemmas after it state which text it is |
| Nl2Esql.GroupIsSearch | nl2esql.py:130 | the computed group is none exactly when the pattern cannot match; otherwise it is the group of the match the regex engine prefers (leftmost start, longest leading whitespace, shortest group) |
| Nl2Esql.PreferredMatch | nl2esql.py:130 | the chosen match starts at the first opening tag and closes at the first closing tag after it, and it beats every other match from that start |
| Nl2Esql.GroupHasNoClose | nl2esql.py:130 | the lazy group never contains the closing tag |
| Nl2Esql.GroupIsStripped | nl2esql.py:130 | the group is the stripped text between the first opening tag and the next closing tag |
| Nl2Esql.GroupFirstRegion | nl2esql.py:130 | text appended after a match does not move the group |
| Nl2Esql.ExtractTagIsSearch | nl2esql.py:118-131 | `extract_tag` returns `""` when nothing matches, and otherwise `group(1)` of the match `re.search` reports |
| Nl2Esql.ExtractTagIsStripped | nl2esql.py:130-131 | the result is the stripped text between the first `<tag>` and the first `</tag>` after it |
| Nl2Esql.ExtractTagHasNoCloseTag | nl2esql.py:130-131 | the result never contains `</tag>` |
| Nl2Esql.ExtractTagTrimmed | nl2esql.py:130-131 | the result has no whitespace at either end, so `strip()` leaves it unchanged |
| Nl2Esql.ExtractTagFirstRegion | nl2esql.py:130-131 | first match wins: text after the first tagged region does not change the result |
| Nl2Esql.EsqlArgs | nl2esql.py:161-166 | `format` receives exactly the four arguments: `user_query` is the question, `index_name` the index name, `todays_date` the date and `mapping` the metadata serialized by `json.dumps` |
| Nl2Esql.GenerateEsql | nl2esql.py:150-168 | `generate_esql` raises exactly when formatting the prompt raises; otherwise it returns the `sql_query` region of the model's answer to the formatted prompt |
| Nl2Esql.EsqlPromptFormat | nl2esql.py:161-166 | a prompt written as tokens formats exactly when all its fields are among the four arguments, and then to its rendering |
| Nl2Esql.GenerateEsqlPrompt | nl2esql.py:150-168 | for a prompt written as tokens, `generate_esql` succeeds exactly when every field is one of the four names, and then the model sees the rendered prompt |
| Nl2Esql.QueryOutcome | nl2esql.py:184-192 | a blank query is reported as missing and never run; any other query is run, and its error is raised, an empty table is "no results", and a non-empty table is shown |
| Nl2Esql.StepFor | nl2esql.py:181-192 | what one question reports: a raising `generate_esql` stops with a raised step, otherwise `QueryOutcome` of the query |
| Nl2Esql.Run | nl2esql.py:171-192 | `run_all_questions` as a value: `RunSteps`, `RunStops` and `RunComplete` state what it reports |
| Nl2Esql.RunSteps | nl2esql.py:171-192 | a run reports questions in list order, numbered on from the start number, each with its own step; it is empty only for no questions |
| Nl2Esql.RunStops | nl2esql.py:171-192 | no step before the last raised, and a run that stops early stops at a step that raised |
| Nl2Esql.RunComplete | nl2esql.py:171-192 | when no question raises, every question is reported |
| Nl2Esql.RunAllQuestions | nl2esql.py:171-192 | the loop numbers questions from 1 and reports exactly the steps `Run` specifies |
| Nl2Esql.AnswerQuestion | nl2esql.py:180-192 | one pass of the loop reports exactly the step `StepFor` specifies |

## Left out

- Printing, `display`, and the notebook's file reads and writes are left out. These include `metadata.json`, the progress messages and the test cells at create_metadata_dictionary.py:236-278 and 323-340. The model returns what would be printed or written.
- The thread pool's width (`max_workers=10`) and any real concurrency are left out. Only the completion order is modelled, as an arbitrary permutation.
- The JSON text grammar is left out. `json.loads` is the parameter `parseJson`, and `json.dumps(..., indent=1)` is the parameter `dumps`.
- The set iteration order behind `list(set(...))` is left out. It is the parameter `listSet`, which must list every element exactly once.
- The Elasticsearch client, the SQL endpoint (`execute_esql_query`) and the watsonx model client are parameters. They are not modelled. The watsonx wrapper is not part of this model.
- Exceptions raised by the model client's `generate_text` (authentication, quota, timeouts) are not modelled: `generate_text` is a total function of the prompt. The "exactly when" statements of `ProcessField`, `ProcessIndex`, `ProcessIndices`, `GenerateMetadataDictionary` and `GenerateEsql` hold under that assumption; with a failing model client the corresponding call would raise as well.
- `get_indices` is the given result `indices` of `Services`.
- `esql_prompt` (prompts.py) is the parameter `esqlPrompt` of `EsqlContext`. Its text is not modelled. `final_answer_prompt` is used only by the result summary, which is not part of this model.
- The query helpers, the indexing script and the Streamlit front end are not part of this model.
- Bucket keys are strings or integers. Floating-point and boolean keys, and their `str` forms, are left out.
- JSON numbers with a fraction or exponent are exact reals (`JFloat`). The rounding of IEEE 754 doubles, and the `NaN` and `Infinity` values `json.loads` accepts, are left out.
- Format specifications and conversions (`{x:>10}`, `{x!r}`), attribute and index access in field names, and positional fields are left out. The templates use none of these. `format` on them is modelled as raising.
- Responses that lack the keys the code indexes (for example `mappings`, `aggregations`, `buckets`, `value`, `hits`, `columns`, `rows`) are left out. Only a response without the index key in `get_fields` is modelled, as `KeyError`.
- Nl2Esql.IsTagName: tag names are restricted to letters, digits and `_`, so the tag stands for itself inside the regular expression. A tag with regex metacharacters is not modelled. Both callers use `sql_query`.
- Nl2Esql.RunAllQuestions: it takes `generate_esql` as the parameter `generate`, because the notebook binds it to module-level globals. `GenerateEsql` is the function to pass.
- MetadataDictionary.ProcessIndex: it takes `process_field` as the parameter `process`. `GenerateMetadataDictionary` passes `FieldProcessor`, which is `process_field` with the builder's threshold.
- MetadataDictionary.ProcessIndex: an exception in a field whose result is taken after an earlier field's error is not observed. Only the first error taken is reported, as in `as_completed`.
