# ozon-env core, modelled in Dafny

This project models the deterministic core of ozon-env, a Python framework
that turns form-builder (formio) schemas into record models and stores the
records in MongoDB. The model covers the following parts:

- **Schema compiler** (`FormioModelMaker`). It walks a form's component
  tree in document order. Layout kinds are walked through; every other kind
  goes to its `add_<type>` handler, which records a `(type, default)` row.
  The walk fills the builder's metadata tables: unique, required and
  no-clone keys, server-computed fields, hidden/readonly/required defaults,
  conditionals, logic, transforms and bounds.
- **Field descriptors** (`Component`, `selectComponent`, `surveyComponent`).
  A descriptor derives its configuration from the raw node (`update_config`)
  and applies the node's logic actions. It also walks jsonLogic expressions
  to record which components depend on which form fields.
- **Value type inference** (`get_field_type`, `get_field_value`,
  `parse_make_field`, `_make_from_dict`). Inference runs a five-alternative
  regular expression and a datetime expression over the string form of a
  sample value. The near-copies `parse_value`/`value_type` of the record
  facades are modelled beside it.
- **Record facades** (`MainModel`, `CoreModel`, `DictRecord`, `Record`). They
  provide dotted-path reads with list indices, stored plus display values
  (`data_value`), lifecycle flags and clones without identifying keys.
- **Helpers**:
  - sort strings, domains, record-name checking, unique-field merging and
    `copy` suffixing (`OzonModelBase`);
  - response envelopes, model-name normalisation, `camel` and `data_model`
    resolution (`OzonOrm`);
  - next-page resolution and worker responses (`OzonWorkerEnv`);
  - template decoding, nested lookup and `is_json` (`utils.py`).

## How it is modelled

- JSON and Python values are one datatype, `Values.Value`. A Python
  dictionary is an association list that keeps insertion order, with
  `Lookup`/`Put`/`Remove`/`Update`.
- Code that mutates objects is modelled as classes with `modifies` clauses:
  - `BaseModels.CoreModel`, `BaseModels.DictRecord` and `OzonRecord.Record`
    for the records;
  - `Components.Registry` and `Components.Field` for the descriptor and the
    lists it writes into;
  - `Compiler.Builder` for `FormioModelMaker`;
  - `OzonModel.ModelBase` and `OzonOrm.Orm`;
  - `Utils.KeyList` for the list that `fetch_dict_get_value` consumes.
- Each such method is proved equal to a specification function, and the
  properties are proved about those functions as lemmas.
- A method or function returning `ok == false`, or `Fail(..)`, stands for
  "Python raised here".
- Facilities outside the core are parameters of type `Values.Externals`:
  - `json.loads`, `dateutil.parse`, and `float()` of a whole text (the
    record parser's cast; the model maker's inference reads a float match
    exactly instead);
  - the `repr` of floats and containers;
  - the jsonLogic evaluator;
  - the `defaultdt` default.
- The regular expressions are implemented by hand (`Scanner`), with
  `re.finditer` and `re.search` semantics. `.` stops at a line break; `\d`
  and the letter classes are ASCII.

## Model

| member | source | states |
|---|---|---|
| Scanner.DigitRunEnd | ozonenv/core/ModelMaker.py:750-751 | a greedy `\d+` run ends at the first non-digit or at the end of the text |
| Scanner.MatchAt | ozonenv/core/ModelMaker.py:749-752 | the value pattern, tried at one position: a match starts there and consumes at least one character |
| Scanner.FindFrom | ozonenv/core/ModelMaker.py:762-763 | `re.finditer`: every match is the anchored match at its own start, and matches are ordered and do not overlap |
| Scanner.FindAll | ozonenv/core/ModelMaker.py:808-809 | all matches lie within the text |
| Scanner.SearchFrom | ozonenv/core/ModelMaker.py:757 | `re.search`: a match is found at the leftmost position where the pattern matches; None means no position matches |
| Scanner.SearchIsFirstFound | ozonenv/core/ModelMaker.py:757-763 | `re.search` returns exactly the first match `re.finditer` yields |
| Scanner.DateTimeAt | ozonenv/core/ModelMaker.py:730-732 | a datetime match is at least 19 characters long: `YYYY-MM-DD`, one or more upper-case letters, `HH:MM:SS` |
| Scanner.SearchDateTimeFrom | ozonenv/core/ModelMaker.py:753 | the leftmost datetime match; None exactly when no position matches |
| Inference.WholeMatchIsOnly | ozonenv/core/ModelMaker.py:757-765 | a match spanning the whole text is the only match and the one `search` finds |
| Inference.NoDateTimeWithoutDash | ozonenv/core/ModelMaker.py:753-755 | a text without `-` never matches the datetime pattern |
| Inference.IntRoundTrip | ozonenv/core/ModelMaker.py:742-813 | a natural number's string form is typed `int` and read back as that number |
| Inference.BoolRoundTrip | ozonenv/core/ModelMaker.py:747-748 | `str(True)`/`str(False)` are typed `bool` and read back as that boolean |
| Inference.WordRoundTrip | ozonenv/core/ModelMaker.py:771-776 | a word of letters that is not a boolean spelling is typed `str` and kept unchanged |
| Inference.SingleNumberCoerced | ozonenv/core/ModelMaker.py:771-774 | a single int or float match converts only the captured digits, ignoring the text around them |
| Inference.SeveralMatchesStayText | ozonenv/core/ModelMaker.py:742-813 | two or more matches give type `str` and leave the text unchanged |
| Inference.LeadingContainerIsJson | ozonenv/core/ModelMaker.py:777-783 | a text whose first match is a list or dict is JSON-decoded, or kept when it does not parse |
| Inference.MixedTextIsString | ozonenv/core/ModelMaker.py:810-811 | `"abc123"` (a word and a number) stays the string `"abc123"` |
| Inference.NoisyIntegerScan | ozonenv/core/ModelMaker.py:749-752 | the scan of `"#12!"` is a single int match on `12` |
| Inference.NoisyIntegerIsCleaned | ozonenv/core/ModelMaker.py:771-774 | `"#12!"` is typed `int` and read as 12 |
| Inference.ParseMakeField | ozonenv/core/ModelMaker.py:815-820 | without a parser entry the result is the inferred type and value; with one, the declared type converts the value |
| Inference.MakeFromDictKeepsKeys | ozonenv/core/ModelMaker.py:825-850 | the inferred table has exactly the sample's keys, in the same order |
| Inference.MakeFromDictTotal | ozonenv/core/ModelMaker.py:825-850 | without declared parsers, inference never raises, however deeply the sample nests |
| Inference.ListTypingSound | ozonenv/core/ModelMaker.py:822-846 | the corrected list typing declares an element type only when every item has it, and keeps the plain list otherwise |
| Inference.ListOfWordsTyping | ozonenv/core/ModelMaker.py:842-846 | `["a", "b"]` is declared `List[int]` as written and `List[str]` by the corrected typing |
| Inference.CapitalisedTrueStaysText | ozonenv/core/OzonRecord.py:54-89 | the record parser keeps `"True"` as text while the model maker reads it as a boolean |
| Inference.NoisyIntegerRaises | ozonenv/core/OzonRecord.py:54-123 | the record parser raises on `"#12!"` (it casts the whole text) while `value_type` says `int` |
| Inference.LoneNumberCast | ozonenv/core/OzonRecord.py:54-89 | a lone int or float match casts the WHOLE text with the match's type |
| Inference.NoSignNoDigitNotInt | ozonenv/core/OzonRecord.py:54-89 | `int(s)` raises on a stripped text that opens with neither a sign nor a digit |
| Inference.RecordParseContainerRaises | ozonenv/core/OzonRecord.py:86-89 | as written, every text opening with a list or dict match makes `parse_value` raise; corrected, it is JSON-decoded |
| Inference.ListTextRaises | ozonenv/core/BaseModels.py:588-591 | `"[1]"` is a list match, and the written `parse_value` raises on it |
| Utils.CloseTag | ozonenv/core/utils.py:28 | the end of a shortest `<…>`: the first `>` with no `>` or line break before it |
| Utils.DecodeResourceTemplate | ozonenv/core/utils.py:27-31 | the decoded keys contain no dot |
| Utils.DecodeItemTemplate | ozonenv/core/utils.py:27-31 | decoding inverts the builder's item template: the keys of `<span>{{ item.k1.k2 }}</span>` come back in order |
| Utils.SingleKeyTemplate | ozonenv/core/utils.py:27-31 | a one-key template decodes to that key |
| Utils.DefaultTemplateIsItemTemplate | ozonenv/core/ModelMaker.py:446-450 | the default template of a resource select is the item template of the key `label` |
| Utils.CleanItemTemplate | ozonenv/core/utils.py:28-30 | removing the tags, the `{{ `/` }}` markers and the padding leaves `item.<path>` |
| Utils.KeyList.constructor | ozonenv/core/utils.py:34 | the shared list starts with the given keys |
| Utils.FetchDictGetValue | ozonenv/core/utils.py:34-43 | the result is the value at the end of the key path (None for no keys), and the list has lost the keys the lookup consumed |
| Utils.FetchConsumesAll | ozonenv/core/utils.py:37-43 | a lookup that returns leaves the shared list empty |
| Utils.FetchNested | ozonenv/core/utils.py:34-43 | following a path through the dictionaries nested along it finds the value |
| Utils.MissingKeys | ozonenv/core/utils.py:39-43 | a missing last key gives None; a missing earlier key raises on the next `.get` |
| Utils.IsJson | ozonenv/core/utils.py:46-55 | text that parses gives the parsed value |
| Utils.IsJsonSources | ozonenv/core/utils.py:46-55 | when neither the text nor its re-quoted form parses, `False` comes back; any other result is the parse of one of the two |
| Utils.RequoteFree | ozonenv/core/utils.py:50 | re-quoting removes every `'`, and text without one is retried unchanged |
| Descriptors.VarDep | ozonenv/core/ModelMaker.py:370-383 | a `var` operand names at most one field, and only when it is a string containing `form.` |
| Descriptors.FormPathDependency | ozonenv/core/ModelMaker.py:374-380 | `form.<name>` depends on `<name>` |
| Descriptors.DataValuePathDependency | ozonenv/core/ModelMaker.py:374-378 | `form.data_value.<name>` depends on `<name>`, the third segment |
| Descriptors.DepsNeedsDict | ozonenv/core/ModelMaker.py:356-358 | only a dictionary expression is walked; any other raises |
| Descriptors.DepsEntriesStops | ozonenv/core/ModelMaker.py:357-369 | a walk that raised at an entry is the walk of the whole dictionary |
| Descriptors.DepsItemsStops | ozonenv/core/ModelMaker.py:362-366 | the same for the dictionary items of a list |
| Descriptors.RecordDepsLookup | ozonenv/core/ModelMaker.py:379-383 | after recording, every visited field lists the component once more only if it was not listed yet; all other entries are unchanged |
| Descriptors.RecordDepsMember | ozonenv/core/ModelMaker.py:379-383 | every visited field lists the component afterwards |
| Descriptors.RecordDepsAppend | ozonenv/core/ModelMaker.py:356-383 | recording splits over concatenated walks |
| Descriptors.RecordDepsNoop | ozonenv/core/ModelMaker.py:381 | recording names that already list the component changes nothing |
| Descriptors.RecordDepsIdempotent | ozonenv/core/ModelMaker.py:381-383 | recording the same walk twice is recording it once |
| Descriptors.RecordDepsValid | ozonenv/core/ModelMaker.py:379-383 | the dependency map keeps each field once and each component once per field |
| Descriptors.DefaultTemplateKeys | ozonenv/core/ModelMaker.py:446-450 | the default template decodes to `["label"]` |
| Descriptors.NoClone | ozonenv/core/ModelMaker.py:150-153 | `no_clone` is true whenever `calculateServer` is truthy |
| Descriptors.LimitValues | ozonenv/core/ModelMaker.py:200-203 | the bounds `{min, max}` exactly when either is set, else nothing |
| Descriptors.NormalizedLookup | ozonenv/core/ModelMaker.py:232-236 | normalising touches only the `properties` and `validate` blocks |
| Descriptors.NormalizedGet | ozonenv/core/ModelMaker.py:233-236 | every other key of the node reads and exists as before |
| Descriptors.NormalizedBlocksFacts | ozonenv/core/ModelMaker.py:185-196 | the normalised node's blocks are the original dictionary `properties`, or `{}`, and the truthy `validate`, or `{}` |
| Descriptors.ConfigureBlocks | ozonenv/core/ModelMaker.py:185-236 | after `update_config` the node has dictionary blocks, and a dictionary `properties` block is kept as it was |
| Descriptors.ConfigureNeedsValidateDict | ozonenv/core/ModelMaker.py:244-248 | a truthy `validate` that is not a dictionary makes the field fail |
| Descriptors.DatetimeNeedsWidget | ozonenv/core/ModelMaker.py:276-281 | a datetime node without a `widget` holding both bounds makes the field fail |
| Descriptors.ConfigureBase | ozonenv/core/ModelMaker.py:237-257 | what the common stage writes under a base key survives the datetime, decimal and select stages |
| Descriptors.ReadonlyRule | ozonenv/core/ModelMaker.py:239-242 | `readonly` holds exactly when `readOnlyValue` or `properties.readonly` is truthy |
| Descriptors.RequiredRule | ozonenv/core/ModelMaker.py:244-247 | `required` holds exactly when `validate.required` or `properties.required` is truthy |
| Descriptors.UniqueRule | ozonenv/core/ModelMaker.py:248 | `unique` is `validate.unique`, False when absent |
| Descriptors.CalculateServerRule | ozonenv/core/ModelMaker.py:249-255 | `calculateServer` is a truthy `calculateValue`, else `properties.calculateServer`; either way a truthy one makes the field no-clone |
| Descriptors.DatetimeDateDefault | ozonenv/core/ModelMaker.py:262-268 | with neither flag set and no `enableDate` key, a datetime node shows a date, with transform `{type: date}` |
| Descriptors.DatetimeFlags | ozonenv/core/ModelMaker.py:262-275 | the transform is `date`, `datetime` or absent, and the datetime flag is set, as the date and time flags decide |
| Descriptors.DatetimeBoth | ozonenv/core/ModelMaker.py:269-275 | both flags `True` give transform `{type: datetime}` and `datetime = True` |
| Descriptors.DecimalTransform | ozonenv/core/ModelMaker.py:282-293 | `requireDecimal` gives transform `{type: float, dp, mask, dps}` with the defaults 2, `decimal` and `,`, and bounds from `validate` |
| Descriptors.SelectNeedsData | ozonenv/core/ModelMaker.py:469-482 | a select node without a `data` dictionary cannot be configured |
| Descriptors.Walked | ozonenv/core/ModelMaker.py:356-383 | the dependency walk changes neither the node nor the configuration |
| Descriptors.ActionsInOrder | ozonenv/core/ModelMaker.py:339-343 | actions run in list order: `a + b` is `a`, then `b` unless `a` raised |
| Descriptors.LogicInOrder | ozonenv/core/ModelMaker.py:345-354 | logic entries run in list order, stopping at the first that raises |
| Descriptors.FalsyTriggerKeepsState | ozonenv/core/ModelMaker.py:337-343 | a falsy trigger result leaves the descriptor unchanged |
| Descriptors.PropertyActionOnValidate | ozonenv/core/ModelMaker.py:312-318 | a property action on `validate.<name>` sets the key `<name>` to the action's state |
| Descriptors.PropertyActionPlain | ozonenv/core/ModelMaker.py:312-318 | a property action on any other name sets that very key |
| Descriptors.MirrorPropFacts | ozonenv/core/ModelMaker.py:332-335 | mirroring writes the key into an existing `properties` block, and changes no other entry of the node |
| Descriptors.ValueActionStoresResult | ozonenv/core/ModelMaker.py:319-335 | a value action without `=` stores the trigger's result; under `value` it is coerced through the field's type, otherwise it is also mirrored into `properties` |
| Descriptors.ValueActionAssigns | ozonenv/core/ModelMaker.py:302-328 | `k=text` stores the text when it is not JSON, else the evaluator's result after recording the expression's dependencies |
| Descriptors.AssignmentText | ozonenv/core/ModelMaker.py:321-324 | `k=rhs` splits once at its first `=` |
| Descriptors.LogicAndConditionTame | ozonenv/core/ModelMaker.py:385-389 | logic and conditional change no entry of the node but `properties`, and keep the dependency map free of repeats |
| Descriptors.ConditionalOverridesHidden | ozonenv/core/ModelMaker.py:385-389 | the conditional runs after the logic, so with a condition `hidden` is the negation of its result, whatever the actions set |
| Widgets.SelectDefaultNeedsKeys | ozonenv/core/ModelMaker.py:542-547 | a configuration that is not a dictionary or lacks the field, or a field entry that is not a dictionary or lacks one of the four keys, raises |
| Widgets.SelectDefaultConfigured | ozonenv/core/ModelMaker.py:542-558 | without a dotted `valueProperty`, or with an id selected, the default is the configured one (a list for a multi-select, `[]` when falsy) |
| Widgets.SelectDefaultFromForm | ozonenv/core/ModelMaker.py:559-568 | with a dotted `valueProperty`, no id and a non-empty form, the form value after the first dot (or `""`) replaces a single default or is appended to a multiple one |
| Widgets.SelectDefaultEmptyForm | ozonenv/core/ModelMaker.py:559-568 | with an empty form the falsy selected id takes the form value's place |
| Widgets.CollectOk | ozonenv/core/ModelMaker.py:607-646 | a walk that completes maps each item to its result, in order |
| Widgets.CollectStops | ozonenv/core/ModelMaker.py:607-646 | the first item that raises ends the walk |
| Widgets.Grid | ozonenv/core/ModelMaker.py:602-648 | the nested loops give exactly the grid specification |
| Widgets.Rows | ozonenv/core/ModelMaker.py:607-646 | the question loop collects one row per question, stopping at the first that raises |
| Widgets.QuestionRow | ozonenv/core/ModelMaker.py:616-646 | one question row with one cell per builder value |
| Widgets.GridShape | ozonenv/core/ModelMaker.py:602-648 | a grid has one row per question and one cell per builder value in every row |
| Widgets.AsWrittenNeverChecked | ozonenv/core/ModelMaker.py:639-642 | as written, a question valued neither `label` nor `value` never has a ticked cell |
| Widgets.IntendedChecksAnswer | ozonenv/core/ModelMaker.py:639-642 | corrected, a cell is ticked exactly when the form's answer is truthy and equals the cell's value |
| Widgets.SurveyFinding | ozonenv/core/ModelMaker.py:639-642 | the answered `yes` stays unticked as written and is ticked when corrected |
| Components.Registry.constructor | ozonenv/core/ModelMaker.py:715-725 | the builder's lists and dependency map start empty and valid |
| Components.Field.constructor | ozonenv/core/ModelMaker.py:25-66 | the descriptor holds its node, an empty configuration, and an empty parent and children |
| Components.Field.SetParent | ozonenv/core/ModelMaker.py:104-107 | a falsy parent is ignored |
| Components.Field.SetChilds | ozonenv/core/ModelMaker.py:209-213 | the fields of a nested model are appended, not assigned |
| Components.PropsFixedKeeps | ozonenv/core/ModelMaker.py:185-189 | fixing the `properties` block leaves every key `eval_components` reads as it was |
| Components.Field.Properties | ozonenv/core/ModelMaker.py:185-189 | a `properties` block that is not a dictionary is replaced by `{}`, and the block is returned |
| Components.Field.UpdateConfig | ozonenv/core/ModelMaker.py:232-293 | the node and configuration become exactly `Descriptors.Configure`'s, or the call raises where it does |
| Components.Field.FindLogicRelFields | ozonenv/core/ModelMaker.py:356-383 | the recursion records exactly the walk's names in the builder's map, and raises exactly when the walk does |
| Components.Field.ApplyAction | ozonenv/core/ModelMaker.py:310-335 | the new state is `Descriptors.ApplyActionSpec` of the old |
| Components.Field.ComputeLogic | ozonenv/core/ModelMaker.py:337-343 | the action loop gives exactly `Descriptors.ComputeLogicSpec` |
| Components.Field.EvalLogic | ozonenv/core/ModelMaker.py:345-354 | the logic loop gives exactly `Descriptors.EvalLogicSpec` |
| Components.Field.AvalConditional | ozonenv/core/ModelMaker.py:295-300 | gives exactly `Descriptors.ConditionalSpec` |
| Components.Field.ComputeLogicAndCondition | ozonenv/core/ModelMaker.py:385-389 | the logic, then the conditional |
| Components.Field.EvalComponents | ozonenv/core/ModelMaker.py:397-416 | an input's key is appended, a table view sets its column, and a filter key is added only when not yet listed; a component with logic or conditions is listed, and unless it is a table its logic and conditional run as `LogicAndConditionSpec` says |
| Components.NewField | ozonenv/core/ModelMaker.py:428-467 | the descriptor class follows the node type; an unhashable key or a failing select source raises, after a resource or url select is listed as external |
| Compiler.RowEntry | ozonenv/core/ModelMaker.py:1004-1006 | the row keeps the mapper type; a truthy `defaultValue` replaces the default |
| Compiler.LimitTableKeeps | ozonenv/core/ModelMaker.py:1002-1003 | keyed by field, recording a field's bounds sets that field's entry and leaves every other field's bounds unchanged |
| Compiler.LimitTableFinding | ozonenv/core/ModelMaker.py:1002-1003 | with two bounded fields the written table holds only the second field's bounds; keyed by field, both are kept |
| Compiler.InitialTables | ozonenv/core/ModelMaker.py:666-682 | a new builder's tables are valid: `rec_name` heads the unique, required and no-clone keys |
| Compiler.Booked | ozonenv/core/ModelMaker.py:991-999 | required, unique and no-clone keys are booked as the configuration says; a no-clone key is added at most once; validity is kept |
| Compiler.CompleteTables | ozonenv/core/ModelMaker.py:950-971 | the hidden/readonly/required defaults, conditionals, logic and configuration are recorded, and the unique/required/no-clone lists are untouched |
| Compiler.ConfiguredKeeps | ozonenv/core/ModelMaker.py:977-1006 | configuring keeps the keys read back afterwards: `key`, `input`, `defaultValue`, `conditional` |
| Compiler.Builder.constructor | ozonenv/core/ModelMaker.py:652-740 | a new builder has the initial tables and no rows; a nested one writes into the parent's registry |
| Compiler.Builder.Evaluate | ozonenv/core/ModelMaker.py:972-975 | `eval_components` registers the node's input key, table column and filter; its logic and conditions leave the state `LogicAndConditionSpec` describes, a table is left as it was, and a raise is reported as `ok == false` |
| Compiler.Builder.CompleteComponent | ozonenv/core/ModelMaker.py:950-975 | records the descriptor in the tables; unless `has_conditions` raises, registers its input key, table column, filter and logic entry and leaves it in the state `LogicAndConditionSpec` gives, errors logged; otherwise the registry is untouched |
| Compiler.Builder.ConfigureField | ozonenv/core/ModelMaker.py:978-990 | the descriptor is built into the registry it writes to and configured as `Compiler.Configured` says |
| Compiler.Builder.RecordField | ozonenv/core/ModelMaker.py:991-1007 | books the keys, records the transform, bounds and row, then completes the field; on success the registry gains exactly what `Evaluated` lists, otherwise nothing |
| Compiler.Builder.CompleteComponentField | ozonenv/core/ModelMaker.py:977-1007 | the row is `RowEntry` when the field configures; the tables are `FieldTables` of the old ones, with bounds kept per field; the call fails exactly when configuring, the transform copy or `has_conditions` raises; on success the registry gains the node's input key, table column, filter and logic entry (`Evaluated`), otherwise nothing |
| Compiler.Builder.AddNested | ozonenv/core/ModelMaker.py:930-948 | a nested form is compiled and recorded as one list field; fails exactly when its key or components are unusable |
| Compiler.Builder.ComputeComponentField | ozonenv/core/ModelMaker.py:1113-1121 | the node's `add_<type>` handler runs (mapper row, decimal and multiple variants), and whatever it raises is logged |
| Compiler.Builder.EvalComponent | ozonenv/core/ModelMaker.py:1123-1130 | the nodes of a layout reach `compute_component_field` in document order |
| Compiler.Builder.EvalGroups | ozonenv/core/ModelMaker.py:1084-1105 | the column/tab loop visits exactly `GroupsVisit`'s nodes, in order |
| Compiler.Builder.EvalItems | ozonenv/core/ModelMaker.py:1093-1097 | the container loop visits exactly `ItemsVisit`'s nodes, stopping at the first that raises |
| Compiler.Builder.Scan | ozonenv/core/ModelMaker.py:1132-1137 | a typed field node is computed, a layout walked, an untyped node skipped |
| Compiler.Builder.ScanTodo | ozonenv/core/ModelMaker.py:1157-1158 | the top-level loop visits exactly `TodoVisit`'s nodes |
| Compiler.Builder.AddDefault | ozonenv/core/ModelMaker.py:1160-1174 | a default node becomes a hidden `str` field with its default |
| Compiler.Builder.AddDefaults | ozonenv/core/ModelMaker.py:1159-1174 | afterwards a `rec_name` input exists or a `(str, "")` row for it, and likewise a `data_model` row when the collection is named |
| Compiler.Builder.Make | ozonenv/core/ModelMaker.py:1156-1175 | `make` visits the top-level nodes in order and then guarantees the `rec_name` field |
| Compiler.Builder.FromFormio | ozonenv/core/ModelMaker.py:918-928 | takes the schema's components (raising when they are not a list or text) and makes the model |
| Compiler.DefaultNodeCompiles | ozonenv/core/ModelMaker.py:1160-1174 | the default nodes configure as plain hidden text fields and are no inputs |
| Compiler.DefaultNodeHidden | ozonenv/core/ModelMaker.py:961-962 | a default node is recorded among the hidden fields under its key |
| BaseModels.StepsOf | ozonenv/core/BaseModels.py:201-207 | one step per dotted segment, digit segments becoming indices |
| BaseModels.ScanNested | ozonenv/core/BaseModels.py:654-666 | a dotted path of plain keys reaches the value at the end of the dictionaries nested along it |
| BaseModels.ScanListIndex | ozonenv/core/BaseModels.py:654-666 | a digit segment indexes a list; an index past the end or a row that is not a dictionary gives the default |
| BaseModels.ScanTwoKeys | ozonenv/core/BaseModels.py:654-666 | `k.j` reads key `j` of the dictionary at `k`, and any failure gives the default |
| BaseModels.PlainGetDropsFalsyDefault | ozonenv/core/BaseModels.py:668-674 | an undotted missing key gives the default only when it is truthy, else None |
| BaseModels.SelectFirstMatch | ozonenv/core/BaseModels.py:692-696 | the first item whose value equals the key gives its label, even when later items also match |
| BaseModels.SelectNoMatch | ozonenv/core/BaseModels.py:692-696 | without a matching item the label is `""` |
| BaseModels.Exclude | ozonenv/core/BaseModels.py:167-173 | the dump without the excluded keys holds only entries of the original |
| BaseModels.ExcludeLookup | ozonenv/core/BaseModels.py:167-173 | an excluded key reads as absent, every other key as before |
| BaseModels.DiffLookup | ozonenv/core/BaseModels.py:191-195 | a key is in the difference exactly when the original holds it with a different value |
| BaseModels.GetDictDiffLookup | ozonenv/core/BaseModels.py:311-328 | a key is in the difference exactly when the (filtered) dump keeps it with another value, and its value is the compared one |
| BaseModels.LifecycleFlags | ozonenv/core/BaseModels.py:333-346 | active and archived records are not to delete; a marked one is exactly when its timestamp is positive; `active` is set accordingly and no other field changes |
| BaseModels.SelectedEffect | ozonenv/core/BaseModels.py:627-629 | the stored value and the display value are set, and nothing else changes |
| BaseModels.SelectedWithoutDisplay | ozonenv/core/BaseModels.py:627-629 | without a `data_value` dictionary only the stored value is written, and the call raises |
| BaseModels.CloneRecordData | ozonenv/core/BaseModels.py:712-716 | the clone is the data without `rec_name` and `list_order`, and fails exactly when either is missing |
| BaseModels.CoreModel.constructor | ozonenv/core/BaseModels.py:250-284 | the instance holds its fields and its class's no-clone keys |
| BaseModels.CoreModel.Get | ozonenv/core/BaseModels.py:214-220 | a plain field is read; a missing plain name gives a truthy default or raises |
| BaseModels.CoreModel.Set | ozonenv/core/BaseModels.py:225-226 | a field is assigned; any other name raises and changes nothing |
| BaseModels.CoreModel.SetFromChild | ozonenv/core/BaseModels.py:222-223 | stores the value read at the path, unless the read or the assignment raises |
| BaseModels.CoreModel.SetMany | ozonenv/core/BaseModels.py:228-231 | every entry naming a field is assigned in order, the others skipped |
| BaseModels.CoreModel.SetActive | ozonenv/core/BaseModels.py:336-338 | `deleted = 0`, `active = True` |
| BaseModels.CoreModel.SetArchive | ozonenv/core/BaseModels.py:340-342 | `deleted = 0`, `active = False` |
| BaseModels.CoreModel.SetToDelete | ozonenv/core/BaseModels.py:344-346 | `deleted = timestamp`, `active = False` |
| BaseModels.CoreModel.SelectionValue | ozonenv/core/BaseModels.py:233-235 | sets the field, then the display value; a missing field raises with nothing changed |
| BaseModels.CoreModel.SelectionValueResources | ozonenv/core/BaseModels.py:358-364 | stores the value with the label the resource list gives it |
| BaseModels.CoreModel.CloneData | ozonenv/core/BaseModels.py:366-372 | the clone reads as the fields without the no-clone keys and the status fields |
| BaseModels.FieldsUpdatedKeys | ozonenv/core/BaseModels.py:228-231 | `set_many` never adds a field |
| BaseModels.DictRecord.constructor | ozonenv/core/BaseModels.py:545-550 | an empty or missing `data_value` becomes `{}`; otherwise `rec_name` is copied into the data |
| BaseModels.DictRecord.Set | ozonenv/core/BaseModels.py:676-680 | stores the parsed value (a parse that raises changes nothing) or the value verbatim |
| BaseModels.DictRecord.SetFromChild | ozonenv/core/BaseModels.py:682-683 | stores the dotted lookup of the path, or the default |
| BaseModels.DictRecord.UpdateFieldTypeValue | ozonenv/core/BaseModels.py:685-687 | re-parses the stored value, `""` when absent |
| BaseModels.DictRecord.SetMany | ozonenv/core/BaseModels.py:689-690 | `dict.update` with the entries |
| BaseModels.DictRecord.SelectionValue | ozonenv/core/BaseModels.py:627-629 | the stored value, then the display value |
| BaseModels.DictRecord.SelectionValueResources | ozonenv/core/BaseModels.py:698-704 | stores the value with its first-match label |
| BaseModels.DictRecord.SetActive | ozonenv/core/BaseModels.py:643-649 | live, owned by the user, first in order, with a display dictionary |
| BaseModels.DictRecord.SetListOrder | ozonenv/core/BaseModels.py:651-652 | stores the order |
| BaseModels.DictRecord.CloneData | ozonenv/core/BaseModels.py:712-716 | the data without `rec_name` and `list_order`, the record unchanged; fails exactly when either is missing |
| BaseModels.ActivatedForFlags | ozonenv/core/BaseModels.py:643-649 | after `set_active` the record is live, owned, first, and keeps an existing `data_value` |
| OzonRecord.Record.constructor | ozonenv/core/OzonRecord.py:31-36 | an empty `rec_name` resets `data_value` to `{}`; otherwise the name is copied into the data |
| OzonRecord.Record.IsActive | ozonenv/core/OzonRecord.py:42-44 | reads `active`, raising exactly when the key is missing |
| OzonRecord.Record.Set | ozonenv/core/OzonRecord.py:179-185 | stores the parsed or verbatim value; under `rec_name` the record is renamed too; a parse that raises changes nothing |
| OzonRecord.Record.SetFromChild | ozonenv/core/OzonRecord.py:187-188 | stores the dotted lookup of the path, or the default |
| OzonRecord.Record.UpdateFieldTypeValue | ozonenv/core/OzonRecord.py:190-192 | re-parses the stored value, `""` when absent |
| OzonRecord.Record.SetMany | ozonenv/core/OzonRecord.py:194-195 | `dict.update` with the entries |
| OzonRecord.Record.SelectionValue | ozonenv/core/OzonRecord.py:125-127 | the stored value, then the display value in `data_value` |
| OzonRecord.Record.SelectionValueResources | ozonenv/core/OzonRecord.py:197-209 | stores the value with its first-match label, or `""` |
| OzonRecord.Record.SetActive | ozonenv/core/OzonRecord.py:141-143 | `deleted = 0`, `active = True` |
| OzonRecord.Record.SetArchive | ozonenv/core/OzonRecord.py:145-147 | `deleted = 0`, `active = False` |
| OzonRecord.Record.SetToDelete | ozonenv/core/OzonRecord.py:149-151 | `deleted = timestamp`, `active = False` |
| OzonRecord.Record.SetListOrder | ozonenv/core/OzonRecord.py:153-154 | stores the order |
| OzonRecord.Record.CloneData | ozonenv/core/OzonRecord.py:217-221 | the data without `rec_name` and `list_order`, the record unchanged; fails exactly when either is missing |
| OzonRecord.RenameKeepsBoth | ozonenv/core/OzonRecord.py:184-185 | a record renamed through `set` reads the new name from its data |
| OzonModel.SortTextRoundTrip | ozonenv/core/OzonModel.py:100-116 | parsing the text of a non-empty list of `field:asc`/`field:desc` rules gives the rules back, in order |
| OzonModel.UnknownDirectionRaises | ozonenv/core/OzonModel.py:114 | a segment with a direction other than `asc`/`desc` raises |
| OzonModel.NoColonSkipped | ozonenv/core/OzonModel.py:111-113 | a segment without a colon is skipped |
| OzonModel.DefaultSortOf | ozonenv/core/OzonModel.py:106-116 | an empty sort string uses the default; `<field>:desc,` sorts by that field descending, its trailing empty segment skipped |
| OzonModel.DefaultSortOrder | ozonenv/core/OzonModel.py:51 | the built-in default sorts by `list_order` descending |
| OzonModel.GetDomainLookup | ozonenv/core/OzonModel.py:74-77 | a given key wins; otherwise `active` is True, `deleted` is 0, and nothing else is set |
| OzonModel.TrailingNewlineAccepted | ozonenv/core/OzonModel.py:49 | an allowed name plus a final newline passes the written check but not the intended one |
| OzonModel.NameAllowedSound | ozonenv/core/OzonModel.py:49 | the intended check accepts only what the written one accepts, and rejects space, `/` and newline |
| OzonModel.GeneratedNameAllowed | ozonenv/core/OzonModel.py:211-214 | the generated name `<data_model>.<id>` passes whenever both parts do |
| OzonModel.MergeAbsentFacts | ozonenv/core/OzonModel.py:85-87 | merging keeps the list as a prefix, holds exactly the elements of both lists, and adds no duplicate |
| OzonModel.MergePresent | ozonenv/core/OzonModel.py:86 | merging elements already present changes nothing |
| OzonModel.MergeIdempotent | ozonenv/core/OzonModel.py:85-87 | merging twice is merging once |
| OzonModel.CopyRecNameAllowed | ozonenv/core/OzonModel.py:344-352 | the copy's name extends a name that lacks the model name, and is made of allowed characters whenever the old name, the data model and the id are, so `new` accepts it |
| OzonModel.CopySuffixedLookup | ozonenv/core/OzonModel.py:358-360 | each plain unique field other than `rec_name` gets `_copy` appended once; every other field is kept |
| OzonModel.CopySuffixedNonString | ozonenv/core/OzonModel.py:358-360 | a unique key that is not a string makes the copy raise |
| OzonModel.DistinctTitle | ozonenv/core/OzonModel.py:529-543 | the title is one `$first` accumulator: of `$title` exactly when no label is asked, else of the `$concat` of the block's strings, in order |
| OzonModel.LabelBlock | ozonenv/core/OzonModel.py:535-543 | the block is `$f1`, ` - `, `$f2`, … for the comma-separated fields |
| OzonModel.DataModelOf | ozonenv/core/OzonModel.py:38-41 | a virtual model takes the argument; any other takes a non-empty argument, and its own name otherwise |
| OzonModel.ModelBase.constructor | ozonenv/core/OzonModel.py:26-98 | the unique fields are the model maker's, headed by `rec_name`: a static model's are merged in, a virtual model's are `["rec_name"]`, a form model's are those `from_formio` lists, each also kept from cloning, and the compile fails exactly when `from_formio` raises; the sort stays `list_order:desc,`; the status is clean |
| OzonModel.ModelBase.MergeUnique | ozonenv/core/OzonModel.py:85-87 | the merge loop gives `MergeAbsent` of the model maker's list and changes nothing else of its tables |
| OzonModel.ModelBase.EvalSortStr | ozonenv/core/OzonModel.py:100-116 | the loop returns exactly `SortRules` of the string and the model's default |
| OzonModel.ModelBase.InitStatus | ozonenv/core/OzonModel.py:221-224 | the status is clean |
| OzonModel.ModelBase.ErrorStatus | ozonenv/core/OzonModel.py:216-219 | the status is failed with the message and data |
| OzonModel.ModelBase.LoadData | ozonenv/core/OzonModel.py:199-214 | the record is the loaded data, named `<data_model>.<id>` when unnamed |
| OzonModel.ModelBase.New | ozonenv/core/OzonModel.py:255-273 | a loaded `rec_name` that the intended check refuses sets the error status with the refusal message and returns nothing; an allowed one activates the record with a clean status |
| OzonModel.ModelBase.SuffixUniques | ozonenv/core/OzonModel.py:358-360 | the loop over the model maker's unique fields gives `CopySuffixed`, failing when a key is not a string, cannot be read or cannot be set |
| OzonModel.UnnamedRecordNamed | ozonenv/core/OzonModel.py:199-214 | a record whose `rec_name` is missing or falsy, loaded by a non-session model (virtual or not), is named `<data_model>.<id>` |
| OzonOrm.FailResponse | ozonenv/core/OzonOrm.py:105-108 | failed, with the error as message, and `err_details` added to the data only when absent |
| OzonOrm.FailResponseLookup | ozonenv/core/OzonOrm.py:105-108 | a given `err_details` is kept; otherwise it reads as the details, and every other key as given |
| OzonOrm.NormalizedShape | ozonenv/core/OzonOrm.py:305 | a normalised name has no space, no upper-case letter and no white space at either end |
| OzonOrm.NormalizeIdempotent | ozonenv/core/OzonOrm.py:305 | normalising twice is normalising once |
| OzonOrm.NormalizeTwoWords | ozonenv/core/OzonOrm.py:305 | two words around a space normalise to their lower-cased concatenation, as `'u SEr'` gives `user` |
| OzonOrm.CamelFacts | ozonenv/core/OzonOrm.py:434-436 | the camel name has no `_`, and is shorter than the name by the number of underscores |
| OzonOrm.CamelOfWords | ozonenv/core/OzonOrm.py:434-436 | the camel name is the title-cased parts joined |
| OzonOrm.ResolveDataModel | ozonenv/core/OzonOrm.py:588-599 | a `data_model` is resolved exactly for static and virtual models |
| OzonOrm.ResolvePrecedence | ozonenv/core/OzonOrm.py:590-599 | the argument wins, then the schema's, then (non-virtual only) the static class's |
| OzonOrm.Orm.constructor | ozonenv/core/OzonOrm.py:277-291 | the four built-in models, and `settings` as the only private model |
| OzonOrm.Orm.AddPrivateModel | ozonenv/core/OzonOrm.py:297-299 | appends the name only when absent |
| OzonOrm.Orm.AddStaticModel | ozonenv/core/OzonOrm.py:301-317 | registers the normalised name, and marks it private when asked |
| OzonOrm.AddAbsentFacts | ozonenv/core/OzonOrm.py:298-299 | adding is idempotent, keeps the list as a prefix, makes the name a member, and adds no duplicate |
| OzonEnv.NextUrlDefault | ozonenv/OzonEnv.py:27-31 | without a configured page for the response type, the default is returned |
| OzonEnv.NextUrlConfigured | ozonenv/OzonEnv.py:31-35 | a configured `list` wins as it is; else a `form` gives `<form>/<rec_ref>`; else the default |
| OzonEnv.OnlySuccessConfigured | ozonenv/OzonEnv.py:22-36 | with only a `success` page, errors get the default and successes `<form>/<rec_ref>` |
| OzonEnv.WorkerResultFields | ozonenv/OzonEnv.py:43-51 | the result is done, with the error flag, message, `redirect` action and the next page |
| OzonEnv.WorkerExceptionShape | ozonenv/OzonEnv.py:38-58 | failed, with the error as message, the result under the topic, and `err_details` beside it |
| OzonEnv.WorkerSuccessShape | ozonenv/OzonEnv.py:60-75 | not failed, with the message and only the result under the topic |
| OzonEnv.ExceptionResponse | ozonenv/OzonEnv.py:77-87 | succeeds exactly when resolving the `error` page does |
| OzonEnv.DefaultResponse | ozonenv/OzonEnv.py:89-95 | succeeds exactly when resolving the `success` page does |
| OzonEnv.ExceptionFallsBack | ozonenv/OzonEnv.py:77-87 | a worker with only a success page reports an error with `self` as next page |

## Left out

- MongoDB persistence and all async orchestration: the insert, update, load, find, count and remove operations, `set_unique`, the ORM's model and database initialisation, sessions and app sessions. They are I/O.
- Source-code generation and dynamic import (`make_local_model`, `runcmd`, `import_module_model` apart from `camel`). They are file and process I/O.
- pydantic `create_model`, `model_dump` and `model_copy`. The compiled model is the row table `components`; an instance is its ordered field list.
- The jsonLogic evaluator, `json.loads`, `float()` of a whole text (the record parser's cast), `repr`, `dateutil.parse` and the `defaultdt` default. They are oracles in `Values.Externals`.
- `Inference.FieldValueOfText`: a lone float match is read as the exact decimal its digits spell; Python's `float()` rounds it to the nearest double.
- `env.make_data_value`, the `_()` translations, `i18n.py`, the Redis cache, `OzonClient.py`, BSON types and `Settings`. They are locale, network or static configuration, outside this model.
- Non-ASCII text: `isdigit`, `lower`, `title`, `isspace` and the regex classes are modelled on ASCII only.
- The state left behind after a raise: a method that fails promises nothing about what it had already written, except where its contract says so.
- Aliasing of Python's mutable default arguments (`data={}` in `new` and `fail_response`): each call is modelled on a fresh value.
- `make_resource_list`: it calls `.update` on a list in its resource and url branch, so that branch always raises. It is not modelled.
- `search_area`, the `Component.value`/`value_label(s)`/`next`/`child` accessors and `_make_instace`. They read live pydantic instances.
- `OzonModel.ModelBase.New`: the error status's data is the data before `_make_from_dict`; the `_make_from_dict` and transform steps of `new` are not repeated there.
- `OzonModel.ModelBase.New`: a `rec_name` that is not a string is a refusal with a clean status here; Python raises a `TypeError` in the regex match.
- `OzonModel.ModelBase.New`: it applies the corrected name check `NameAllowed`; the written pattern also accepts one final newline (see Findings, `TrailingNewlineAccepted`).
- `OzonModel.ModelBase.constructor`: a static model's class (`mm.model`) and the compiled pydantic class (`model_meta`) are not kept; the form's `properties.sort` never reaches the default sort, because `init_model` reads it from a fresh component whose properties are empty.
- `OzonModel.ModelBase.SuffixUniques`: `copy`'s load, count, id renewal and timestamps are left out; only the `rec_name` choice (`CopyRecName`) and the suffix loop are modelled.
- `OzonModel.LabelBlock`: the `else` branch at ozonenv/core/OzonModel.py:545-549 is dead (a split never returns an empty list) and is not modelled.
- OzonOrm `get_value_for_select_list` (ozonenv/core/OzonOrm.py:114-119) is the same function as `BaseModels.SelectLabel`, which models both.
- `OzonModel._value_type` is the record facades' `value_type`, modelled once as `Inference.RecordValueType`.
- `Compiler.Builder.CompleteComponentField`: it records bounds in the corrected table `LimitTable`, keyed by field; the written code replaces the whole table with the last bounded field's bounds (see Findings, `LimitTableFinding`). `Compiler.Transformed` and `Compiler.Builder.RecordField` do the same.
- `Compiler.Builder.CompleteComponentField`: the new filter and logic entries are stated by count, not by the descriptor object they hold, which the call does not return.
- `Compiler.Builder.Make` and `Compiler.Builder.FromFormio`: the nodes `compute_component_field` receives are stated, but the rows and tables of a whole form are not folded into one function; each step's effect is stated by `CompleteComponentField`.
- Builder metadata maps (`computed_fields`, `tranform_data_value`, `conditional`, …) are Dafny maps, so their insertion order is not modelled; the row table `components` keeps its order.
- Recursion bounds: the layout walk takes a ghost size bound that only proves termination, and nothing is cut off.

## Findings

| source | as written | input that shows it | evidently intended | confidence | as-written member | corrected member |
|---|---|---|---|---|---|---|
| ozonenv/core/OzonModel.py:49 | `^[…]*$` with `re.match`: `$` also matches before a final newline | `rec_name = "abc\n"` passes the check | only the listed characters, with no line break | not executed | OzonModel.TrailingNewlineAccepted | OzonModel.NameAllowedSound |
| ozonenv/core/OzonRecord.py:89 | `json.load(v)` on a string, which needs a file object | `parse_value("[1]")` raises | `json.loads(v)` | not executed | Inference.ListTextRaises | Inference.RecordParseContainerRaises |
| ozonenv/core/ModelMaker.py:842-846 | the element checks run over the empty list of nested tables, so both succeed | `{"tags": ["a", "b"]}` is declared `List[int]` | check the list's own items | not executed | Inference.ListOfWordsTyping | Inference.ListTypingSound |
| ozonenv/core/ModelMaker.py:639-642 | the guard reads `question["value"]` in the freshly built cell | answer `{"q1": "yes"}` leaves the `yes` cell unticked | read the answer in the form data | not executed | Widgets.AsWrittenNeverChecked | Widgets.IntendedChecksAnswer |
| ozonenv/core/ModelMaker.py:1003 | each bounded field replaces the whole table with its own bounds | two fields with `min`/`max` keep only the second's, keyed `min`/`max` | the bounds of each field under its key | not executed | Compiler.LimitTableFinding | Compiler.LimitTableKeeps |
