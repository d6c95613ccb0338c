# SUPPA integration core, modelled in Dafny

This project models the logic of the SUPPA integration for n8n. It also
models the CORS middleware of the n8n HTTP server. Each part is written as
Dafny datatypes, functions, methods and lemmas.

- **The filter compiler** (`FilterHelpers`, `filter_helpers.dfy`):
  - The comparator alias table. It has exactly ten keys: `eq`, `equals`, `==`, `neq`, `!==`, `<>`, `gt`, `gte`, `lt`, `lte`.
  - `normalizeComparatorToBackend`, which trims and lower-cases before the lookup and otherwise returns the raw string.
  - The one-level value coercer `prepareValueFiltersSuppa`.
  - The normaliser `prepareFiltersSuppa`. It is written twice. `NormalizeFilter` is a specification function over JSON values. `PrepareFilters`, `PrepareEach` and `PrepareCondition` are methods with the source's loops, each proved equal to that function.
  - The merger `compareFiltersSuppa`.
  - The proved properties: normalisation is idempotent, its fixed points are exactly the trees in normal form, and merging keeps every condition, basic ones first.
- **The request builders** (`ActionMethods`, `action_methods.dfy`):
  - `formatValue`.
  - The field-entry payload loop. It is a method with a loop invariant, proved against a specification function. The last write wins.
  - One request record per action: create, getById, getByFilter, updateById, deleteById. The record holds the method, URL, headers and body.
  - The errors an action throws before anything is sent: a malformed `staticData` on create, and a missing confirmation on delete.
- **The node** (`SuppaNode`, `suppa_node.dfy`):
  - The `execute` loop as a method, proved against the batch function `Batch`. The proved properties are item order, `pairedItem` tags, array flattening, continue-on-fail, and stopping at the first error.
  - Its `catch` block, which reads `error.message`. A value rejected by the transport need not be an Error: reading `message` on a rejection with `null` or `undefined` throws a TypeError that escapes the loop even under continue-on-fail.
  - The action switch.
  - The `getTableFields` option projection.
  - The merge of each action's fields with the generated `displayOptions.show`.
- **The AI tool** (`AiTool`, `ai_tool.dfy`). Its function turns an input text into one request or an error message. Every outcome becomes a returned string.
- **The CORS middleware** (`Cors`, `cors.dfy`). A class `Exchange` stands for the response object: its header map, status, whether it is ended, and a trace of what was done to it. The method `CorsMiddleware` changes it as the middleware does. A preflight is answered with 204 and ended; any other request is passed on with `next`.

Shared modules:
- `Wrappers` holds Option and Result.
- `Text` holds JavaScript `trim` and ASCII `toLowerCase`.
- `JsonValues` holds the JavaScript values the core handles. `undefined` is a value of its own, distinct from an absent key. The module also holds truthiness, `||`, property reads and object spread.
- `Http` holds request records, the credentials, and the transport's outcome.

These things the source gets from its host are parameters of the model:
- the HTTP transport;
- `JSON.parse`/`jsonParse` (a function from text to a value or a SyntaxError message);
- `JSON.stringify`;
- the credentials;
- the node parameters of each item;
- the continue-on-fail setting.

## Model

| member | source | states |
|---|---|---|
| Text.Trim | packages/nodes-base/nodes/Suppa/helpers.ts:43 | the result is a slice of the input with only JS whitespace before and after it, and has no whitespace at either end |
| Text.TrimIdempotent | packages/nodes-base/nodes/Suppa/actionMethods.ts:18 | trimming a trimmed string changes nothing |
| Text.Lower | packages/nodes-base/nodes/Suppa/helpers.ts:43 | each character is lower-cased in place: ASCII capitals become their small letters, every other character is kept |
| JsonValues.FalsyValues | packages/nodes-base/nodes/Suppa/SuppaAiTool.node.ts:76 | the falsy values are exactly undefined, null, false, 0 and the empty string |
| JsonValues.Spread | packages/nodes-base/nodes/Suppa/helpers.ts:51 | an object spreads to its own properties; an array or a string to its decimal indices, each holding its element; other values to nothing |
| JsonValues.IndexedEntriesKeys | packages/nodes-base/nodes/Suppa/helpers.ts:51 | the keys of a spread array are exactly the renderings of its indices |
| JsonValues.IndexedEntriesValues | packages/nodes-base/nodes/Suppa/helpers.ts:51 | each index of a spread array holds its element, later indices never overwriting earlier ones |
| JsonValues.ToText | packages/nodes-base/nodes/Suppa/SuppaAiTool.node.ts:126 | strings are inserted as they are, undefined, null and objects as their fixed texts, a one-element array as its element |
| JsonValues.NumberTextInjective | packages/nodes-base/nodes/Suppa/SuppaAiTool.node.ts:126 | distinct numbers are inserted as distinct texts |
| Text.NatToStringInjective | packages/nodes-base/nodes/Suppa/SuppaAiTool.node.ts:126 | distinct natural numbers have distinct decimal renderings |
| JsonValues.Or | packages/nodes-base/nodes/Suppa/SuppaAiTool.node.ts:145 | JS `or` gives `a` when `a` is truthy, else `b` |
| JsonValues.Prop | packages/nodes-base/nodes/Suppa/Suppa.node.ts:138 | a property read fails exactly on null and undefined, and reads the key (or undefined) on an object |
| FilterHelpers.NormalizeComparator | packages/nodes-base/nodes/Suppa/helpers.ts:41-45 | defined exactly for strings; the result is a backend symbol or the raw string unchanged; it differs from the raw string only when the raw string is an alias |
| FilterHelpers.BackendSymbolsCanonical | packages/nodes-base/nodes/Suppa/helpers.ts:25-39 | no backend symbol is itself an alias key, so every symbol is canonical |
| FilterHelpers.AliasLookup | packages/nodes-base/nodes/Suppa/helpers.ts:25-39 | the table maps `eq`, `equals`, `==` to `=`; `neq`, `!==`, `<>` to `!=`; `gt`, `gte`, `lt`, `lte` to `>`, `>=`, `<`, `<=` |
| FilterHelpers.NormalizeComparatorIdempotent | packages/nodes-base/nodes/Suppa/helpers.ts:41-45 | a normalised comparator is canonical, and normalising it again gives the same result |
| FilterHelpers.ComparatorAliases | packages/nodes-base/nodes/Suppa/helpers.ts:25-45 | each of the ten aliases, after trimming and lower-casing, maps to its symbol (`=`, `!=`, `>`, `>=`, `<`, `<=`) |
| FilterHelpers.ComparatorPassThrough | packages/nodes-base/nodes/Suppa/helpers.ts:44 | a token that is not an alias comes back exactly as given, untrimmed and in its own case |
| FilterHelpers.ComparatorToBackend | packages/nodes-base/nodes/Suppa/helpers.ts:25-39 | every entry of the alias table is one of the six backend symbols |
| FilterHelpers.ComparatorExampleAlias | packages/nodes-base/nodes/Suppa/helpers.ts:41-45 | `" GTE "` becomes `>=` |
| FilterHelpers.ComparatorExampleUnknown | packages/nodes-base/nodes/Suppa/helpers.ts:44 | `" like "` is kept with its padding |
| FilterHelpers.PrepareValue | packages/nodes-base/nodes/Suppa/helpers.ts:48-54 | a non-object is returned unchanged; an object or array becomes a shallow copy of its own properties with `id` set to its `value` |
| FilterHelpers.PrepareValueCanonical | packages/nodes-base/nodes/Suppa/helpers.ts:48-54 | coercion yields a coerced value; coerced values are its fixed points; coercing twice is coercing once |
| FilterHelpers.CoerceConditionValue | packages/nodes-base/nodes/Suppa/helpers.ts:78-82 | an array value is mapped element by element with the one-level coercion PrepareValue, which does not recurse; anything else is coerced as a whole by PrepareValue |
| FilterHelpers.NormalizeCondition | packages/nodes-base/nodes/Suppa/helpers.ts:72-82 | the keys are the old keys plus `value`; `value` becomes the coerced old value (undefined when absent); `comparator` is what the comparator step leaves; every other key is kept |
| FilterHelpers.RewriteComparator | packages/nodes-base/nodes/Suppa/helpers.ts:74-75 | the comparator step changes no key other than `comparator` and adds none |
| FilterHelpers.NormalizedComparatorCanonical | packages/nodes-base/nodes/Suppa/helpers.ts:74-75 | after the comparator step, a string comparator is canonical |
| FilterHelpers.CoerceConditionValueCoerced | packages/nodes-base/nodes/Suppa/helpers.ts:78-82 | the coerced `value` is in coerced form, and a value already coerced is unchanged |
| FilterHelpers.NormalizeFilter | packages/nodes-base/nodes/Suppa/helpers.ts:57-86 | non-objects are left unchanged; an array is normalised element by element; a condition becomes NormalizeCondition of it; an object with an array `conditions` keeps its keys and other values and has each condition normalised; any other object is unchanged |
| FilterHelpers.NormalizeEach | packages/nodes-base/nodes/Suppa/helpers.ts:59-61 | the list keeps its length, and each element is normalised |
| FilterHelpers.NormalizeConditionNormalized | packages/nodes-base/nodes/Suppa/helpers.ts:72-82 | a rewritten condition is in normal form: canonical comparator, a `value` key, a coerced value |
| FilterHelpers.NormalizedConditionFixed | packages/nodes-base/nodes/Suppa/helpers.ts:72-82 | a condition in normal form is not changed by the rewrite |
| FilterHelpers.NormalizeFilterNormalized | packages/nodes-base/nodes/Suppa/helpers.ts:57-86 | normalisation yields a tree in normal form at every depth |
| FilterHelpers.NormalizedIsFixed | packages/nodes-base/nodes/Suppa/helpers.ts:57-86 | a tree in normal form is left unchanged |
| FilterHelpers.NormalizeFilterIdempotent | packages/nodes-base/nodes/Suppa/helpers.ts:57-86 | normalisation is idempotent, and its fixed points are exactly the trees in normal form |
| FilterHelpers.PrepareFilters | packages/nodes-base/nodes/Suppa/helpers.ts:57-86 | the recursive walk with its loops leaves exactly the tree NormalizeFilter describes |
| FilterHelpers.PrepareEach | packages/nodes-base/nodes/Suppa/helpers.ts:59-61 | the loop over a list normalises every element in order |
| FilterHelpers.PrepareCondition | packages/nodes-base/nodes/Suppa/helpers.ts:72-82 | the in-place rewrite of a condition, with its `map` loop, equals NormalizeCondition |
| FilterHelpers.PrepareComparator | packages/nodes-base/nodes/Suppa/helpers.ts:74-75 | the comparator assignment equals RewriteComparator |
| FilterHelpers.PrepareValues | packages/nodes-base/nodes/Suppa/helpers.ts:79 | the `map` over an array value equals its element-wise coercion |
| FilterHelpers.MergeFilters | packages/nodes-base/nodes/Suppa/helpers.ts:89-122 | `conditions` is present exactly when the basic-then-advanced list is non-empty, and it holds that list; other keys are the union of both sides, the advanced side winning |
| FilterHelpers.MergeEmpty | packages/nodes-base/nodes/Suppa/helpers.ts:116-121 | merging `{}` with `{}`, or with non-objects, gives `{}` |
| FilterHelpers.MergeAdvancedArray | packages/nodes-base/nodes/Suppa/helpers.ts:108-114 | an array as the advanced filter acts like an object holding only that `conditions` list |
| FilterHelpers.MergeRightIdentity | packages/nodes-base/nodes/Suppa/helpers.ts:89-122 | an empty advanced filter leaves a basic object unchanged when its `conditions` is absent or a non-empty array |
| FilterHelpers.MergeKeepsConditions | packages/nodes-base/nodes/Suppa/helpers.ts:117-120 | the merged list is the basic conditions followed by the advanced ones, none dropped (the same multiset) |
| Http.AuthHeaders | packages/nodes-base/nodes/Suppa/actionMethods.ts:86-88 | only the Authorization header, whose value is "Bearer " + the API key |
| Http.JsonHeaders | packages/nodes-base/nodes/Suppa/actionMethods.ts:60-63 | exactly Authorization (Bearer key) and the JSON Content-Type |
| ActionMethods.ErrorMessage | packages/nodes-base/nodes/Suppa/actionMethods.ts:232-236 | a refused delete carries the confirmation message; a malformed `staticData` carries the parser's message |
| ActionMethods.FormatValue | packages/nodes-base/nodes/Suppa/actionMethods.ts:15-42 | a string is trimmed, or replaced by the parse of its trimmed text when that starts with `{` or `[` and parses; an array is formatted element by element (at any depth); objects get `id` = `value` with other keys kept; other values are unchanged |
| ActionMethods.FormatEach | packages/nodes-base/nodes/Suppa/actionMethods.ts:30-32 | the mapped array keeps its length, and each element is the formatted input element |
| ActionMethods.FormatValueAgreesOnObjects | packages/nodes-base/nodes/Suppa/actionMethods.ts:35-39 | on a plain object, formatValue and prepareValueFiltersSuppa agree |
| ActionMethods.FormatValueIdempotent | packages/nodes-base/nodes/Suppa/actionMethods.ts:15-42 | formatting twice is formatting once, for values whose strings are not parsed |
| ActionMethods.Payload | packages/nodes-base/nodes/Suppa/actionMethods.ts:44-55 | no payload field is the empty string |
| ActionMethods.PayloadOf | packages/nodes-base/nodes/Suppa/actionMethods.ts:44-55 | non-array data gives an empty payload; every payload field is a non-empty name |
| ActionMethods.PayloadLastWriteWins | packages/nodes-base/nodes/Suppa/actionMethods.ts:47-54 | a field is in the payload iff some entry sets it, and holds the formatted value of the last such entry |
| ActionMethods.PayloadFields | packages/nodes-base/nodes/Suppa/actionMethods.ts:47-54 | a field is in the payload iff some entry sets it |
| ActionMethods.PayloadLastValue | packages/nodes-base/nodes/Suppa/actionMethods.ts:47-54 | the payload holds the formatted value of the last entry that sets a field |
| ActionMethods.PayloadSkipsNonEntries | packages/nodes-base/nodes/Suppa/actionMethods.ts:48-53 | entries that are not objects with a non-empty string `field` add nothing |
| ActionMethods.BuildPayload | packages/nodes-base/nodes/Suppa/actionMethods.ts:45-55 | the loop builds exactly PayloadOf(data) (`{}` for non-array data) |
| ActionMethods.StaticOverlay | packages/nodes-base/nodes/Suppa/actionMethods.ts:67 | empty `staticData` adds nothing; otherwise the spread of its parse; it fails exactly on a SyntaxError, with its message |
| ActionMethods.CreateRequest | packages/nodes-base/nodes/Suppa/actionMethods.ts:57-71 | it fails exactly when `staticData` is malformed; otherwise a POST to `baseUrl + "api/instance/" + table + "/"` with JSON headers and an object body |
| ActionMethods.CreateBody | packages/nodes-base/nodes/Suppa/actionMethods.ts:64-68 | the body holds every payload field and `staticData` property, `staticData` winning; empty `staticData` sends exactly the payload |
| ActionMethods.GetByIdRequest | packages/nodes-base/nodes/Suppa/actionMethods.ts:80-90 | a GET of the record URL with only the Authorization header ("Bearer " + key) and no body |
| ActionMethods.UpdateRequest | packages/nodes-base/nodes/Suppa/actionMethods.ts:159-221 | a PUT of the record URL whose body is exactly the payload (`staticData` is not an input) |
| ActionMethods.DeleteRequest | packages/nodes-base/nodes/Suppa/actionMethods.ts:229-246 | it fails iff `confirm` is falsy; otherwise a DELETE of the record URL with only the Authorization header ("Bearer " + key) and no body |
| ActionMethods.RecordActionsAgree | packages/nodes-base/nodes/Suppa/actionMethods.ts:57-246 | get, update and delete address the same record; create posts there with an empty id; update sends create's body when `staticData` is empty |
| ActionMethods.AdvancedFilter | packages/nodes-base/nodes/Suppa/actionMethods.ts:109-118 | a string is parsed (`""` as `"{}"`), falling back to `{}`; objects and arrays are kept; anything else is `{}` |
| ActionMethods.CombinedFilter | packages/nodes-base/nodes/Suppa/actionMethods.ts:106-128 | both filters normalised and merged: `conditions` is present exactly when the normalised basic-then-advanced list is non-empty, and holds that list; every other key comes from either filter, the advanced filter's value winning on a shared key and the basic filter's value kept otherwise |
| ActionMethods.FieldMarkers | packages/nodes-base/nodes/Suppa/actionMethods.ts:135-140 | every listed field, and no other, maps to `{}` |
| ActionMethods.SearchBody | packages/nodes-base/nodes/Suppa/actionMethods.ts:122-144 | `limit` and `offset` are always present; `filter`, `fields` and `sort` are present iff non-empty, with their values |
| ActionMethods.GetByFilterRequest | packages/nodes-base/nodes/Suppa/actionMethods.ts:146-156 | a POST of the search body to `baseUrl + "api/instances/search/" + table` with JSON headers |
| ActionMethods.SearchDefaults | packages/nodes-base/nodes/Suppa/actionMethods.ts:99-144 | with the default parameters the body is exactly `{limit, offset}` |
| ActionMethods.SearchConditionsNormalized | packages/nodes-base/nodes/Suppa/actionMethods.ts:106-131 | every merged condition sent is in normal form, unless a top-level filter is itself a condition node |
| SuppaNode.Message | packages/nodes-base/nodes/Suppa/Suppa.node.ts:265-281 | reading `error.message` fails exactly on a rejection with `null` or `undefined`; an unknown action reads "Невідома дія: " + action; an action error carries its message; a rejection with an Error carries that Error's message; a rejection with a plain object gives its `message` property, and with any other value `undefined` |
| SuppaNode.RunItem | packages/nodes-base/nodes/Suppa/Suppa.node.ts:242-267 | an action that throws before sending fails with its own error; otherwise a resolved answer is the item's result, and a rejection fails the item with the transport's reason |
| SuppaNode.ActionRequest | packages/nodes-base/nodes/Suppa/Suppa.node.ts:248-266 | an unknown action fails with that action; among known ones only create (malformed `staticData`) and delete (no confirmation) fail; each known action sends exactly its own builder's request (CreateRequest, GetByIdRequest, GetByFilterRequest, UpdateRequest, DeleteRequest) |
| SuppaNode.UnknownActionSendsNothing | packages/nodes-base/nodes/Suppa/Suppa.node.ts:264-265 | an unknown action fails the same whatever the transport does |
| SuppaNode.ResultOutputs | packages/nodes-base/nodes/Suppa/Suppa.node.ts:271-277 | one entry per element of an array result, in order, otherwise one; all tagged with the item index |
| SuppaNode.Execute | packages/nodes-base/nodes/Suppa/Suppa.node.ts:236-291 | the result is Batch over all items with the node's dispatch |
| SuppaNode.ItemOutcome | packages/nodes-base/nodes/Suppa/Suppa.node.ts:271-287 | a result pushes its entries, one per array element or one otherwise, all tagged with the item index; a failure is rethrown without continue-on-fail; with it, the item pushes `{error: message}`, unless the item was rejected with `null` or `undefined`, when the TypeError of reading its message escapes |
| SuppaNode.Catch | packages/nodes-base/nodes/Suppa/Suppa.node.ts:278-287 | the `catch` block gives exactly what ItemOutcome prescribes for a failed item |
| SuppaNode.Batch | packages/nodes-base/nodes/Suppa/Suppa.node.ts:241-288 | a failed batch failed in one item's iteration, with what escaped that iteration |
| SuppaNode.RunBatch | packages/nodes-base/nodes/Suppa/Suppa.node.ts:241-288 | the loop with its early rethrow computes Batch over all items |
| SuppaNode.BatchStep | packages/nodes-base/nodes/Suppa/Suppa.node.ts:271-283 | a successful batch extends the batch of the earlier items by exactly what the last item's iteration pushes |
| SuppaNode.BatchFailurePersists | packages/nodes-base/nodes/Suppa/Suppa.node.ts:284-286 | once an error is rethrown, later items change nothing |
| SuppaNode.PushResult | packages/nodes-base/nodes/Suppa/Suppa.node.ts:271-277 | the pushes append exactly ResultOutputs(result, i) |
| SuppaNode.BatchPairedItems | packages/nodes-base/nodes/Suppa/Suppa.node.ts:241-283 | every entry is tagged with a processed index, and tags never decrease |
| SuppaNode.NodeTransportRejection | packages/nodes-base/nodes/Suppa/Suppa.node.ts:242-287 | in the node, a rejected request is rethrown without continue-on-fail; with it, an Error rejection pushes `{error: message}` for its item, and a `null`/`undefined` rejection makes the `catch` block throw its TypeError |
| SuppaNode.ContinueOnFailStopsAtNullish | packages/nodes-base/nodes/Suppa/Suppa.node.ts:278-283 | with continue-on-fail the batch fails iff some item is rejected with `null` or `undefined`, and then with the TypeError of reading `message` on the first such rejection |
| SuppaNode.BatchStopsAtFirstFailure | packages/nodes-base/nodes/Suppa/Suppa.node.ts:278-287 | without continue-on-fail the batch fails iff some item fails, with the first failing item's error |
| SuppaNode.BatchCounts | packages/nodes-base/nodes/Suppa/Suppa.node.ts:271-283 | each item has exactly its own entries: one per array element, one for any other result, one `{error}` on failure |
| SuppaNode.ProjectChoices | packages/nodes-base/nodes/Suppa/Suppa.node.ts:140-143 | it succeeds iff no option is nullish, and then maps each option to `{name, value: id}` in order |
| SuppaNode.ProjectField | packages/nodes-base/nodes/Suppa/Suppa.node.ts:134-146 | it succeeds exactly when the field is not nullish, a relation has its `relation`, a custom_enum its `custom_enum`, and the options source is an array without nullish options; then `value` = id, `name` = title (or name when the title is falsy), `options` = the projected choices, `entityId` = `relation.relation_target_entity_id` for a relation and `enumId` = `custom_enum.enum_id` for a custom_enum (undefined otherwise), `multiple` defaults to false |
| SuppaNode.KeptFields | packages/nodes-base/nodes/Suppa/Suppa.node.ts:133 | only fields of the response, none with id `entity_options`, and every other field is kept |
| SuppaNode.KeptFieldsAppend | packages/nodes-base/nodes/Suppa/Suppa.node.ts:133 | the filter distributes over concatenation, so it keeps the fields in their order |
| SuppaNode.KeptFieldsSingle | packages/nodes-base/nodes/Suppa/Suppa.node.ts:133 | a single field is kept exactly when its id is not `entity_options` |
| SuppaNode.ProjectAll | packages/nodes-base/nodes/Suppa/Suppa.node.ts:132-146 | it succeeds iff every kept field projects, and then gives their projections in order |
| SuppaNode.TableFieldsRequest | packages/nodes-base/nodes/Suppa/Suppa.node.ts:121-127 | a GET of `baseUrl + "api/entity_props/" + tableId` with only Authorization |
| SuppaNode.TableFields | packages/nodes-base/nodes/Suppa/Suppa.node.ts:115-152 | `[]` for an empty table id, a rejected request, a response that is not an array, an array with a nullish field, or a kept field that does not project; otherwise the projection of the kept fields; never an `entity_options` option |
| SuppaNode.TableFieldsProjection | packages/nodes-base/nodes/Suppa/Suppa.node.ts:129-147 | a response whose fields all project gives exactly the projection of the kept fields: one option per kept field, in order, each the field's own projection carrying its id |
| SuppaNode.WithShow | packages/nodes-base/nodes/Suppa/Suppa.node.ts:79-87 | the field's keys are kept; `displayOptions` holds the field's own keys, which win, plus `show`, which is the generated `{action: [type]}` unless the field brings its own |
| SuppaNode.ActionProperties | packages/nodes-base/nodes/Suppa/Suppa.node.ts:78-88 | every generated property carries a `displayOptions` object |
| SuppaNode.ActionPropertiesComplete | packages/nodes-base/nodes/Suppa/Suppa.node.ts:78-88 | every field of every action appears, with its action's `show`, and nothing else; the length is the total field count |
| AiTool.Destructure | packages/nodes-base/nodes/Suppa/SuppaAiTool.node.ts:73 | it fails iff the parsed input is null or undefined; otherwise it reads `action`, `table` and `data` |
| AiTool.RecordRequest | packages/nodes-base/nodes/Suppa/SuppaAiTool.node.ts:118-197 | a record action fails iff `table` or `data.id` is falsy, with the action's message; otherwise it addresses `/tables/<table>/records/<id>` with JSON headers |
| AiTool.ToolRequest | packages/nodes-base/nodes/Suppa/SuppaAiTool.node.ts:76-200 | a falsy action is reported first, then missing credentials, then an unknown action; every request carries the JSON headers |
| AiTool.ToolReadActions | packages/nodes-base/nodes/Suppa/SuppaAiTool.node.ts:92-147 | getTables always builds its GET; getTableFields and getByFilter fail iff `table` is falsy, each with its own message, and otherwise have their method, URL and body |
| AiTool.ToolCreateAction | packages/nodes-base/nodes/Suppa/SuppaAiTool.node.ts:149-165 | create fails iff `table` or `data` is falsy, with its message, and otherwise posts the serialised data to the table's records |
| AiTool.ToolRecordActions | packages/nodes-base/nodes/Suppa/SuppaAiTool.node.ts:118-197 | getById, updateById and deleteById fail iff `table` or `data.id` is falsy, and otherwise address the record with GET, PUT (the serialised data) or DELETE |
| AiTool.TablesProjection | packages/nodes-base/nodes/Suppa/SuppaAiTool.node.ts:209-217 | it succeeds iff the response is an array without nullish elements, and maps each element to `{name, value: id}` |
| AiTool.ProjectTables | packages/nodes-base/nodes/Suppa/SuppaAiTool.node.ts:212-215 | the element-wise `{name, value: id}` projection; it fails iff some element is nullish |
| AiTool.ToolValue | packages/nodes-base/nodes/Suppa/SuppaAiTool.node.ts:70-219 | a parse error or a failed destructuring is thrown with its message; a result needs a successful parse, destructuring and parameter check; a transport rejection is thrown as the rejected value itself, and a non-Error can only be such a rejection |
| AiTool.TransportRejection | packages/nodes-base/nodes/Suppa/SuppaAiTool.node.ts:203-225 | a request the transport rejects is answered with `"Error: " + message` for an Error and with the fixed text for anything else |
| AiTool.RunTool | packages/nodes-base/nodes/Suppa/SuppaAiTool.node.ts:69-226 | it never throws: the serialised value, `"Error: " + message`, or the fixed text for a non-Error |
| AiTool.ValidationSendsNothing | packages/nodes-base/nodes/Suppa/SuppaAiTool.node.ts:104-205 | a failed parameter check answers with its message, whatever the transport would do |
| AiTool.MissingAction | packages/nodes-base/nodes/Suppa/SuppaAiTool.node.ts:76-78 | a falsy action is answered "Error: Action parameter is required", credentials or not |
| AiTool.MalformedInput | packages/nodes-base/nodes/Suppa/SuppaAiTool.node.ts:72 | input that does not parse is answered with the parser's message |
| AiTool.ResponsePassThrough | packages/nodes-base/nodes/Suppa/SuppaAiTool.node.ts:219 | actions other than getTables return the response serialised unchanged |
| AiTool.GetTablesProjected | packages/nodes-base/nodes/Suppa/SuppaAiTool.node.ts:209-217 | getTables returns the serialised projection, or the TypeError's message |
| Cors.WireNamesDistinct | packages/cli/src/middlewares/cors.ts:12-36 | the seven headers are sent under seven distinct names |
| Cors.Coalesce | packages/cli/src/middlewares/cors.ts:23 | `??` falls back only for an absent value |
| Cors.WrittenHeadersInMap | packages/cli/src/middlewares/cors.ts:12-36 | every header written is in the final map with the value written |
| Cors.MapHeadersWritten | packages/cli/src/middlewares/cors.ts:12-36 | every header in the final map was written |
| Cors.NoHeaderWrittenTwice | packages/cli/src/middlewares/cors.ts:12-36 | no header is written twice |
| Cors.OriginPolicy | packages/cli/src/middlewares/cors.ts:12-20 | a non-empty origin is reflected with `Vary: Origin` and credentials; otherwise `*`, and neither `Vary` nor credentials |
| Cors.EchoedPreflightHeaders | packages/cli/src/middlewares/cors.ts:22-36 | the requested method and headers are echoed when present (even empty), else the defaults; Max-Age 86400 and the exposed list are always set |
| Cors.PreflightOrNext | packages/cli/src/middlewares/cors.ts:38-43 | OPTIONS ends with 204 and end and never calls `next`; any other method calls `next` last, after only header writes |
| Cors.Exchange.Header | packages/cli/src/middlewares/cors.ts:14 | sets one header and records the write; nothing else changes |
| Cors.Exchange.Status | packages/cli/src/middlewares/cors.ts:39 | sets the status and records it |
| Cors.Exchange.End | packages/cli/src/middlewares/cors.ts:39 | ends the response and records it |
| Cors.Exchange.Next | packages/cli/src/middlewares/cors.ts:43 | records the call to `next` and changes nothing else |
| Cors.CorsMiddleware | packages/cli/src/middlewares/cors.ts:3-44 | the trace grows by exactly CorsEvents and the headers by CorsHeaders; status 204 and ended exactly for OPTIONS |
| Cors.WriteOriginHeaders | packages/cli/src/middlewares/cors.ts:12-20 | the origin-dependent writes, in order |
| Cors.WritePolicyHeaders | packages/cli/src/middlewares/cors.ts:22-36 | the methods, headers, max-age and expose writes, in order |

## Left out

- The HTTP transport, `getCredentials`, `getNodeParameter` and `continueOnFail` are host calls. Their results are parameters. The transport is a function from a request (and, in `execute`, the item index) to a resolved value or a rejection.
- `JSON.parse` and `jsonParse` are a parameter. It gives a value or a SyntaxError message, so the JSON grammar is not modelled. `JSON.stringify` is a parameter too.
- prepareFiltersSuppa works in place. The model computes the tree the walk leaves behind instead. It does not capture aliasing (an object reachable twice is rewritten once in place) or cyclic structures. Idempotence shows that normalising an aliased node twice gives the same result.
- Object key order is not modelled, because objects are maps. Numbers are integers, so there are no fractions, NaN or infinities.
- Text.Lower: lower-cases ASCII letters only. No alias key is the lower-case form of a non-ASCII letter that matters here.
- FilterHelpers.ComparatorToBackend: the alias table is looked up as a plain ten-entry table. JavaScript's inherited-property lookup for keys like `constructor` is not modelled.
- The webhook nodes are not part of this model: SuppaTrigger.node.ts and SuppaRequest.node.ts.
- The other `loadOptions` methods are not part of this model: `searchTables`, `searchEntityData` and `searchEnumOptions`. Each is an HTTP call with a `[]` fallback.
- header-sso.middleware.ts, the credential and field configuration files, logging, and the `DynamicTool` wrapper are not part of this model.
- In the CORS middleware, headers are keyed by a datatype of the seven headers it writes. Express's case-insensitive header storage and other headers already on the response are not modelled. The `Exchange` trace records what was done, but not the network output.
- AiTool.ToolRecordUrl: the record URLs are built as the code writes them, `baseUrl + "/tables/…"`. When `baseUrl` ends with a slash, the URL therefore has a double slash.
