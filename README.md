# Visual component core, modelled in Dafny

This project models the core of a library of dashboard widgets. Two source
files make up that core:

- `src/utils.ts` holds `mergeDataSource` and `getOptionsFromConfig`.
  - `mergeDataSource` normalises a data-source description in place. It
    parses the JSON text held in `api.headers`, `api.body`, `api.params` and
    `tingyunConfig`. It then deep-merges an override into the description
    with lodash's `merge`. Last, it serialises any of those four fields that
    holds an object or array back to text.
  - `getOptionsFromConfig` writes the default options that a GUI schema
    describes into an options object, recursing into groups and menus.
- `src/visual-component.ts` holds the `VisualComponent` base class. That is
  the state of one placed widget: its version, attributes, schema, options,
  advertised events and actions, data-source slots and visibility. It also
  has the methods that change this state.

The files are:

- `json.dfy` holds JavaScript values, with `undefined` kept apart from
  `null`, and an abstract JSON codec.
- `lodash.dfy` holds the lodash helpers the core relies on: `merge`,
  `assign`, `isObject` and `isString`. On the objects the constructor
  tests, `isEmpty` means "has no keys", so `Component.AdoptIfNonEmpty`
  tests for the empty map directly.
- `interfaces.dfy` holds the record shapes from `src/interfaces.ts`. It also
  has two heap classes, a plain object (`JsObject`) and an array
  (`JsArray`), whose contents the core updates in place.
- `utils.dfy` models `mergeDataSource` and `getOptionsFromConfig`.
  - Each is an imperative method on a `JsObject`.
  - Each is proved against a specification function: `MergedDataSource` and
    `Filled`.
  - Lemmas about those functions give the properties.
- `component.dfy` models `VisualComponent` as a class with the source's
  fields and methods.
  - The change detector is reduced to a redraw counter.
  - The two event emitters are reduced to one ordered log of emitted
    signals.
  - The injected `request` function becomes a parameter. It maps the data
    source it receives to the way its promise settles.

The model follows the code on three points that are easy to misread:

- The four parses share one `try` block. When one parse throws, the later
  ones are skipped, so the text they hold is neither parsed nor merged into
  (`Utils.FirstFailureSkipsRest`, `Utils.MalformedHeadersSkipParamsParse`).
  Processing does not go on carrier by carrier.
- Every carrier that holds an object or array after the merge is serialised
  again. That happens even with an empty override, so a carrier never stays
  an object (`Utils.EmptyOverrideReserialises`, `Utils.SerializeCarriers`).
- `getOptionsFromConfig` overwrites whatever `options` already holds under a
  schema key. The constructor never calls it.

## Model

| member | source | states |
|---|---|---|
| Lodash.Assign | src/visual-component.ts:18-22 | the result has the keys of both maps; a source value wins over a target value; target values stay under every other key |
| Lodash.AssignEmpty | src/visual-component.ts:18-22 | assigning onto `{}` copies the source, and assigning `{}` changes nothing |
| Lodash.Merge | src/utils.ts:29 | an `undefined` source keeps the destination; an object source yields an object over the union of both key sets (a non-object destination counts as `{}`); an array source yields an array as long as the longer of the two; any other source replaces the destination |
| Lodash.MergeProps | src/visual-component.ts:165 | deep merge of two objects: keys are the union; untouched keys keep their value; every source key holds the deep merge of the two values; an `undefined` source value never overwrites |
| Lodash.MergeIdempotent | src/utils.ts:29 | merging the same source a second time changes nothing the first merge did not |
| Lodash.MergeSelf | src/visual-component.ts:220-222 | merging a value into itself leaves it unchanged |
| Lodash.MergeEmptyProps | src/visual-component.ts:197 | an empty override (no options given to `requestData`) leaves the object unchanged |
| Utils.ReadWrite | src/utils.ts:13-23 | writing one carrier changes that carrier only, keeps the key set and leaves every top-level key other than `api`/`tingyunConfig` alone |
| Utils.ParseCarriersRead | src/utils.ts:12-24 | when the try block completes, each carrier holds its text parsed (an empty `tingyunConfig` as `'{}'`) or its unchanged non-string value |
| Utils.FirstFailureSkipsRest | src/utils.ts:12-27 | the first parse that throws ends the try block: the error is caught and every later carrier keeps its text |
| Utils.ParseCarriers | src/utils.ts:12-27 | the try block keeps the data source's key set and every top-level field other than `api`/`tingyunConfig`; with no carrier to parse nothing is caught |
| Utils.NothingToParse | src/utils.ts:12-24 | with no carrier holding text, the try block changes nothing and catches nothing |
| Utils.ParseCarrier | src/utils.ts:13-15 | one parse statement in place: succeeds unless `JSON.parse` throws, and then writes the parsed value into the carrier |
| Utils.ReadMergeProps | src/utils.ts:29 | after the deep merge, a carrier holds its base value merged with the override's value, unless the override replaces `api` by a non-object |
| Utils.SerializeOneRead | src/utils.ts:31-33 | one serialisation statement turns an object/array carrier into its `JSON.stringify` text, leaves the other carriers as they were, keeps the key set and touches no top-level key other than `api`/`tingyunConfig` |
| Utils.SerializeCarriers | src/utils.ts:31-42 | each carrier ends as its own value serialised when it is an object or array, so no carrier holds an object or an array afterwards |
| Utils.SerializeCarriersRead | src/utils.ts:31-42 | the four serialisation statements keep the key set and touch no top-level key other than `api`/`tingyunConfig` |
| Utils.SerializeCarrier | src/utils.ts:31-33 | one serialisation statement in place |
| Utils.MergedDataSource | src/utils.ts:10-44 | the data source after the call never has an object or array in a carrier |
| Utils.CarrierParsed | src/utils.ts:12-27 | a carrier whose parse and every earlier parse succeed holds its parsed value after the try block, even when a later parse throws |
| Utils.ParseCarriersSplit | src/utils.ts:12-27 | a try block that completes on a prefix of the carriers goes on from the state that prefix left |
| Utils.ParseKeepsOther | src/utils.ts:12-27 | parsing other carriers, whether or not one throws, leaves a carrier as it was |
| Utils.NotLoggedIsParsedThroughAll | src/utils.ts:12-27 | nothing is logged exactly when every parse up to and including `tingyunConfig` succeeds |
| Utils.CarrierAfterMerge | src/utils.ts:12-42 | when no parse up to and including its own throws and the override keeps `api` an object, a carrier ends as the serialisation of its parsed base value deep-merged with the override's value |
| Utils.OverrideMergedIntoParsedBase | src/utils.ts:13-32 | when no parse up to and including the carrier's own throws and the override keeps `api` an object, the override's object for a carrier is merged into the parsed base object, which becomes text again |
| Utils.EmptyOverrideReserialises | src/utils.ts:12-42 | when no parse up to and including the carrier's own throws and the override is empty, JSON object text ends as `stringify(parse(text))`, still a string |
| Utils.HeadersSurviveLaterFailure | src/utils.ts:12-32 | valid headers text followed by malformed body text: the error is logged, and the headers still end as `stringify(parse(text))` |
| Utils.EmptyTingyunConfig | src/utils.ts:22-42 | when no parse throws, an empty `tingyunConfig` comes back as the string `"{}"` under any override that does not mention it, such as the `{}` `requestData` passes |
| Utils.MalformedHeadersKept | src/utils.ts:13-33 | malformed headers text is logged, not thrown, and the headers keep that text under any override that keeps `api` an object and does not mention `api.headers` |
| Utils.MalformedHeadersSkipParamsParse | src/utils.ts:12-38 | malformed headers leave `params` unparsed, so an object override for `params` replaces its text instead of merging into it |
| Utils.HeadersExample | src/utils.ts:10-44 | base headers `'{"a":1}'` with override `{api: {headers: {b: 2}}}` end as the text of `{a: 1, b: 2}` with nothing logged |
| Utils.OtherFieldsPreserved | src/utils.ts:10-44 | no key is lost, and top-level fields outside `api`/`tingyunConfig` that the override does not mention keep their values |
| Utils.ApiFieldsPreserved | src/utils.ts:10-44 | properties of `api` other than the three api carriers (`url`, `method`, `proxy`, ...) keep their values whenever the override leaves `api` an object and does not mention them |
| Utils.MergeDataSource | src/utils.ts:10-44 | an undefined data source is left alone and nothing is logged; otherwise the object's new contents and the logged flag are exactly `MergedDataSource` of its old contents |
| Utils.Defaults | src/utils.ts:54-66 | one entry per schema key: the default when there is one (not `null`/`undefined`); for groups and menus an object over the children's keys; `[]` for tabs; `null` otherwise |
| Utils.Filled | src/utils.ts:53-69 | schema keys are added to the options; a schema default overwrites; other options stay |
| Utils.DefaultsCover | src/utils.ts:59-60 | the derived options mirror the schema's key structure at every depth of group/menu nesting |
| Utils.FilledEmpty | src/utils.ts:60 | filling a fresh `{}` yields exactly the schema's defaults |
| Utils.FilledPointwise | src/utils.ts:54-67 | a map with every schema default over the untouched rest of the options is the filled options |
| Utils.FieldValue | src/utils.ts:56-65 | the value stored for one field is that field's default as `Defaults` defines it |
| Utils.GetOptionsFromConfig | src/utils.ts:53-69 | returns the same options object, whose contents are now `Filled(schema, old contents)` |
| Component.InitialEvents | src/visual-component.ts:24-53 | the events hold every configured event, and both request events when data interfaces are declared |
| Component.InitialActions | src/visual-component.ts:38-96 | the five built-in actions are always present with their built-in descriptions |
| Component.EventsPrecedence | src/visual-component.ts:24-53 | with data interfaces declared, the events are the two request events plus the configured ones, and configured descriptions win; otherwise they are exactly the configured events |
| Component.ActionsPrecedence | src/visual-component.ts:38-96 | the five built-in actions are always present and win every clash; configured actions are kept under other names; with data interfaces declared, `requestData` and `render` are added unless configured |
| Component.RequestSignalsAdvertised | src/visual-component.ts:24-49 | with data interfaces declared, both signals `requestData` can emit and the `requestData` action are advertised |
| Component.VisualComponent.constructor | src/visual-component.ts:15-57 | each field is the configured value when non-empty and the initialiser's otherwise (version `"0.0.0"`); events and actions follow the precedence above; not hidden, no data, no redraws |
| Component.VisualComponent.Show | src/visual-component.ts:120-123 | visible afterwards; one redraw when a detector is present |
| Component.VisualComponent.Hide | src/visual-component.ts:126-129 | hidden afterwards; one redraw when a detector is present |
| Component.VisualComponent.ToggleHide | src/visual-component.ts:132-135 | visibility is negated; one redraw when a detector is present |
| Component.VisualComponent.UpdateOptions | src/visual-component.ts:156-158 | no state changes but a redraw |
| Component.VisualComponent.UpdateAttr | src/visual-component.ts:164-167 | attributes become their deep merge with the new ones: keys are the union and untouched keys keep their values |
| Component.VisualComponent.RequestData | src/visual-component.ts:195-201 | without a `source` slot the options are merged and the call throws, emitting nothing; otherwise the slot's data source becomes `MergedDataSource` of it, the options are deep-merged (in turn, when both are one object), and exactly one success or failure signal is appended, matching how the request settles |
| Component.VisualComponent.SetData | src/visual-component.ts:208-213 | a given array becomes the current data; without one the data stays; the current data is returned |
| Component.VisualComponent.SetOptions | src/visual-component.ts:219-224 | a given object other than the options themselves is deep-merged into them; the options object is returned |

## Left out

- Promise scheduling: `requestData` appends its signal at once. In the source the signal is emitted on a later tick.
- A success subscriber that throws also makes the source emit `requestFailed`. Subscribers are not modelled.
- A `request` function that throws synchronously is not modelled. The requester is a total function passed as a parameter.
- `console.error` is reduced to the `logged` flag. The JSON codec is kept abstract, as a pair of function values.
- `init`, `destroy`, `render` and `resize` are empty hooks or redraw-only hooks. `render` and `resize` are not modelled separately from `UpdateOptions`.
- The response cache `responseData` and `resources` are only initialised. The core never writes them.
- Numbers are integers. The core does no arithmetic on them.
- `Object.keys` order is not modelled. `getOptionsFromConfig` writes distinct keys, so its result does not depend on the order.
- Lodash `merge` of a plain-object source onto an array destination is simplified: the model merges into a fresh object, while lodash merges keys into the array.
- Functions, class instances and other non-JSON values are not part of the value model.
- Nested objects are values in the model, not shared references. In the source, `options[key] = fieldCfg.default` stores the schema's default object by reference, so a later `merge` into the options also changes that schema default in place. Nested objects shared between data sources behave the same way. Neither kind of sharing is captured.
- Component.VisualComponent.constructor: `assign(configs.x, this.x)` makes the component adopt and mutate the caller's objects. The model builds fresh values, so that aliasing is not captured.
- Component.VisualComponent.constructor: a truthy non-string `version` is not modelled, because versions are strings.
- Component.VisualComponent.RequestData: `data.config || {}` and `data.options || {}` also replace falsy non-object values by `{}`. The model's argument is an object or absent.
- Utils.GetOptionsFromConfig: requires that every container field without a default has `children`. Otherwise the source throws a TypeError from `Object.keys(undefined)` part-way through the loop, and that crash is not modelled.
- Utils.CarrierAfterMerge: holds only when the override does not replace `api` by a non-object. Under `{api: null}` the api carriers end undefined, and that case is not stated.
- Utils.ReadMergeProps: holds only when the override does not replace `api` by a non-object. That case is left to the general `Utils.MergedDataSource` contract.
- The shapes in `src/interfaces.ts` beyond the data-source carriers are not checked. The core only merges those fields.
