# hapi-sequelize route handlers and history plugin, in Dafny

This project models the request-to-query logic of three generic hapi route
handlers over Sequelize models, plus the Sequelize history (audit) plugin:

- **List handler** (`lib/query-handler.js`). It builds the request-query schema:
  - the legal sort keys, `f` and `-f` for each attribute;
  - `q` accepted only when query fields are configured;
  - the allowed expansions.

  It validates the request query against that schema and builds the where clause. For a search, `q` gets a trailing `*`, every `*` becomes `%`, the field ILIKE clauses are OR-ed, and the result is AND-ed with the base criteria. The where builder rewrites `req.query.q` in place. The handler then coerces the sort into a Sequelize order and assembles the `findAndCountAll` options. Finally it runs the handler: scope, preQuery, the find, the collection, postQuery and the reply.
- **Lookup handler** (`lib/lookup-handler.js`). The default where is the URL parameters, even when there are none. The find options are `where`, then `include` (the required expansions followed by the requested ones), then the route options on top. A missing row is a 404, and postLookup may answer in the handler's place.
- **Remove handler** (`lib/remove-handler.js`). It checks the route configuration. The destroy options are `individualHooks: true`, then `where` when there are criteria, then the route options. After preRemove the request's transaction is always stamped last. A successful delete replies with no value.
- **History plugin** (`lib/history-plugin.js`). It normalises the plugin's arguments and validates the options, with per-model defaults. It builds the history model definition: the tracked attributes with `autoIncrement` stripped, merged under the six meta columns. The afterUpdate hook logs a change only when a tracked field changed, and the history record holds the previous tracked values plus `_sourceId`, `_date` and `_changes`.

Scope normalisation is shared by the three handlers (`Scopes`), and so is the `expand` machinery of the list and lookup handlers (`Expansions`). State that the source updates in place is modelled as classes:
- `ExpandOptions.required`, overwritten by processValidatedOptions;
- the request's query, rewritten by the list where builder;
- the source model's afterUpdate hook list;
- the plugin closure's `options`.

Loops and key-by-key option building are methods proved against the functions that specify them. JavaScript `undefined` for an absent key is `None` or an absent map key. The database calls are parameters of the handler methods: the rows found, the deleted result, and the transaction. So is the clock (`now`).

## Model

| member | source | states |
|---|---|---|
| Shared.ParamsOrNull | lib/query-handler.js:33-35 | the default where of the list and remove handlers is the params map exactly when it is non-empty, null otherwise |
| Scopes.Normalise | lib/query-handler.js:255-257 | null and undefined pass through; a name becomes a one-element list, an array stays as it is |
| Scopes.Resolve | lib/remove-handler.js:108-112 | Model.scope is used iff the route options own a `scope` key, and then with the normalised value of the setting (a function setting called with the request) |
| Scopes.ResolveCases | test/lib/remove-handler-spec.js:341-454 | the tested cases: a name gives [name], an array is kept, null stays null, no key means no scoping |
| Expansions.Difference | lib/query-handler.js:104 | `_.difference` keeps exactly the elements not excluded and never grows |
| Expansions.DifferenceAppend | lib/query-handler.js:104 | the difference keeps the order of the kept elements: it distributes over concatenation |
| Expansions.AllowedExpansions | lib/query-handler.js:101-104 | an expansion is allowed iff it is in `expand.valid` (or, without it, is an association name) and not in `expand.invalid` |
| Expansions.FirstOutside | lib/query-handler.js:106 | finds the first item not allowed, or none iff every item is allowed |
| Expansions.ValidateList | lib/query-handler.js:106 | a list validates iff every item is allowed; a missing list defaults to []; the error names the first bad item |
| Expansions.AssociationsOf | lib/query-handler.js:216-218 | each name maps to `Model.associations[name]`, undefined when absent, in order |
| Expansions.ExpandOptions.constructor | lib/query-handler.js:61-68 | the validated `expand` option as configured |
| Expansions.ExpandOptions.ProcessValidatedOptions | lib/query-handler.js:212-225 | an array `required` is replaced by the constant list of its associations; a function is left untouched; afterwards `required` is always callable |
| Expansions.ExpandOptions.RequiredExpansions | lib/query-handler.js:167 | calling `required` after processing returns the looked-up array when one was configured |
| Expansions.Includes | lib/query-handler.js:163-171 | the include list is the required expansions followed by each requested expansion's association, in request order |
| ListHandler.HttpRequest.constructor | lib/query-handler.js:254 | a request with its params and validated query |
| ListHandler.SortKeys | lib/query-handler.js:84-88 | 2·n keys: key 2i is attribute i and key 2i+1 is `-` + attribute i |
| ListHandler.BuildSortKeys | lib/query-handler.js:84-88 | the reduce loop builds exactly the sort-key list |
| ListHandler.RouteQuerySchema | lib/query-handler.js:90-110 | the schema holds the legal sorts, the route's default limit and sort, accepts `q` iff query fields exist, and allows exactly the allowed expansions |
| ListHandler.ValidateQuery | lib/query-handler.js:91-106 | a request query validates iff sort and expand items are legal and `q` is only given when accepted; defaults fill the missing keys; an empty `q` is dropped |
| ListHandler.SearchTerm | lib/query-handler.js:143 | the term always ends with `*`; one is appended only when missing |
| ListHandler.LikePattern | lib/query-handler.js:147 | same length, each `*` replaced by `%`, every other character kept |
| ListHandler.SearchDisjunction | lib/query-handler.js:145-149 | one ILIKE clause per query field, in configured order, all with the term's pattern |
| ListHandler.Criteria | lib/query-handler.js:137-154 | without a search the base where is returned unchanged; with one, the disjunction alone for a null base, else AND(base, disjunction) |
| ListHandler.PatternShape | lib/query-handler.js:143-147 | every search pattern ends with `%` and contains no `*` |
| ListHandler.NormalisedQIdempotent | lib/query-handler.js:142-143 | rewriting `q` twice adds no second `*`, and the criteria built from the rewritten `q` are the same |
| ListHandler.AfterWhere | lib/query-handler.js:142-143 | the where builder changes only `q`, and after a search `q` ends with `*` |
| ListHandler.ApplyWhere | lib/query-handler.js:137-154 | returns the criteria for the request as it was and rewrites `req.query.q` in place |
| ListHandler.OrderOf | lib/query-handler.js:191-193 | `-f` becomes [[f, DESC]], anything else [[f, ASC]] |
| ListHandler.Ordering | lib/query-handler.js:191-193 | the coercion keeps the sort order, one entry per key |
| ListHandler.SortKeysOrderAttributes | lib/query-handler.js:84-93 | for an attribute whose name does not start with `-`, its two legal sort keys order on that attribute, ascending for `f` and descending for `-f` |
| ListHandler.ComputedListOptions | lib/query-handler.js:180-201 | `offset` is always `start`; `where`, `order`, `limit` and `include` are present iff non-null, non-empty or positive, with the computed values |
| ListHandler.ListOptions | lib/query-handler.js:180-204 | every route option overrides, every other key is the computed one, and a key is present iff computed or overridden |
| ListHandler.BuildListOptions | lib/query-handler.js:180-204 | the key-by-key builder yields exactly the specified options and leaves `q` rewritten |
| ListHandler.HandleList | lib/query-handler.js:254-282 | findAndCountAll is called iff preQuery succeeds, with the scoped model and its options; the reply is the first failure or postQuery's collection of the rows at `start` |
| LookupHandler.DefaultWhere | lib/lookup-handler.js:34-36 | the lookup's default where is always the params, even when empty |
| LookupHandler.DefaultWhereDiffersOnEmptyParams | lib/lookup-handler.js:34-36 | with no params the lookup still gives criteria, where the list and remove handlers give null |
| LookupHandler.RouteQuerySchema | lib/lookup-handler.js:78-91 | only `expand`, with exactly the allowed expansions |
| LookupHandler.ValidateQuery | lib/lookup-handler.js:86 | validates iff every requested expansion is allowed; missing `expand` becomes [] |
| LookupHandler.LookupOptions | lib/lookup-handler.js:136-143 | `where` is always present (null included); `include` present iff there are includes; route options override |
| LookupHandler.BuildLookupOptions | lib/lookup-handler.js:136-143 | the builder yields exactly the specified options |
| LookupHandler.HandleLookup | lib/lookup-handler.js:191-228 | find is called iff preLookup succeeds; a find failure or a postLookup failure is replied as that error; a missing row replies 404; the instance is replied iff postLookup succeeds without responding itself |
| RemoveHandler.ModelError | lib/remove-handler.js:48 | `model` is accepted iff it is a string naming a registered model |
| RemoveHandler.Validate | lib/remove-handler.js:46-55 | a configuration is accepted iff model is valid, where, preRemove and postRemove are functions, options an object, scope a valid alternative and no unknown key; the error is that of the first failing key in schema order (model, where, options, preRemove, postRemove, scope, then the first unknown key); given values are kept; an absent where is params-or-null, an absent preRemove leaves the options unchanged, an absent postRemove does nothing, absent options are {} |
| RemoveHandler.RegistrationCases | test/lib/remove-handler-spec.js:66-238 | the registration cases: missing or unknown model, non-function where, preRemove or postRemove rejected; null and array scopes accepted |
| RemoveHandler.FooRouteDefaults | lib/remove-handler.js:49-51 | a route without where, options or preRemove uses params-or-null, {} and a preRemove that changes nothing |
| RemoveHandler.DeleteOptions | lib/remove-handler.js:73-81 | `individualHooks` defaults to true, `where` is present iff the where function gives criteria, route options override |
| RemoveHandler.ConstructDeleteOptions | lib/remove-handler.js:73-81 | the builder yields exactly the specified options |
| RemoveHandler.DestroyOptions | lib/remove-handler.js:115-123 | destroy gets preRemove's options with `transaction` set last, so it is always the request's transaction; a preRemove failure is the result |
| RemoveHandler.DestroyOptionsWithoutParams | test/lib/remove-handler-spec.js:240-262 | no params: destroy gets only `individualHooks: true` and the transaction |
| RemoveHandler.DestroyOptionsWithParams | test/lib/remove-handler-spec.js:290-313 | `/baz/foo` on `/{bar}/foo`: where is {bar: 'baz'} |
| RemoveHandler.DestroyOptionsHooksOverridden | test/lib/remove-handler-spec.js:314-338 | the route's `individualHooks: false` wins over the default |
| RemoveHandler.HandleRemove | lib/remove-handler.js:107-134 | destroy is called iff preRemove succeeds, always with the transaction; the reply is empty iff destroy and postRemove succeed, else the first error |
| HistoryPlugin.NormaliseArguments | lib/history-plugin.js:177-180 | an array becomes {track: array}, a plain object is kept, anything else becomes {track: all arguments} |
| HistoryPlugin.TrackItems | lib/history-plugin.js:19 | `.single()`: a non-array track value is validated as a one-item array |
| HistoryPlugin.FirstNonName | lib/history-plugin.js:19 | the first track item that is not a non-empty string, or none iff all are |
| HistoryPlugin.NameOption | lib/history-plugin.js:22-28 | a name option is accepted iff absent or a non-empty string; absent takes its default |
| HistoryPlugin.ValidateOptions | lib/history-plugin.js:16-29 | the options validate iff track items and names are non-empty strings and no other key is present; the defaults are all model attributes, 'id', name + 'History' and table name + '_history' |
| HistoryPlugin.Encode | lib/history-plugin.js:185 | the validated object has exactly the four option keys |
| HistoryPlugin.ValidateEncoded | lib/history-plugin.js:183-185 | validated options validate again to themselves against any model: no default applies a second time |
| HistoryPlugin.NoArgumentsTrackNothing | lib/history-plugin.js:180 | with no arguments `track` is [], not all the attributes |
| HistoryPlugin.NameArgumentsTracked | lib/history-plugin.js:180 | names passed as separate arguments are tracked in order, with the other defaults |
| HistoryPlugin.MetaColumns | lib/history-plugin.js:47-65 | exactly the six meta columns: `_id` an auto-incrementing integer primary key; `_sourceId` of the id attribute's type, not null; `_sourceId` and `_revision` sharing the unique group `naturalId`; `_user`, `_date` and `_changes` bare types; only `_id` auto-increments |
| HistoryPlugin.TrackedColumns | lib/history-plugin.js:68-70 | exactly the tracked attributes of the model, with `autoIncrement` removed and everything else kept |
| HistoryPlugin.MergeColumn | lib/history-plugin.js:71 | a bare meta type replaces the tracked definition; a meta definition wins key by key and keeps the tracked keys it does not set |
| HistoryPlugin.HistoryAttributes | lib/history-plugin.js:67-72 | the history attributes are exactly the tracked source attributes plus the meta columns; non-meta ones are the source definitions without `autoIncrement` |
| HistoryPlugin.OnlyIdAutoIncrements | lib/history-plugin.js:47-72 | no history attribute other than `_id` auto-increments |
| HistoryPlugin.CreateHistoryModel | lib/history-plugin.js:38-121 | fails iff idAttr is not an attribute of the model; otherwise the history model has the configured name and table, the merged attributes, no timestamps and an index on `_sourceId` |
| HistoryPlugin.Associate | lib/history-plugin.js:130-133 | the history model belongs to the source as `source` through `_sourceId`, cascading deletes, and is otherwise unchanged |
| HistoryPlugin.HistoryRecord | lib/history-plugin.js:143-151 | the record holds exactly the tracked previous values plus `_sourceId` (the current id), `_date` (now) and `_changes`; the meta keys win |
| HistoryPlugin.RecordFitsHistoryModel | lib/history-plugin.js:143-151 | every key of a history record is an attribute of the history model |
| HistoryPlugin.Intersection | lib/history-plugin.js:165 | `_.intersection` holds exactly the common elements, without repeats |
| HistoryPlugin.AfterUpdate | lib/history-plugin.js:163-167 | a record is written iff some changed field is tracked, and then it is the history record |
| HistoryPlugin.UpdateWrites | lib/history-plugin.js:164-167 | each write comes from a registered hook, at most one per hook |
| HistoryPlugin.UpdateWritesAppend | lib/history-plugin.js:164-167 | a newly registered hook's write comes after those of the hooks registered before it |
| HistoryPlugin.TrackedModel.constructor | lib/history-plugin.js:163-164 | a source model starts with no history hooks |
| HistoryPlugin.TrackedModel.AddHooks | lib/history-plugin.js:163-170 | addHooks appends one afterUpdate hook for the history model and options |
| HistoryPlugin.ApplyPlugin | lib/history-plugin.js:182-189 | an application fails with the validation error, or with the id-attribute error iff idAttr is missing, else yields the associated history model |
| HistoryPlugin.OptionsAfterApply | lib/history-plugin.js:183-186 | after a successful validation the plugin's options are the validated ones; after a failure they are unchanged |
| HistoryPlugin.ReusedPluginKeepsFirstDefaults | lib/history-plugin.js:182-186 | applied to a second model, the plugin validates to the first model's options, so the second history model gets the first model's name |
| HistoryPlugin.FreshApplicationUsesOwnDefaults | lib/history-plugin.js:16-29 | validated afresh, each model gets its own history model name, table name and tracked attributes |
| HistoryPlugin.Plugin.constructor | lib/history-plugin.js:177-180 | the plugin holds the normalised arguments |
| HistoryPlugin.Plugin.Apply | lib/history-plugin.js:182-189 | as written: the result of one application, the options replaced by the validated ones, and one hook added on success |
| HistoryPlugin.Plugin.ApplyFresh | lib/history-plugin.js:182-189 | corrected: the same result and hook, validating the original options every time |

## Left out

- The bulk-upsert engine is not part of this model. Its implementation is not among the source files, and its tests need a live Postgres.
- `lib/lob-plugin.js` is not part of this model. It streams large objects, which is pure I/O.
- joi and hapi machinery is not modelled:
  - compiling schemas;
  - `mergeRouteValidationSchemas`, which concatenates route validation;
  - the text of error messages.

  Validation outcomes are modelled as error datatypes.
- The list and lookup route-configuration schemas (`optionsSchema`) are not modelled. The route options are taken as already validated. The remove handler's schema is modelled.
- Promises, `process.nextTick` and `req.response` are not modelled. The handlers are sequential methods. "postLookup has replied" is its `Ok(true)` result.
- Route callbacks are total functions: where, scope, `expand.required`, and the pre/post hooks. A hook's side effects on the options or the collection are modelled as the value it returns, and a thrown error as `Err` or `Some(error)`.
- The database is not modelled: `findAndCountAll`, `find`, `destroy`, `create`, `sequelize.define` and `requiresTransaction`. Their outcomes are parameters or returned call records.
- The Sequelize model keeps `attributes` (the attribute names) beside `columns` (their definitions), and `associationNames` beside `associations`. In Sequelize each pair is one object. The model does not require the two to agree: the default `track` is read from `attributes`, while the id check and the attribute pick read `columns`.
- Query parameters are not checked for being integers: `start` and `limit` arrive as integers.
- ListHandler.Criteria: a where function result is either criteria or null. JavaScript's other falsy values (0, '', false, undefined) are treated like null.
- RemoveHandler.DeleteOptions: the same abstraction of the where result; a falsy value other than null leaves out `where` just as null does, which the model shows as None.
- LookupHandler.LookupOptions: the same abstraction of the where result; a where function returning undefined leaves an own `where: undefined` key, which the model writes as null (`ONull`).
- Scopes.Normalise: a scope function may return only null, undefined, a name or a list of names. In JavaScript, `[].concat` also wraps any other non-null value into a one-element array, such as a Sequelize parameterised scope `{method: [name, ...args]}`, and it keeps arrays holding such values as they are. The model does not represent those values.
- ListHandler.SortKeysOrderAttributes: an attribute whose own name starts with `-` (say `-a`) has a legal sort key `-a` that sorts descending on a different column `a`, as the coercion strips the first `-`. The lemma covers only attributes whose names do not start with `-`, and the model keeps this behaviour as written.
- ListHandler.ListIncludes: the handler builds the options on the scoped model, so a function `expand.required` receives `Model.scope(...)` and requested expansions are looked up on it. The model passes the unscoped model description; a required function that depends on the active scope is not modelled.
- LookupHandler.LookupIncludes: the same as for the list handler, with the scoped model of the lookup.
- HistoryPlugin.HistoryRecord: when a previous value has the same key as a meta field and both are arrays or plain objects, lodash merges them deeply. The model lets the meta value replace it.
- HistoryPlugin.HistoryRecord: an undefined id value is modelled as null.
- HistoryPlugin.TrackedColumns: track entries are plain keys, not lodash property paths. `model.attributes[idAttr]` does not see inherited object properties.
- HistoryPlugin.ValidateOptions: an unknown-keys error carries every unknown key, where joi reports the first one.
- The history model's `sync` (its SQL trigger for `_revision`) is not modelled, and neither is the `restore` instance method. Both are database I/O.
- The `_user` column's pre-create hook belongs to clients and is not modelled.

## Findings

| source | as written | input that shows it | evidently intended | confidence | as-written member | corrected member |
|---|---|---|---|---|---|---|
| lib/history-plugin.js:185 | the plugin's closure variable `options` is overwritten with the options validated against the first model it is applied to | one plugin value from `history({})`, applied to model `order` and then to model `invoice` | the defaults (model name + 'History', table name + '_history', all attributes) come from each model, so `invoice` gets `invoiceHistory`; instead it gets `orderHistory` and `order`'s attributes | not executed; medium | HistoryPlugin.ReusedPluginKeepsFirstDefaults | HistoryPlugin.Plugin.ApplyFresh |
