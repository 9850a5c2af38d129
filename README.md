# serverless-serve: the request-routing and event-building engine

serverless-serve is a Serverless Framework plugin that exposes a project's
functions as local HTTP routes, simulating API Gateway. This project models its
core in Dafny and proves properties of that model. The core is in `index.js`.
It has four parts:

- **Route-path translation.** The URL prefix option is normalised in place. An
  endpoint's gateway path (`users/{id}`) is prefixed and given a leading `/`.
  Trailing slashes are then handled, and every `{name}` segment is rewritten to
  the router parameter `:name`. The HTTP verb is lower-cased
  (`RoutePaths`, `Invoker.Gateway`).
- **Handler reference parsing.** `homepage/index/handler.handler` names the file
  `handler.js` and the export `handler`. Only `nodejs` functions are registered
  (`HandlerRefs`, `Invoker.Gateway.RegisterFunction`).
- **Event construction.** An endpoint may have a truthy `application/json`
  template. Then each template field is evaluated in the mapping mini-language
  (`$input.params`, `$input.json`, `$input.path`) and stored only when the
  value is truthy. A throwing field is skipped. Without such a template, the
  body, path parameters and query are merged, and later sources win. A template
  given as text first has its `$input.json(...)` calls wrapped in quotes
  (`MappingLanguage`, `EventBuilder`).
- **Handler cache and outcome.** All routes of one function share one `handler`
  cell. The cell is filled by the first lookup that yields a truthy value and
  reused afterwards. A failed lookup rejects the request and leaves the cell
  empty. The function's callback rejects on a truthy `err`, which gives status
  500. Otherwise its result is sent (`Invoker`).

The parts that step through state are imperative Dafny:

- the trailing-slash loops (`CollapseTrailingSlash`, `StripTrailingSlashes`);
- the copying loops (`CopyFields`, `CopySources`, `MergeFallback`);
- the mapping loop (`BuildExplicit`);
- the handler cell (`HandlerCell`, `Route.Serve`);
- the prefix rewrite (`Gateway.NormalizePrefix`);
- registration (`Gateway.RegisterFunction`, `Gateway.RegisterLambdas`, `AddRoutes`).

Each of these methods is proved against a specification function, and the
properties of those functions are proved as lemmas.

Behaviour of `index.js` that the model keeps as the code has it:

- `params(name)` returns the first *truthy* value among path parameter, query
  and header, not the first one that is present.
- An expression is evaluated only if it contains `$input.`. The `()` in the
  source's regular expression is an empty group, so no call is required after
  `$input.`. An expression written as `input.params('id')` yields `null`.
- An empty-string `application/json` template is falsy, so it selects the
  fallback merge.
- The trailing-slash loop does not remove a trailing run of slashes. It
  replaces the whole path with `"/"`. This is a defect (see Findings). The
  as-written loop is modelled and the counterexample is proved. The route
  table uses the corrected loop, and `MatchablePathAgreement` states exactly
  where the two differ.
- The fallback loops call `source.hasOwnProperty(prop)` on each source. A
  JSON body with its own `hasOwnProperty` field hides the method, so the call
  throws and the request is rejected with status 500 before any handler
  lookup (`Fallback`).
- `params()` with no argument exposes the path parameters under both `headers`
  and `path`. Real headers are not exposed. This is preserved as written
  (`ParamsSnapshot`).

## Model

| member | source | states |
|---|---|---|
| `JsValues.Truthy` | index.js:189 | the falsy values are exactly `undefined`, `null`, `false`, `0` and `""` |
| `JsValues.OwnFields` | index.js:197-214 | an object's own fields are its fields; an array's or a string's are keyed by exactly the decimal indices, each holding its element or character; other values have none |
| `JsValues.FirstTruthy` | index.js:295 | `a \|\| b \|\| c` yields a truthy value iff some operand is truthy; it is the first truthy operand, else the last operand |
| `Strings.Split` | index.js:154 | every piece of `split('/')` is free of the separator and holds only characters of the input; there is at least one piece |
| `Strings.Join` | index.js:167 | the join starts with the first piece |
| `Strings.JoinSeparator` | index.js:162-167 | with separator-free pieces, the join contains the separator if and only if there are at least two pieces |
| `Strings.JoinEnd` | index.js:162-167 | with at least two pieces, the join ends in the last character of the last piece |
| `Strings.JoinSplit` | index.js:154-162 | joining the pieces of a split gives the original string back |
| `Strings.SplitJoin` | index.js:154-162 | splitting a join of separator-free pieces gives the pieces back |
| `Strings.SplitAround` | index.js:131 | splitting `a + sep + b` is splitting `a`, then `b` |
| `Strings.LowerAscii` | index.js:167 | lower-casing keeps the length, leaves no upper-case letter, and changes only upper-case letters |
| `Strings.LowerAsciiIdempotent` | index.js:167 | lower-casing twice is lower-casing once |
| `RoutePaths.NormalPrefix` | index.js:57-63 | a missing or empty prefix becomes `""`; a non-empty one ending in `/` is kept; any other gets one `/` appended |
| `RoutePaths.NormalPrefixIdempotent` | index.js:57-63 | normalising a normalised prefix changes nothing |
| `Invoker.Gateway.NormalizePrefix` | index.js:57-63 | the prefix field is rewritten in place to the normalised prefix; nothing else changes |
| `RoutePaths.LeadingSlash` | index.js:143-147 | the path starts with `/`; a path already starting with `/` is kept, otherwise exactly one `/` is put in front |
| `RoutePaths.Collapsed` | index.js:149-152 | as written: the result is at most one character or does not end in `/`; any path longer than 1 ending in `/` becomes `"/"`; other paths are unchanged |
| `RoutePaths.CollapseTrailingSlash` | index.js:149-152 | the source's `while` loop computes `Collapsed` |
| `RoutePaths.Stripped` | index.js:149-152 | corrected: the result is the input minus its trailing run of `/`, keeping a leading `/`; it is at most one character or does not end in `/` |
| `RoutePaths.StripTrailingSlashes` | index.js:149-152 | the corrected `while` loop, one `/` per iteration, computes `Stripped` |
| `RoutePaths.StrippedIdempotent` | index.js:149-152 | stripping a stripped path changes nothing |
| `RoutePaths.CollapseDiscardsPath` | index.js:149-152 | on a path ending in `/` with another character, the source yields `"/"` while stripping keeps that character |
| `RoutePaths.PrefixedTrailingSlashExample` | index.js:142-167 | prefix `api/` and path `users/` register `/` as written and `/api/users` corrected |
| `RoutePaths.RewriteSegment` | index.js:155-162 | `{name}` becomes `:name`; every other segment (`""`, `{`, `{a`, `a}`) is unchanged |
| `RoutePaths.RewriteSegmentShape` | index.js:155-162 | rewriting keeps segments free of `/`, keeps them non-empty iff they were, and never makes a trailing `/` |
| `RoutePaths.RewriteSegments` | index.js:155-162 | the `map` keeps the segment count and rewrites each segment in place |
| `RoutePaths.Translate` | index.js:154-167 | the split, rewritten and joined path splits back into exactly the rewritten segments of the input |
| `RoutePaths.TranslateLeading` | index.js:154-167 | a path starting with `/` still starts with `/` after the rewrite |
| `RoutePaths.TranslateTrailing` | index.js:154-167 | a path that starts with `/` and does not end in `/` does not end in `/` after the rewrite (every router path starts with `/`) |
| `RoutePaths.TranslateShape` | index.js:154-167 | a path starting with `/` that is `/` or has no trailing `/` keeps that shape after the rewrite |
| `RoutePaths.TranslateWithoutBraces` | index.js:154-167 | a path without `{` is registered as it is |
| `RoutePaths.MatchablePath` | index.js:142-167 | corrected: the router path starts with `/` and is `"/"` or has no trailing `/` |
| `RoutePaths.MatchablePathAsWritten` | index.js:142-167 | as written: the same leading and trailing shape holds with the source's loop |
| `RoutePaths.MatchablePathShape` | index.js:154-167 | the router path's segments are the rewritten segments of the prefixed path with its leading `/` added and trailing `/` removed |
| `RoutePaths.MatchablePathAgreement` | index.js:142-167 | the as-written and corrected router paths agree unless the prefixed path is longer than `/` and ends in `/`; then the as-written one is `"/"` |
| `RoutePaths.RouteMethod` | index.js:167 | the router verb is the lower-cased verb: same length, each `A`-`Z` shifted to its lower-case letter, every other character kept |
| `Invoker.Route.constructor` | index.js:141-167 | a route records its endpoint, the prefix and its function's cell; its verb is the lower-cased method and its path the corrected router path of the endpoint under the prefix |
| `HandlerRefs.HandlerParts` | index.js:131 | the parts hold neither `/` nor `.`; there is at least one |
| `HandlerRefs.ParseHandler` | index.js:130-139 | the file ends in `.js` after a stem without `/` or `.`; the export has no `/` or `.` |
| `HandlerRefs.ParseIgnoresDirectories` | index.js:131 | only the last `/`-segment of the handler string matters |
| `HandlerRefs.ParseQualified` | index.js:131-137 | `dir/stem.name` gives file `stem.js` and export `name` |
| `HandlerRefs.ParseBare` | index.js:131-137 | a last segment without `.` gives file `stem.js` and no export |
| `MappingLanguage.ParamsSnapshot` | index.js:296-301 | the no-argument snapshot has keys `headers`, `querystring`, `path`; `headers` and `path` are both the path parameters |
| `MappingLanguage.InputParams` | index.js:293-303 | with a non-empty name: truthy iff one of path parameter, query, header is; the first truthy of them, else the header; with no or empty name: the snapshot |
| `MappingLanguage.InputJson` | index.js:305-308 | the first JSONPath match, `undefined` without one |
| `MappingLanguage.Evaluate` | index.js:293-312 | `params(name)` gives `InputParams`, `json(path)` gives `InputJson`; evaluation throws exactly for `path(...)` (always) and unsupported text; text without `$input.` gives `null` |
| `MappingLanguage.Classify` | index.js:249-251 | an expression is `NotInput` iff its text does not contain `$input.` |
| `MappingLanguage.ClassifyRender` | index.js:249-251 | classifying the canonical text of `params()`, `params('n')`, `json('p')`, `path(a)` gives that expression back |
| `MappingLanguage.ProcessMapping` | index.js:246-255 | text without `$input.` yields `null` |
| `MappingLanguage.ProcessMappingRender` | index.js:246-255 | the canonical text of an expression evaluates that expression |
| `MappingLanguage.CloseParen` | index.js:182 | the lazy `.+?\)` stops at the first `)` with no line terminator before it |
| `MappingLanguage.JsonCallMatch` | index.js:182 | a match starts with `$input`, one character other than a line terminator, `json(` and one more such character; it ends at the first `)` after that, with no `)` or line terminator in between, and is at least 14 characters |
| `MappingLanguage.JsonCallMatchAt` | index.js:182 | a template starting with a one-line `$input.json(arg)`, `arg` free of `)`, matches up to that call's `)` |
| `MappingLanguage.QuoteJsonCalls` | index.js:182-183 | quoting only inserts `"`: it never shortens the template, and with all `"` removed the template is unchanged |
| `MappingLanguage.QuoteJsonCallsNoDollar` | index.js:182-183 | a template without `$` is unchanged |
| `MappingLanguage.QuoteJsonCallsLength` | index.js:182-183 | quoting lengthens the template by exactly two characters per match of the pattern |
| `MappingLanguage.QuoteAfterPlainText` | index.js:182-183 | text without `$` is copied as it is, and quoting goes on after it |
| `MappingLanguage.QuoteEmbeddedJsonCall` | index.js:182-183 | a one-line `$input.json(arg)` with `arg` free of `)`, after text without `$`, is wrapped in `"` and quoting goes on after its `)` |
| `MappingLanguage.QuoteSingleJsonCall` | index.js:182-183 | a one-line `$input.json(arg)` with `arg` free of `)` is wrapped in `"` as a whole |
| `EventBuilder.JsonTemplate` | index.js:175-176 | explicit mapping is chosen iff templates exist and the `application/json` one is truthy |
| `EventBuilder.FallbackEvent` | index.js:197-215 | the keys are the union of the own keys of body, params and query; each value comes from query, else params, else body |
| `EventBuilder.ShadowedBody` | index.js:198-199 | only an object body can hide `hasOwnProperty`: array and string bodies have only digit keys |
| `EventBuilder.Fallback` | index.js:197-215 | the fallback branch throws the `TypeError` exactly when body, params or query has an own `hasOwnProperty` field, and otherwise gives `FallbackEvent` |
| `EventBuilder.CopyFields` | index.js:198-214 | one copying loop: it throws iff the source has an own `hasOwnProperty` field; otherwise keys are the union, copied keys take the source's value, others keep theirs |
| `EventBuilder.CopySources` | index.js:197-215 | the three loops over body fields, params and query merge them in that order, or throw when one hides `hasOwnProperty` |
| `EventBuilder.MergeFallback` | index.js:197-215 | the three loops compute `Fallback`: `FallbackEvent`, or the `TypeError` |
| `EventBuilder.Stored` | index.js:188-194 | a field stores a value iff evaluation succeeds with a truthy value |
| `EventBuilder.ExplicitEvent` | index.js:186-195 | every value in the explicit event is truthy |
| `EventBuilder.ApplyField` | index.js:189-191 | one field sets its name to its stored value when it stores one, and changes nothing else |
| `EventBuilder.BuildExplicit` | index.js:186-195 | the mapping loop with its `try`/`catch` computes `ExplicitEvent` |
| `EventBuilder.ExplicitEventLast` | index.js:186-195 | the last field writes its key when it stores a value and leaves every other key as it was |
| `EventBuilder.ExplicitEventHas` | index.js:186-195 | a key is in the event iff some field of that name stores a value |
| `EventBuilder.ExplicitEventValue` | index.js:186-195 | a key's value is the one stored by the last field writing it |
| `EventBuilder.ExplicitEventOnlyTemplateKeys` | index.js:186-195 | no key other than a template field name appears |
| `EventBuilder.ExplicitEventSkips` | index.js:188-194 | a field that stores nothing (throws, falsy, not `$input.`) can be removed without changing the event: later fields are still processed |
| `EventBuilder.NonInputStoresNothing` | index.js:249-254 | a field without `$input.` stores nothing |
| `EventBuilder.PathStoresNothing` | index.js:310-312 | a `$input.path(...)` field stores nothing |
| `EventBuilder.BuildEvent` | index.js:171-215 | without a truthy JSON template the result is `Fallback`; with a template object, or a text template that parses after quoting, the event is `ExplicitEvent` of its fields; a text template that does not parse fails; building fails only in these two ways; in explicit mode every value is truthy |
| `EventBuilder.ParamsFieldStores` | index.js:189-191 | a field `$input.params('name')` stores the `params(name)` value iff it is truthy |
| `EventBuilder.JsonFieldStores` | index.js:189-191 | a field `$input.json('path')` stores the first JSONPath match iff it is truthy |
| `EventBuilder.UserIdExample` | index.js:175-195 | template `{"userId": "$input.params('id')"}` with path parameter `id` = 42 gives exactly the event `{"userId": 42}` |
| `Invoker.Settle` | index.js:225-231 | a truthy `err` rejects with it, otherwise the result resolves; a throw rejects with the thrown value; no callback, and only that, leaves the request pending |
| `Invoker.ExportTruthy` | index.js:219 | a function export skips the lookup, the initial `undefined` forces one, a non-function export skips it iff it is truthy |
| `Invoker.Invoke` | index.js:225 | calling a non-function rejects with a `TypeError`; calling a function settles its completion on the event |
| `Invoker.Respond` | index.js:234-239 | rejection, and only rejection, gives status 500; resolution sends the value |
| `Invoker.CallbackResponse` | index.js:225-239 | a truthy `err` answers 500 whatever the result; a falsy one answers the result |
| `Invoker.HandlerCell.constructor` | index.js:133 | the shared cell starts as `undefined`, never looked up |
| `Invoker.Route.Serve` | index.js:169-239 | an event that cannot be built (a template that does not parse, a source hiding `hasOwnProperty`) rejects and leaves the cell; a truthy cell is reused without lookup; an empty cell is looked up once; a failed lookup rejects and leaves it empty; a successful one is stored and called with the built event; the response follows the outcome |
| `Invoker.SharedHandlerReuse` | index.js:133 | after a lookup through one route, a request on another route of the same function is answered by the stored handler, even when a lookup would fail, and no second lookup happens |
| `Invoker.RetryAfterFailedLookup` | index.js:217-224 | a failed lookup rejects with its error and answers 500; the next request looks up again, stores the handler and is answered by it |
| `Invoker.FunctionRoutes` | index.js:130-167 | a non-`nodejs` function registers nothing; a `nodejs` one registers one route per endpoint with the lower-cased verb and the corrected router path |
| `Invoker.AddRoutes` | index.js:141-167 | one new route per endpoint, in order, each under the given prefix and on the given cell |
| `Invoker.EndpointRoutes` | index.js:141-167 | one route per endpoint, in order: the lower-cased verb, the corrected router path under the prefix, the endpoint |
| `Invoker.RegisteredRoutes` | index.js:141-167 | routes registered under one prefix carry exactly the verbs and paths their endpoints call for |
| `Invoker.AllRoutesOfEndpoints` | index.js:101-167 | the routes of all declarations, function by function, are the routes of all their `nodejs` endpoints |
| `Invoker.EntryOf` | index.js:131-139 | the entry keeps the declaration and its directory, and the file (a `.js` name without `/`) and export parsed from the handler string |
| `Invoker.Registry` | index.js:101-139 | the handler table holds exactly the handler strings of the `nodejs` functions |
| `Invoker.RegistryValue` | index.js:130-139 | each handler string holds the entry of the last `nodejs` declaration naming it |
| `Invoker.Gateway.RegisterFunction` | index.js:130-167 | a `nodejs` function records its handler entry and appends one route per endpoint, in order, under the prefix, all sharing one new cell holding `undefined` that no earlier route uses; others change nothing |
| `Invoker.Gateway.RegisterLambdas` | index.js:97-167 | the table is reset and then equals `Registry`; the appended routes are one per endpoint of every `nodejs` declaration, in order, under the prefix, each on a new cell holding `undefined` and never looked up; two new routes share a cell iff they come from the same declaration |

## Left out

- Express app setup and middleware are not modelled: the port default, CORS headers, the `OPTIONS` short-circuit, body parsing, the `/__quit` route and `listen`. This is HTTP plumbing around the core.
- The Serverless plugin scaffolding is not modelled: action and hook registration, `serve`, the init hook and `S.init()`. This is framework glue.
- Module loading by `require` is foreign I/O. `Route.Serve` receives what the lookup would yield as a parameter (`resolution`), and calling the handler is a parameter (`run`).
- `path.join` of the function directory and file is a library call. The handler entry keeps the directory and the parsed reference side by side.
- JSONPath evaluation is an external library. `InputJson` takes a query function that returns all matches.
- `JSON.parse` of a text template is a library call. `BuildEvent` and `Route.Serve` take a parser that returns the template's fields, or nothing when parsing throws.
- Bluebird promises, the `context()` wrapper and all logging are asynchrony and side output. An outcome is a datatype (`Resolved`, `Rejected`, `Pending`), not a schedule. Two requests racing on an empty cell are not modelled. Each `Serve` call runs to completion.
- `Classify`: dynamic `eval` is replaced by a recogniser of `$input.params()`, `$input.params('name')` (or with double quotes), `$input.json('path')` and `$input.path(...)`. Any other text that contains `$input.` is `Unsupported`, and evaluating it is an error, so its field is skipped. JavaScript would evaluate such text as arbitrary code. Escaped quotes inside a quoted argument are not recognised.
- `InputParams`: only own properties of the parameter, query and header maps are seen. Names such as `constructor`, which JavaScript finds on the prototype, are not modelled.
- `BuildEvent`: template field values are strings. A non-string value (a number, an array) that JavaScript would coerce or evaluate is not modelled.
- `JsValues.Value`: numbers are integers. `NaN` (falsy) and fractions are not modelled.
- `RouteMethod`: lower-casing covers ASCII only. Locale-specific case mapping is not modelled. A verb that the router has no method for is not modelled either.
- `constructor` (`Invoker.Route.constructor`): the registered path uses the corrected trailing-slash loop, not the one in `index.js`. By `MatchablePathAgreement` the two differ only when the prefixed path is longer than `/` and ends in `/`; `index.js` then registers `/`.
- `EndpointRoutes`: the paths use the corrected trailing-slash loop, with the same difference as for the constructor.
- `FunctionRoutes`: the paths use the corrected trailing-slash loop, with the same difference as for the constructor.
- `FallbackEvent`: a `__proto__` key in the body, the params or the query is an ordinary key here. In JavaScript `event['__proto__'] = v` replaces the event's prototype and creates no field.
- `ExplicitEvent`: a template field named `__proto__` is an ordinary key here, with the same difference as for `FallbackEvent`.
- `OwnFields`: the key order of `for ... in` is not modelled. Keys are distinct, so the merged event does not depend on it.

## Findings

| source | as written | input that shows it | evidently intended | confidence | as-written member | corrected member |
|---|---|---|---|---|---|---|
| index.js:149-152 | the trailing-slash loop keeps only the last character of the path (`substr(length - 1)`), so any path longer than one character that ends in `/` becomes `"/"` | prefix `api/` and endpoint path `users/` (or `/`) give `/api/users/`, which is registered at `/` | remove the trailing slashes one by one, giving `/api/users` (the comment speaks of dropping a doubled trailing slash) | high; not executed | `RoutePaths.Collapsed`, `RoutePaths.CollapseTrailingSlash`, `RoutePaths.CollapseDiscardsPath` | `RoutePaths.Stripped`, `RoutePaths.StripTrailingSlashes` (used by `RoutePaths.MatchablePath`) |
