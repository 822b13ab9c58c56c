# redux-logic core, modelled in Dafny

redux-logic is a Redux middleware. Application code declares *logic* objects
with `createLogic`. Each one names the action types it reacts to, an optional
first phase (`validate` or its alias `transform`) and an optional `process`
phase. `createLogicMiddleware([logicA, logicB, ...])` builds the middleware.
Every action sent to the store goes through the logic in registration order.
A unit that does not match the action's type passes it on unchanged. A unit
that matches lets its hook decide:

- `allow(action)` hands the action on; after that, the unit's process phase runs.
- `reject(action)` hands the action on, but the process phase does not run.
- `allow()` with no argument forwards nothing, but the process phase still runs
  on the action the unit received.
- `reject()` with no argument, or no answer at all, drops the action.

An action that comes out of the last unit goes to `next`. An action whose type
the hook changed, or that was allowed or rejected with `useDispatch: true`, goes
to the store's `dispatch` instead. `useDispatch: false` keeps it in the pipeline.
Process phases add their own `dispatch` calls.

The model has these modules:

- `JsValues`: JavaScript values as the core sees them. This covers truthiness,
  own properties with last-write-wins lookup, and unknown-key detection.
- `Actions`: actions and hook verdicts.
- `TypeMatcher`: how a `type` matches an action type. The forms are a string,
  `'*'`, a pattern used through its test function, and an array of any of these.
- `Logic`: `createLogic`. Given a definition it either reports the first rule
  broken or builds the frozen unit, with function-valued `name`/`type` turned
  into their display strings.
- `Middleware`: `createLogicMiddleware` (its argument check) and a class
  `LogicMiddleware`. The class is the installed middleware: `Handle` is one call
  `mw(store)(next)(action)`, and two log fields record the calls to `next` and
  to `dispatch`. `Handle` is a loop over the units, proved against the
  recursive specification `Run`.
- `Scenarios`: ten of the repository's test cases replayed on the model (the
  `Scenarios` rows below); the others follow from the general lemmas in `Logic`
  and `Middleware`.

An unknown top-level key is reported first, even when `type` is missing too
(test/createLogic.spec.js:97-103); the remaining rules are then checked in the
order type, latest/debounce/throttle, validate with transform, processOptions.

## Model

| member | source | states |
|---|---|---|
| Logic.Describe | test/createLogic.spec.js:6-116 | each error's message contains the text the tests look for ("type … required", "cannot use both", "cannot define both", "unknown or misspelled option", "unknown or misspelled processOption(s)"); the unknown-key messages name every offending key |
| Logic.ToStrFns | test/createLogic.spec.js:61-95 | the coerced value holds no function; arrays keep their length; a value without functions is returned unchanged |
| Logic.FunctionArrayToStrings | test/createLogic.spec.js:84-95 | an array of functions becomes the array of their display strings, element by element and in order |
| Logic.AcceptsExactlyWellFormed | test/createLogic.spec.js:4-116 | `createLogic` succeeds if and only if the definition is well formed (only known keys, a truthy type, at most one concurrency option, not both hooks, only known processOptions); a well-formed definition yields the normalised unit |
| Logic.TypeIsRequired | test/createLogic.spec.js:5-19 | no argument, `{}`, or any definition of known keys without a truthy type fails with TypeRequired, whose message mentions "type" before "required" |
| Logic.UnknownOptionReportedFirst | test/createLogic.spec.js:97-103 | any unknown top-level key makes `createLogic` fail with UnknownOption before any other rule is checked; the key is listed and named in the message |
| Logic.ConcurrencyOptionsExclusive | test/createLogic.spec.js:21-43 | two concurrency options on an otherwise valid head fail with CannotUseBoth, naming the first two given in the order latest, debounce, throttle; the message says "cannot use both" |
| Logic.HooksExclusive | test/createLogic.spec.js:45-59 | validate and transform together fail with CannotDefineBoth once the earlier rules hold; the message says "cannot define both" |
| Logic.UnknownProcessOptionReported | test/createLogic.spec.js:105-116 | an unknown processOptions key fails with UnknownProcessOption when all other rules hold; the message names the key |
| Logic.NameFromFunction | test/createLogic.spec.js:61-71 | a function-valued `name` becomes its display string |
| Logic.TypeFromFunction | test/createLogic.spec.js:73-82 | a function-valued `type` becomes its display string |
| Logic.TypeFromFunctionArray | test/createLogic.spec.js:84-95 | an array of functions as `type` becomes the array of display strings, same length, same order |
| Logic.AcceptedUnitShape | test/createLogic.spec.js:21-59 | an accepted unit has a truthy, function-free type; the concurrency mode of the one option given (parallel when none), carrying that option's value; the validate hook when validate is a function, otherwise the transform hook when transform is a function, otherwise none; and the process function when process is a function, otherwise none |
| JsValues.Lookup | test/createLogic.spec.js:61-95 | a property read finds a value exactly when the key is present, and that value is the one written last for the key |
| JsValues.LookupLast | test/createLogic.spec.js:61-95 | the entry written last with a key is the value read for it |
| JsValues.UnknownKeys | test/createLogic.spec.js:97-116 | the keys reported are exactly the present keys outside the allowed set |
| JsValues.NoUnknownKeys | test/createLogic.spec.js:97-116 | nothing is reported if and only if every key is allowed |
| TypeMatcher.WildcardMatchesAll | test/createLogicMiddleware.spec.js:262-313 | `'*'` matches every action type |
| TypeMatcher.StringMatchesExactly | test/createLogicMiddleware.spec.js:36-79 | a string type other than `'*'` matches exactly that action type |
| TypeMatcher.StrArrayMatches | test/createLogicMiddleware.spec.js:81-124 | an array of strings matches a type if and only if the type is listed or `'*'` is listed |
| Middleware.DescribeConfigError | test/createLogicMiddleware.spec.js:28-34 | the construction error's message says "called with an array" |
| Middleware.LogicList | test/createLogicMiddleware.spec.js:5-34 | construction fails if and only if the argument is present and not an array; no argument means no logic |
| Middleware.LogicMiddleware.constructor | test/createLogicMiddleware.spec.js:5-26 | a new middleware holds the given units and has made no `next` or `dispatch` call |
| Middleware.LogicMiddleware.Handle | test/createLogicMiddleware.spec.js:18-26 | one call appends the surviving action (if any) to the `next` log and the actions of `Run` to the `dispatch` log, and returns the original action exactly when `next` was called |
| Middleware.RunConcat | test/createLogicMiddleware.spec.js:852-887 | running two lists of units in sequence is running their concatenation |
| Middleware.NoMatchPassesThrough | test/createLogicMiddleware.spec.js:36-79 | an action no unit matches reaches `next` unchanged and nothing is dispatched |
| Middleware.UnmatchedPrefixIgnored | test/createLogicMiddleware.spec.js:36-124 | units before the first matching one take no part in the result |
| Middleware.AllowSameType | test/createLogicMiddleware.spec.js:444-490 | an allowed action with unchanged type and no `useDispatch: true` continues down the pipeline, and the unit's process actions are dispatched |
| Middleware.AllowRedispatched | test/createLogicMiddleware.spec.js:586-678 | an action allowed with `useDispatch: true`, or with a changed type and no option, is dispatched first, followed by the process actions, and nothing reaches `next` |
| Middleware.AllowKeptWithoutDispatch | test/createLogicMiddleware.spec.js:680-725 | `useDispatch: false` keeps the allowed action in the pipeline even with a changed type, and the process actions are dispatched |
| Middleware.RejectSkipsProcess | test/createLogicMiddleware.spec.js:727-823 | a rejected action goes to `next` if its type is unchanged and to `dispatch` if it changed; the process phase never runs |
| Middleware.EmptyAllowProcessesReceived | test/createLogicMiddleware.spec.js:382-409 | `allow()` with no argument calls no `next` and stops the chain; the unit's process phase runs on the action the unit received |
| Middleware.NoArgumentDeliversNothing | test/createLogicMiddleware.spec.js:411-442 | `reject()` with no argument, or no answer, calls neither `next` nor `dispatch` in this model |
| Middleware.TransformChain | test/createLogicMiddleware.spec.js:852-887 | matching transforms that each append a marker run in registration order: the result carries every marker in order, keeps its type and other properties, and nothing is dispatched |
| Scenarios.WorksAsMiddleware | test/createLogicMiddleware.spec.js:18-26 | with no logic, `next` is called once with the action and the action is returned |
| Scenarios.StringTypeMatchesOnly | test/createLogicMiddleware.spec.js:36-79 | `CAT` passes untouched, `FOO` is augmented and reaches `next`, and only `FOO` is processed into one `BAR` dispatch |
| Scenarios.ArrayTypeMatchesAny | test/createLogicMiddleware.spec.js:81-124 | with `type: ['DOG', 'FOO']` the same logs result |
| Scenarios.WildcardMatchesEveryType | test/createLogicMiddleware.spec.js:262-313 | with `type: '*'` both actions are augmented and both are processed, in order |
| Scenarios.AllowChangedType | test/createLogicMiddleware.spec.js:586-631 | an allow that changes the type to `CAT` calls no `next` and dispatches the allowed action and then `DOG` |
| Scenarios.RejectChangedType | test/createLogicMiddleware.spec.js:775-823 | a reject that changes the type to `BAR` calls no `next` and dispatches only the rejected action |
| Scenarios.TransformsChained | test/createLogicMiddleware.spec.js:889-925 | transforms on `FOO` and on `['BAR', 'FOO']` both run, and `next` gets `trans: ['a', 'b']` with nothing dispatched |
| Scenarios.TwoTransformsRun | test/createLogicMiddleware.spec.js:852-925 | two marking transforms that match `FOO` yield the action with both markers in registration order |
| Scenarios.MisspelledOptionBeforeType | test/createLogic.spec.js:97-103 | `createLogic({ foo: true })` fails with UnknownOption(["foo"]) although it has no type |
| Scenarios.LatestWithDebounce | test/createLogic.spec.js:21-31 | `latest: true` with a non-zero `debounce`, under any truthy string type, fails with CannotUseBoth("latest", "debounce") |
| Scenarios.TypeFromTwoFunctions | test/createLogic.spec.js:84-95 | `type: [fn, fn2]` becomes `['myType', 'myType2']` |
| Scenarios.FunctionArrayDefinitionAccepted | test/createLogic.spec.js:84-95 | a definition holding only an array of functions as `type` is accepted, and each function is read as its display string |

## Left out

- `addLogic` and `replaceLogic` (the middleware's methods for changing logic at run time): the test source only checks that they exist.
- The concurrency runtime (the timing of `latest`, `debounce` and `throttle`, `cancelType`, `cancelled$`) is left out. A unit records only which mode it was given and with which value.
- Asynchrony is left out: process phases are modelled as functions from the action to the list of actions they dispatch, delivered synchronously in unit order.
- Regular expressions are modelled by their test function; there is no regex engine.
- The `processOptions` of a unit are kept as given. A non-object `processOptions` is read as having no keys.
- JavaScript's `toString` on functions is modelled as a display string stored with the function value.
- Numbers are modelled as integers. Fractional values such as `debounce: 0.5`, and `NaN`, cannot be written, so their truthiness is not modelled.
- Definitions are entry sequences, and a key may appear in one more than once; reading takes the last entry, but `UnknownKeys` lists a repeated unknown key once per entry, where `Object.keys` would list it once.
- A `validate`, `transform` or `process` property that holds a truthy value other than a function is treated as absent: no hook, no process phase. Such a definition still counts as defining that property for the validate/transform rule.
- Middleware.Stage: a rejected action that stays in the pipeline (same type, or `useDispatch: false`) is handed to the following units, which may match and process it like any other action. The model does not keep a rejected, retyped action from being matched again further down the chain.
- Middleware.NoArgumentDeliversNothing: `reject()` with no argument, and a hook that never answers, are modelled as delivering nothing and dispatching nothing. The tests show only that `next` is not called.
