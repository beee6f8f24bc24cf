# redux-requests: the request-lifecycle state machine in Dafny

This project models the core of `redux-requests`, which records the lifecycle of HTTP requests in a Redux store. The core has three parts:

- **Event builders and the request driver** (`actions.dfy`). `SetRequestState` and `ResetRequestState` build the two control events. `RequestFromFunction` is the thunk body. It dispatches the raw `REQUEST` event and the pending lifecycle event. It then dispatches the raw outcome event and its lifecycle event, and settles. The transport's outcome and `shouldRethrow` are inputs. Dispatching appends to the `events` field of an `EventLog` object.
- **The reducer** (`reducers.dfy`). `ResponsesReducer` folds lifecycle events into a two-level map: action set's `REQUEST` identifier → tag → `{requestState, data}`.
- **Read-side helpers** (`utils.dfy`). These are the action-set factory, the query-string serialiser with its `for…in` entry loop, the slot lookup, the three state predicates, `anyPending`, and the error-shape extractor.

`types.dfy` holds the data model. `wrappers.dfy` holds `Option` and a `Result` for expressions that throw a JavaScript `TypeError`. `lifecycle.dfy` models the store: it folds every dispatched action through the reducer. It also proves what a driven request leaves in the state. `examples.dfy` restates the concrete expectations of `tests/index.ts`.

Modelling choices:
- JavaScript values are a `Json` datatype. Numbers are integers. An object's `fields` are all keys the `in` operator sees.
- `undefined` and `null` are both `Null` or `None`, because every query treats them alike. So the `{}` that the lookup returns for an absent slot is read as `{null, null}`. This is also the slot a reset writes.
- `isFSA` from `flux-standard-action` is an uninterpreted parameter `isFSA: Action -> bool`. Every event the library builds carries only `type`, `payload`, `meta` and `error`. So the lemmas about the driver assume `isFSA` holds of its two lifecycle events.
- "Returns the same state" is value equality (`Ok(s)`), not reference identity.
- An object's properties are a sequence of `Property(key, value, own)`, in the order `for…in` visits them. `AsEntries` keeps the own ones, as `hasOwnProperty` does. Query-parameter values are `Option<string>`; `None` means `null`/`undefined`.
- The transport is a parameter, `apiRequest: AxiosRequestConfig -> Outcome`. The promise machinery is left out: the builder's settled outcome is an input, and the driver's settlement is the result.

Behaviour of the code that the model reproduces:
- **`getErrorData` can throw.** It applies `'config' in data` to any truthy stored value (src/ts/utils.ts:143). That throws a `TypeError` on `true`, a non-zero number or a non-empty string. `GetErrorData` returns `Throws(TypeError)` in exactly those cases.
- **The reducer can throw on a conforming lifecycle action.** A null or undefined payload fails at the destructuring (src/ts/reducers.ts:18-23, 39). A null or undefined `actionSet` fails at `actionSet.REQUEST` (src/ts/reducers.ts:24, 40). `ResponsesReducer` returns `Throws(TypeError)` for every conforming lifecycle action whose payload is not one of the two lifecycle payloads; see `Reducers.ResponsesReducer` under "## Left out" for the payloads on which the code writes a slot instead.
- **Mismatched payloads are not rejected.** A `REQUEST_STATE` action carrying a reset payload writes `{undefined, undefined}`, read here as `{null, null}`. A `RESET_REQUEST_STATE` action carrying a set payload resets the slot.

`formatQueryParams` does not escape keys or values. So its inverse `ParseQueryString` recovers the entries only when keys contain no `&` or `=` and values contain no `&`. `UnescapedValuesCollide` shows two different objects that serialise alike.

## Model

| member | source | states |
|---|---|---|
| `Utils.OwnEntriesMembers` | src/ts/utils.ts:11-19 | a pair is among the entries exactly when some own property visited by `for…in` has that key and value |
| `Utils.AsEntries` | src/ts/utils.ts:11-19 | the loop collects exactly the own entries, in visiting order |
| `Utils.MakeAsyncActionSet` | src/ts/utils.ts:21-27 | the three identifiers of an action set are pairwise distinct |
| `Utils.MakeAsyncActionSetInjective` | src/ts/utils.ts:21-27 | different action names give different action sets |
| `Utils.PresentEmpty` | src/ts/utils.ts:34-41 | no pair survives the null/undefined filter exactly when every own value is null or undefined |
| `Utils.FormatQueryParams` | src/ts/utils.ts:29-46 | the result is `''` exactly when params are absent or every own value is null or undefined; otherwise it starts with `?` |
| `Utils.FormatQueryParamsRoundTrip` | src/ts/utils.ts:29-46 | parsing the query string gives back the own non-null entries in order, when those entries have keys without `&`/`=` and values without `&` (other properties are unconstrained) |
| `Utils.UnescapedValuesCollide` | src/ts/utils.ts:39-45 | without escaping, `{a: 'x&b=y'}` and `{a: 'x', b: 'y'}` give the same string |
| `Utils.GetResponseState` | src/ts/utils.ts:87-93 | a present slot is returned as stored; a missing action-set key or tag yields the empty slot |
| `Utils.IsPending` | src/ts/utils.ts:94-100 | true exactly when the slot for the tag (an absent tag is `''`) is stored with `requestState` REQUEST; false for a missing key or tag |
| `Utils.HasFailed` | src/ts/utils.ts:102-108 | true exactly when the slot for the tag (an absent tag is `''`) is stored with `requestState` FAILURE; false for a missing key or tag |
| `Utils.HasSucceeded` | src/ts/utils.ts:110-116 | true exactly when the slot for the tag (an absent tag is `''`) is stored with `requestState` SUCCESS; false for a missing key or tag |
| `Utils.QueriesPartitionSlot` | src/ts/utils.ts:94-116 | at most one of `isPending`, `hasFailed`, `hasSucceeded` holds, and one holds exactly when the slot has a state |
| `Utils.UndefinedTagIsEmptyTag` | src/ts/utils.ts:92 | tag undefined and tag `''` read the same slot |
| `Utils.QueriesOnMissingSlot` | src/ts/utils.ts:87-148 | a missing key or tag makes all three predicates false and the error data null |
| `Utils.AnyPending` | src/ts/utils.ts:118-130 | true exactly when some listed entry is pending (a bare action set queries the `''` slot); false for the empty list |
| `Utils.IsAxiosError` | src/ts/utils.ts:132-134 | true exactly for objects with `config`, `name` and `message`; throws on values other than objects and arrays |
| `Utils.GetErrorData` | src/ts/utils.ts:136-148 | non-null exactly when the slot failed and its data has the error shape, and then the data unchanged; throws exactly for a failed slot holding a truthy primitive |
| `Actions.SetRequestState` | src/ts/actions.ts:20-36 | a `REQUEST_STATE` event whose set payload carries the given action set, data and state; its tag is the explicit one, or `''` when absent |
| `Actions.ResetRequestState` | src/ts/actions.ts:38-47 | a `RESET_REQUEST_STATE` event whose reset payload (no data, no state) carries the given action set; its tag is the explicit one, or `''` when absent |
| `Actions.Meta` | src/ts/actions.ts:57 | `tag` is the explicit tag, or `''` when it is absent or empty, whatever `metaData` said; every other key of `metaData` is kept with its value, and no key is added |
| `Actions.Settle` | src/ts/actions.ts:62-86 | rejects exactly when the outcome is an error and `shouldRethrow` is supplied and true, with exactly that error; a response resolves with it; otherwise resolves with no value |
| `Actions.LifecycleEvents` | src/ts/actions.ts:59-79 | four events in order: raw REQUEST with `meta` and no `error` key, pending lifecycle event, raw SUCCESS (or FAILURE with `error: true`) with the payload and `meta`, and the outcome's lifecycle event |
| `Actions.EventLog.Dispatch` | src/ts/actions.ts:56 | `dispatch` appends the action to the log |
| `Actions.RequestFromFunction` | src/ts/actions.ts:49-88 | the log gains exactly the four lifecycle events, in order, and the driver settles as `Settle` says |
| `Actions.RequestWithConfig` | src/ts/actions.ts:90-96 | the driver run on the transport's outcome for the given configuration |
| `Actions.Request` | src/ts/actions.ts:98-107 | the driver run on the configuration `{url, method, data, headers}` |
| `Reducers.WriteSlot` | src/ts/reducers.ts:24-33 | the spread update sets slot `[key][tag]` and changes no other top-level key and no other tag |
| `Reducers.ResponsesReducer` | src/ts/reducers.ts:11-57 | undefined state is `{}`; other action types and non-FSA lifecycle actions leave the state unchanged; a conforming lifecycle action overwrites only slot `[actionSet.REQUEST][tag]` (an absent tag is `''`), from any prior state; it throws exactly when such an action has no lifecycle payload |
| `Reducers.ReducerIdempotent` | src/ts/reducers.ts:11-57 | reducing the same action twice gives the same state as once |
| `Reducers.ResetIsIdempotent` | src/ts/reducers.ts:37-50 | two resets of the same slot give the same state as one, from any state and whether or not the event conforms |
| `Lifecycle.ReduceAllAppend` | src/ts/reducers.ts:11-14 | the store model applies `responsesReducer` to each dispatched action in turn, from any given state (the store's first `{}` is `map[]`); folding a concatenation of action lists is folding one list and then the other |
| `Lifecycle.MakeAsyncActionSetAvoidsLifecycleTypes` | src/ts/utils.ts:21-27 | no generated identifier equals `REQUEST_STATE` or `RESET_REQUEST_STATE` |
| `Lifecycle.SetRequestStateRecorded` | src/ts/reducers.ts:16-34 | a set event makes its slot `{requestState, data}` from any state, and nothing else changes |
| `Lifecycle.ResetRequestStateRecorded` | src/ts/reducers.ts:37-50 | a reset event writes its slot as `{null, null}` (present, not deleted), even from the empty state, and nothing else changes |
| `Lifecycle.AbsentSlotReadsAsReset` | src/ts/utils.ts:87-148 | every query answers the same for an absent slot and for the slot after a reset |
| `Lifecycle.PendingOnlyForItsTag` | src/ts/reducers.ts:16-34 | from the empty state, a pending event makes its own tag pending and no other tag |
| `Lifecycle.DriverPendingFirst` | src/ts/actions.ts:59-60 | the two events before the builder runs already leave the slot `{REQUEST, null}` |
| `Lifecycle.DriverRecordsOutcome` | src/ts/actions.ts:59-79 | folding all driver events leaves slot `[REQUEST][tag]` (an absent tag is `''`) as `{SUCCESS, response}` or `{FAILURE, error}`, and every other slot unchanged |
| `Lifecycle.DriverOutcomeQueries` | src/ts/actions.ts:62-86 | after a driven request its slot is not pending, has succeeded or failed per the outcome, yields the error data for an error of the transport-error shape, and every other slot reads as before |
| `Examples.HelloActionSet` | tests/index.ts:391-398 | `makeAsyncActionSet('HELLO')` |
| `Examples.QueryStrings` | tests/index.ts:401-427 | the four query-string expectations, including the inherited-property case |
| `Examples.DefaultAndUnchangedState` | tests/index.ts:310-323 | default state `{}` and unchanged state for a foreign action |
| `Examples.NonConformingDiscarded` | tests/index.ts:372-385 | non-FSA lifecycle actions are discarded |
| `Examples.SetAndResetSlot` | tests/index.ts:325-370 | set slots for tags `'tag'` and `''`, and the reset slot both from the already-set state and from the undefined state |
| `Examples.SlotPredicates` | tests/index.ts:430-475 | the three predicates for matching and non-matching tags |
| `Examples.AnyPendingCases` | tests/index.ts:477-532 | the four `anyPending` expectations |
| `Examples.ErrorDataCases` | tests/index.ts:535-607 | `getErrorData` on a pending slot, a failed error slot and a failed non-error slot |
| `Examples.EventBuilders` | tests/index.ts:85-127 | `setRequestState` and `resetRequestState` with tag `'tag'` and with no tag |
| `Examples.DriverDispatches` | tests/index.ts:164-263 | the dispatched raw REQUEST, SUCCESS and FAILURE events, the `setRequestState(…, 'SUCCESS' / 'FAILURE', payload, undefined)` events, and the rethrow gating |

## Left out

- `apiRequest`: header composition, the CSRF cookie, URL normalisation and the axios call are foreign libraries and network I/O. The transport is the parameter `apiRequest`.
- Promises and asynchrony: the builder's settled outcome is an input. The model does not represent suspension, or a builder that never settles. `RequestFromFunction` appends its four events back to back. In the program, other dispatches (a second request on the same slot, say) can come between the pending pair and the settled pair while the builder runs (src/ts/actions.ts:62). `Lifecycle.DriverRecordsOutcome` covers only the back-to-back fold. `Lifecycle.ReduceAllAppend` lets interleaved folds be split at any point.
- `isFSA`'s internals: it is an uninterpreted parameter.
- Reference identity: "the same state" is value equality.
- `` `${value}` `` coercion: query-parameter values are strings or absent.
- Prototype details: properties are a sequence with an `own` flag. Prototype keys in the reducer's state (such as `constructor`) are not modelled.
- NaN and non-integer numbers are not modelled in `Json`.
- `Reducers.ResponsesReducer`: a conforming lifecycle action whose payload is neither lifecycle payload is always modelled as throwing. In JavaScript only a null/undefined payload (src/ts/reducers.ts:18-23, 39) or a null/undefined `actionSet` (src/ts/reducers.ts:24, 40) throws. Every other payload, such as `{actionSet: 'x'}` or `{actionSet: {REQUEST: 'X'}}`, writes slot `[String(actionSet.REQUEST)][tag || '']`. The model does not reproduce those writes, because it has no string conversion of arbitrary values.
- `Actions.RequestFromFunction`: `dispatch` never throws in the model; it only appends to the log. In the program `dispatch` runs the reducer. For an action set whose identifiers collide with `REQUEST_STATE` or `RESET_REQUEST_STATE`, a raw event then reaches the reducer as a conforming lifecycle action without a lifecycle payload. A throw before the builder runs (src/ts/actions.ts:59) aborts the thunk synchronously. A throw inside the `.then`/`.catch` handlers (src/ts/actions.ts:62-86) rejects the returned promise with a `TypeError`, where `Settle` says it resolves. The lifecycle lemmas exclude such action sets with `AvoidsLifecycleTypes`, which every `makeAsyncActionSet` result meets.
- `ExtendedRequestParams.axiosConfig`: `request` never reads it.
- `src/ts/index.ts` re-exports only, and is not part of this model. It names `dispatchGenericRequest`, which `actions.ts` does not define.
- `tests/helpers/clear-children.ts` manipulates the DOM and is not part of this model.
