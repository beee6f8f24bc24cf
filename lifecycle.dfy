/** The lifecycle as a whole: the store folding dispatched actions through the reducer, and
    what a request driven by the driver leaves in the state. */
module Lifecycle {
  import opened Wrappers
  import opened Types
  import opened Utils
  import opened Actions
  import opened Reducers

  /** The state container: `reduce` applied to every dispatched action in order; an action on
      which the reducer throws ends the fold with that error. */
  function ReduceAll(isFSA: Action -> bool, state: ResponsesReducerState, actions: seq<Action>): Result<ResponsesReducerState>
    decreases |actions|
  {
    if actions == [] then Ok(state)
    else
      match ResponsesReducer(isFSA, Some(state), actions[0])
      case Throws(e) => Throws(e)
      case Ok(next) => ReduceAll(isFSA, next, actions[1..])
  }

  /** Folding a concatenation folds the first part, then the second from where it left off. */
  lemma {:induction false} ReduceAllAppend(isFSA: Action -> bool, state: ResponsesReducerState, a: seq<Action>, b: seq<Action>)
    ensures ReduceAll(isFSA, state, a + b)
         == match ReduceAll(isFSA, state, a)
            case Ok(middle) => ReduceAll(isFSA, middle, b)
            case Throws(e) => Throws(e)
    decreases |a|
  {
    if a == [] {
      assert a + b == b;
    } else {
      assert (a + b)[0] == a[0];
      assert (a + b)[1..] == a[1..] + b;
      match ResponsesReducer(isFSA, Some(state), a[0])
      case Throws(e) =>
      case Ok(next) => ReduceAllAppend(isFSA, next, a[1..], b);
    }
  }

  /** None of an action set's three identifiers is a lifecycle action type, so the reducer
      ignores the raw events the driver dispatches. */
  predicate AvoidsLifecycleTypes(actionSet: AsyncActionSet) {
    !IsLifecycleType(actionSet.request) && !IsLifecycleType(actionSet.success) && !IsLifecycleType(actionSet.failure)
  }

  /** Every action set made from a name avoids the lifecycle action types. */
  lemma MakeAsyncActionSetAvoidsLifecycleTypes(actionName: string)
    ensures AvoidsLifecycleTypes(MakeAsyncActionSet(actionName))
  {
    var r := MakeAsyncActionSet(actionName);
    var n := |actionName|;
    assert r.request[n + 7] == 'T' && RequestStateType[12] == 'E' && ResetRequestStateType[18] == 'E';
    assert r.success[n + 7] == 'S';
    assert r.failure[n] == '_' && RequestStateType[5] == 'S' && ResetRequestStateType[11] == 'S';
  }

  /** Folding two actions is two reducer steps. */
  lemma ReduceTwo(isFSA: Action -> bool, state: ResponsesReducerState, first: Action, second: Action)
    ensures ReduceAll(isFSA, state, [first, second])
         == match ResponsesReducer(isFSA, Some(state), first)
            case Ok(middle) => ResponsesReducer(isFSA, Some(middle), second)
            case Throws(e) => Throws(e)
  {
    assert [first, second][1..] == [second];
    assert [second][1..] == [];
    match ResponsesReducer(isFSA, Some(state), first)
    case Throws(e) =>
    case Ok(middle) =>
      assert ReduceAll(isFSA, state, [first, second]) == ReduceAll(isFSA, middle, [second]);
      match ResponsesReducer(isFSA, Some(middle), second)
      case Throws(e) =>
      case Ok(last) => assert ReduceAll(isFSA, middle, [second]) == ReduceAll(isFSA, last, []);
  }

  /** Two overwrites of the same slot amount to the second one. */
  lemma OverwritesCompose(s0: ResponsesReducerState, s1: ResponsesReducerState, s2: ResponsesReducerState, key: string, tag: string, v1: ResponseState, v2: ResponseState)
    requires Overwrites(s0, s1, key, tag, v1) && Overwrites(s1, s2, key, tag, v2)
    ensures Overwrites(s0, s2, key, tag, v2)
  {
  }

  /** The state after the `SetRequestState` event: the slot holds the given state and data,
      from any prior state, and nothing else changes. */
  lemma SetRequestStateRecorded(isFSA: Action -> bool, state: Option<ResponsesReducerState>, actionSet: AsyncActionSet, requestState: RequestStates, data: Json, tag: Option<string>)
    requires isFSA(SetRequestState(actionSet, requestState, data, tag))
    ensures var r := ResponsesReducer(isFSA, state, SetRequestState(actionSet, requestState, data, tag));
      r.Ok? && Overwrites(state.GetOr(map[]), r.value, actionSet.request, TagKey(tag), ResponseState(Some(requestState), data))
  {
  }

  /** The state after the `ResetRequestState` event: the slot is written as `{null, null}`
      (not deleted), even from the empty state, and nothing else changes. */
  lemma ResetRequestStateRecorded(isFSA: Action -> bool, state: Option<ResponsesReducerState>, actionSet: AsyncActionSet, tag: Option<string>)
    requires isFSA(ResetRequestState(actionSet, tag))
    ensures var r := ResponsesReducer(isFSA, state, ResetRequestState(actionSet, tag));
      r.Ok? && Overwrites(state.GetOr(map[]), r.value, actionSet.request, TagKey(tag), NullSlot)
      && actionSet.request in r.value && TagKey(tag) in r.value[actionSet.request]
  {
  }

  /** Reading a slot that is absent gives the same answers as reading it after a reset. */
  lemma AbsentSlotReadsAsReset(isFSA: Action -> bool, state: ResponsesReducerState, actionSet: AsyncActionSet, tag: Option<string>)
    requires isFSA(ResetRequestState(actionSet, tag))
    requires actionSet.request !in state || TagKey(tag) !in state[actionSet.request]
    ensures var after := ResponsesReducer(isFSA, Some(state), ResetRequestState(actionSet, tag)).value;
      && GetResponseState(after, actionSet, tag) == GetResponseState(state, actionSet, tag)
      && IsPending(after, actionSet, tag) == IsPending(state, actionSet, tag)
      && HasFailed(after, actionSet, tag) == HasFailed(state, actionSet, tag)
      && HasSucceeded(after, actionSet, tag) == HasSucceeded(state, actionSet, tag)
      && GetErrorData(after, actionSet, tag) == GetErrorData(state, actionSet, tag)
  {
  }

  /** From the empty state, a pending event makes its slot pending and no other tag. */
  lemma PendingOnlyForItsTag(isFSA: Action -> bool, actionSet: AsyncActionSet, tag: Option<string>, other: Option<string>)
    requires isFSA(SetRequestState(actionSet, RequestStates.Request, Null, tag))
    ensures var r := ReduceAll(isFSA, map[], [SetRequestState(actionSet, RequestStates.Request, Null, tag)]);
      r.Ok? && IsPending(r.value, actionSet, tag)
      && (TagKey(other) != TagKey(tag) ==> !IsPending(r.value, actionSet, other))
  {
    var r := ResponsesReducer(isFSA, Some(map[]), SetRequestState(actionSet, RequestStates.Request, Null, tag));
    assert ReduceAll(isFSA, map[], [SetRequestState(actionSet, RequestStates.Request, Null, tag)]) == r;
  }

  /** The lifecycle events of the driver are ones `isFSA` accepts: they carry only `type` and `payload`. */
  predicate ConformingEvents(isFSA: Action -> bool, actionSet: AsyncActionSet, outcome: Outcome, params: RequestParams) {
    && isFSA(SetRequestState(actionSet, RequestStates.Request, Null, Some(TagKey(params.tag))))
    && isFSA(SetRequestState(actionSet, OutcomeState(outcome), OutcomeData(outcome), Some(TagKey(params.tag))))
  }

  /** Before the request builder runs, the driver's events already leave its slot pending. */
  lemma {:induction false} DriverPendingFirst(isFSA: Action -> bool, state: ResponsesReducerState, actionSet: AsyncActionSet, outcome: Outcome, params: RequestParams)
    requires AvoidsLifecycleTypes(actionSet)
    requires ConformingEvents(isFSA, actionSet, outcome, params)
    ensures var r := ReduceAll(isFSA, state, PendingEvents(actionSet, params));
      r.Ok? && Overwrites(state, r.value, actionSet.request, TagKey(params.tag), ResponseState(Some(RequestStates.Request), Null))
      && IsPending(r.value, actionSet, params.tag)
  {
    var events := PendingEvents(actionSet, params);
    ReduceTwo(isFSA, state, events[0], events[1]);
  }

  /** Folding everything the driver dispatches records the outcome in slot
      `[actionSet.REQUEST][tag || '']`, from any prior state, and changes nothing else. */
  lemma {:induction false} DriverRecordsOutcome(isFSA: Action -> bool, state: ResponsesReducerState, actionSet: AsyncActionSet, outcome: Outcome, params: RequestParams)
    requires AvoidsLifecycleTypes(actionSet)
    requires ConformingEvents(isFSA, actionSet, outcome, params)
    ensures var r := ReduceAll(isFSA, state, LifecycleEvents(actionSet, outcome, params));
      r.Ok? && Overwrites(state, r.value, actionSet.request, TagKey(params.tag), ResponseState(Some(OutcomeState(outcome)), OutcomeData(outcome)))
  {
    var key, tag := actionSet.request, TagKey(params.tag);
    DriverPendingFirst(isFSA, state, actionSet, outcome, params);
    var pending := ReduceAll(isFSA, state, PendingEvents(actionSet, params)).value;
    ReduceAllAppend(isFSA, state, PendingEvents(actionSet, params), SettledEvents(actionSet, outcome, params));
    var settled := SettledEvents(actionSet, outcome, params);
    ReduceTwo(isFSA, pending, settled[0], settled[1]);
    var last := ResponsesReducer(isFSA, Some(pending), settled[1]).value;
    OverwritesCompose(state, pending, last, key, tag, ResponseState(Some(RequestStates.Request), Null), ResponseState(Some(OutcomeState(outcome)), OutcomeData(outcome)));
  }

  /** What the queries report once a driven request has settled: success or failure for its
      own slot (with the error data when the error has the transport-error shape), and the
      same answers as before for every other slot. */
  lemma DriverOutcomeQueries(isFSA: Action -> bool, state: ResponsesReducerState, actionSet: AsyncActionSet, outcome: Outcome, params: RequestParams)
    requires AvoidsLifecycleTypes(actionSet)
    requires ConformingEvents(isFSA, actionSet, outcome, params)
    ensures var r := ReduceAll(isFSA, state, LifecycleEvents(actionSet, outcome, params));
      r.Ok? && var after := r.value;
      && !IsPending(after, actionSet, params.tag)
      && HasSucceeded(after, actionSet, params.tag) == outcome.Response?
      && HasFailed(after, actionSet, params.tag) == outcome.Error?
      && (outcome.Error? && HasErrorShape(outcome.error) ==> GetErrorData(after, actionSet, params.tag) == Ok(Some(outcome.error)))
      && (outcome.Response? ==> GetErrorData(after, actionSet, params.tag) == Ok(None))
      && (forall other: AsyncActionSet, t: Option<string> {:trigger GetResponseState(after, other, t)} ::
            other.request != actionSet.request || TagKey(t) != TagKey(params.tag) ==>
              GetResponseState(after, other, t) == GetResponseState(state, other, t))
  {
    DriverRecordsOutcome(isFSA, state, actionSet, outcome, params);
  }
}
