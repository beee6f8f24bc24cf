/** The reducer that folds lifecycle events into the normalised state. */
module Reducers {
  import opened Wrappers
  import opened Types
  import opened Actions

  /** `after` is `before` with slot `[key][tag]` set to `slot` and nothing else changed: every
      other action-set key, and every other tag under `key`, is as it was. */
  ghost predicate Overwrites(before: ResponsesReducerState, after: ResponsesReducerState, key: string, tag: string, slot: ResponseState) {
    && key in after && tag in after[key] && after[key][tag] == slot
    && (forall k :: k != key ==> (k in after <==> k in before))
    && (forall k :: k != key && k in before ==> after[k] == before[k])
    && (forall t :: t != tag ==> (t in after[key] <==> key in before && t in before[key]))
    && (forall t :: t != tag && key in before && t in before[key] ==> after[key][t] == before[key][t])
  }

  /** `{...state, [key]: {...existing, [tag]: slot}}`, where `existing` is `state[key] || {}`. */
  function WriteSlot(state: ResponsesReducerState, key: string, tag: string, slot: ResponseState): (r: ResponsesReducerState)
    ensures Overwrites(state, r, key, tag, slot)
  {
    var existing := if key in state then state[key] else map[];
    state[key := existing[tag := slot]]
  }

  /** The slot a lifecycle action writes: a "set" payload under `REQUEST_STATE` records its
      state and data; every other lifecycle payload (and a reset) records `{null, null}`. */
  function WrittenSlot(action: Action): ResponseState
    requires action.payload.IsLifecycle()
  {
    if action.actionType == RequestStateType && action.payload.SetPayload? then
      ResponseState(Some(action.payload.setBody.requestState), action.payload.setBody.data)
    else NullSlot
  }

  /** One reducer step. An undefined state is the empty map. Actions of any other type, and
      lifecycle-typed actions that `isFSA` rejects, leave the state unchanged. A conforming
      lifecycle action overwrites exactly slot `[actionSet.REQUEST][tag || '']`; one without a
      lifecycle payload makes the destructuring throw. */
  function ResponsesReducer(isFSA: Action -> bool, state: Option<ResponsesReducerState>, action: Action): (r: Result<ResponsesReducerState>)
    ensures !IsLifecycleType(action.actionType) ==> r == Ok(state.GetOr(map[]))
    ensures IsLifecycleType(action.actionType) && !isFSA(action) ==> r == Ok(state.GetOr(map[]))
    ensures r.Throws? <==> IsLifecycleType(action.actionType) && isFSA(action) && !action.payload.IsLifecycle()
    ensures IsLifecycleType(action.actionType) && isFSA(action) && action.payload.IsLifecycle() ==>
      r.Ok? && Overwrites(state.GetOr(map[]), r.value, action.payload.ActionSet().request, TagKey(action.payload.Tag()), WrittenSlot(action))
  {
    var s := state.GetOr(map[]);
    if IsLifecycleType(action.actionType) then
      if isFSA(action) then
        if action.payload.IsLifecycle() then
          Ok(WriteSlot(s, action.payload.ActionSet().request, TagKey(action.payload.Tag()), WrittenSlot(action)))
        else Throws(TypeError)
      else Ok(s)
    else Ok(s)
  }

  /** Overwrites determines the new state completely. */
  lemma OverwritesUnique(before: ResponsesReducerState, a: ResponsesReducerState, b: ResponsesReducerState, key: string, tag: string, slot: ResponseState)
    requires Overwrites(before, a, key, tag, slot) && Overwrites(before, b, key, tag, slot)
    ensures a == b
  {
    assert a[key] == b[key];
    assert a.Keys == b.Keys;
  }

  /** Every reducer step is idempotent: reducing the same action again changes nothing. */
  lemma ReducerIdempotent(isFSA: Action -> bool, state: Option<ResponsesReducerState>, action: Action)
    requires ResponsesReducer(isFSA, state, action).Ok?
    ensures var once := ResponsesReducer(isFSA, state, action).value;
      ResponsesReducer(isFSA, Some(once), action) == Ok(once)
  {
    var once := ResponsesReducer(isFSA, state, action).value;
    if IsLifecycleType(action.actionType) && isFSA(action) {
      var key, tag := action.payload.ActionSet().request, TagKey(action.payload.Tag());
      var twice := ResponsesReducer(isFSA, Some(once), action).value;
      assert Overwrites(once, once, key, tag, WrittenSlot(action));
      OverwritesUnique(once, once, twice, key, tag, WrittenSlot(action));
    }
  }

  /** Two resets of the same slot give the same state as one. */
  lemma ResetIsIdempotent(isFSA: Action -> bool, state: Option<ResponsesReducerState>, actionSet: AsyncActionSet, tag: Option<string>)
    ensures var once := ResponsesReducer(isFSA, state, ResetRequestState(actionSet, tag));
      once.Ok? && ResponsesReducer(isFSA, Some(once.value), ResetRequestState(actionSet, tag)) == once
  {
    ReducerIdempotent(isFSA, state, ResetRequestState(actionSet, tag));
  }
}
