/** The lifecycle event builders and the request driver. */
module Actions {
  import opened Wrappers
  import opened Types

  /** The action type of a "set lifecycle state" event. */
  const RequestStateType: string := "REQUEST_STATE"
  /** The action type of a "reset lifecycle state" event. */
  const ResetRequestStateType: string := "RESET_REQUEST_STATE"

  /** Whether an action type is one of the two the reducer acts on. */
  predicate IsLifecycleType(t: string) {
    t == RequestStateType || t == ResetRequestStateType
  }

  /** The "set" event; an absent tag becomes `''`. */
  function SetRequestState(actionSet: AsyncActionSet, requestState: RequestStates, data: Json, tag: Option<string>): (a: Action)
    ensures a.actionType == RequestStateType && a.meta.None? && a.error.None?
    ensures a.payload.SetPayload? && a.payload.setBody.tag.Some?
    ensures tag.None? ==> a.payload.setBody.tag == Some("")
    ensures tag.Some? ==> a.payload.setBody.tag == tag
    ensures a.payload.setBody == SetRequestStatePayload(actionSet, data, requestState, a.payload.setBody.tag)
  {
    Action(RequestStateType, SetPayload(SetRequestStatePayload(actionSet, data, requestState, Some(tag.GetOr("")))), None, None)
  }

  /** The "reset" event; it carries no data and no request state, and an absent tag becomes `''`. */
  function ResetRequestState(actionSet: AsyncActionSet, tag: Option<string>): (a: Action)
    ensures a.actionType == ResetRequestStateType && a.meta.None? && a.error.None?
    ensures a.payload.ResetPayload? && a.payload.resetBody.tag.Some?
    ensures tag.None? ==> a.payload.resetBody.tag == Some("")
    ensures tag.Some? ==> a.payload.resetBody.tag == tag
    ensures a.payload.resetBody.actionSet == actionSet
  {
    Action(ResetRequestStateType, ResetPayload(ResetRequestStatePayload(actionSet, Some(tag.GetOr("")))), None, None)
  }

  /** The driver's metadata: the caller's `metaData` with `tag` set to `tag || ''`. */
  function Meta(params: RequestParams): (m: RequestMetaData)
    ensures m["tag"] == Str(TagKey(params.tag))
    ensures forall k :: k != "tag" ==> (k in m <==> params.metaData.Some? && k in params.metaData.value)
    ensures forall k :: k != "tag" && params.metaData.Some? && k in params.metaData.value ==> m[k] == params.metaData.value[k]
  {
    params.metaData.GetOr(map[])["tag" := Str(TagKey(params.tag))]
  }

  /** How the request builder settled: with a response or with an error. */
  datatype Outcome = Response(response: Json) | Error(error: Json)

  /** How the driver's own promise settles. */
  datatype Settlement = Resolved(value: Option<Json>) | Rejected(reason: Json)

  /** The lifecycle state an outcome is recorded as. */
  function OutcomeState(outcome: Outcome): RequestStates {
    if outcome.Response? then Success else Failure
  }

  /** The value an outcome is recorded with. */
  function OutcomeData(outcome: Outcome): Json {
    if outcome.Response? then outcome.response else outcome.error
  }

  /** Whether the caller supplied `shouldRethrow` and it returns true for `error`. */
  predicate ShouldRethrow(params: RequestParams, error: Json) {
    params.shouldRethrow.Some? && params.shouldRethrow.value(error)
  }

  /** The driver's settlement: a response resolves with it; an error rejects with exactly that
      error when `shouldRethrow` says so, and otherwise resolves with no value. */
  function Settle(outcome: Outcome, params: RequestParams): (s: Settlement)
    ensures s.Rejected? <==> outcome.Error? && ShouldRethrow(params, outcome.error)
    ensures s.Rejected? ==> s.reason == outcome.error
    ensures s.Resolved? && outcome.Response? ==> s.value == Some(outcome.response)
    ensures s.Resolved? && outcome.Error? ==> s.value.None?
  {
    match outcome
    case Response(response) => Resolved(Some(response))
    case Error(error) => if ShouldRethrow(params, error) then Rejected(error) else Resolved(None)
  }

  /** The two events dispatched before the request builder runs. */
  function PendingEvents(actionSet: AsyncActionSet, params: RequestParams): seq<Action> {
    [ Action(actionSet.request, NoPayload, Some(Meta(params)), None),
      SetRequestState(actionSet, RequestStates.Request, Null, Some(TagKey(params.tag))) ]
  }

  /** The two events dispatched once the request builder has settled. */
  function SettledEvents(actionSet: AsyncActionSet, outcome: Outcome, params: RequestParams): seq<Action> {
    match outcome
    case Response(response) =>
      [ Action(actionSet.success, Value(response), Some(Meta(params)), None),
        SetRequestState(actionSet, Success, response, Some(TagKey(params.tag))) ]
    case Error(error) =>
      [ Action(actionSet.failure, Value(error), Some(Meta(params)), Some(true)),
        SetRequestState(actionSet, Failure, error, Some(TagKey(params.tag))) ]
  }

  /** Everything one request dispatches, in order. */
  function LifecycleEvents(actionSet: AsyncActionSet, outcome: Outcome, params: RequestParams): (events: seq<Action>)
    ensures |events| == 4
    ensures events[0].actionType == actionSet.request && events[0].payload.NoPayload? && events[0].meta == Some(Meta(params))
    ensures events[0].error.None?
    ensures events[1] == SetRequestState(actionSet, RequestStates.Request, Null, Some(TagKey(params.tag)))
    ensures events[2].actionType == (if outcome.Response? then actionSet.success else actionSet.failure)
    ensures events[2].payload == Value(OutcomeData(outcome)) && events[2].meta == Some(Meta(params))
    ensures events[2].error == (if outcome.Error? then Some(true) else None)
    ensures events[3] == SetRequestState(actionSet, OutcomeState(outcome), OutcomeData(outcome), Some(TagKey(params.tag)))
  {
    PendingEvents(actionSet, params) + SettledEvents(actionSet, outcome, params)
  }

  /** The `dispatch` callback a thunk receives: it records every action handed to it. */
  class EventLog {
    var events: seq<Action>

    constructor ()
      ensures events == []
    {
      events := [];
    }

    method Dispatch(a: Action)
      modifies this
      ensures events == old(events) + [a]
    {
      events := events + [a];
    }
  }

  /** Runs one request whose builder settles with `outcome`: dispatches the raw REQUEST event
      and the pending lifecycle event, then the raw outcome event and its lifecycle event. */
  method RequestFromFunction(dispatch: EventLog, actionSet: AsyncActionSet, outcome: Outcome, params: RequestParams)
    returns (settled: Settlement)
    modifies dispatch
    ensures dispatch.events == old(dispatch.events) + LifecycleEvents(actionSet, outcome, params)
    ensures settled == Settle(outcome, params)
  {
    var meta := Meta(params);
    var tag := TagKey(params.tag);
    dispatch.Dispatch(Action(actionSet.request, NoPayload, Some(meta), None));
    dispatch.Dispatch(SetRequestState(actionSet, RequestStates.Request, Null, Some(tag)));
    match outcome {
      case Response(response) =>
        dispatch.Dispatch(Action(actionSet.success, Value(response), Some(meta), None));
        dispatch.Dispatch(SetRequestState(actionSet, Success, response, Some(tag)));
        settled := Resolved(Some(response));
      case Error(error) =>
        dispatch.Dispatch(Action(actionSet.failure, Value(error), Some(meta), Some(true)));
        dispatch.Dispatch(SetRequestState(actionSet, Failure, error, Some(tag)));
        if ShouldRethrow(params, error) {
          settled := Rejected(error);
        } else {
          settled := Resolved(None);
        }
    }
  }

  /** The request configuration handed to the transport. */
  datatype AxiosRequestConfig = AxiosRequestConfig(
    url: Option<string>,
    urlMethod: Option<UrlMethod>,
    data: Option<Json>,
    headers: Option<map<string, string>>)

  /** Runs the driver with a builder that sends `config` through the transport `apiRequest`. */
  method RequestWithConfig(
    dispatch: EventLog, actionSet: AsyncActionSet, config: AxiosRequestConfig,
    apiRequest: AxiosRequestConfig -> Outcome, params: RequestParams)
    returns (settled: Settlement)
    modifies dispatch
    ensures dispatch.events == old(dispatch.events) + LifecycleEvents(actionSet, apiRequest(config), params)
    ensures settled == Settle(apiRequest(config), params)
  {
    settled := RequestFromFunction(dispatch, actionSet, apiRequest(config), params);
  }

  /** Runs the driver on the configuration `{url, method, data, headers}`. */
  method Request(
    dispatch: EventLog, actionSet: AsyncActionSet, url: string, urlMethod: UrlMethod, data: Option<Json>,
    apiRequest: AxiosRequestConfig -> Outcome, params: RequestParams)
    returns (settled: Settlement)
    modifies dispatch
    ensures var config := AxiosRequestConfig(Some(url), Some(urlMethod), data, params.headers);
      dispatch.events == old(dispatch.events) + LifecycleEvents(actionSet, apiRequest(config), params)
      && settled == Settle(apiRequest(config), params)
  {
    settled := RequestWithConfig(dispatch, actionSet, AxiosRequestConfig(Some(url), Some(urlMethod), data, params.headers), apiRequest, params);
  }
}
