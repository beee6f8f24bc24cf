/** The data model of the library: request states, action sets, stored slots, payloads and actions. */
module Types {
  import opened Wrappers

  /** The JavaScript values that flow through the library as response bodies, errors and
      metadata. Numbers are integers here. The `fields` of an object are every key the `in`
      operator finds on it, own or inherited. */
  datatype Json =
    | Null
    | Bool(b: bool)
    | Num(n: int)
    | Str(s: string)
    | Arr(items: seq<Json>)
    | Obj(fields: map<string, Json>)

  /** JavaScript truthiness: `null`, `false`, `0` and `''` are falsy, every object is truthy. */
  predicate Truthy(v: Json) {
    match v
    case Null => false
    case Bool(b) => b
    case Num(n) => n != 0
    case Str(s) => s != ""
    case Arr(_) => true
    case Obj(_) => true
  }

  /** The three lifecycle states of a request. */
  datatype RequestStates = Request | Success | Failure

  /** The HTTP verbs a request may use. */
  datatype UrlMethod = GET | POST | PUT | DELETE | OPTIONS | PATCH

  /** The three action types announcing one logical request. */
  datatype AsyncActionSet = AsyncActionSet(failure: string, request: string, success: string)

  /** One stored slot. `requestState == None` is `null`; `data` may be `Null`. */
  datatype ResponseState = ResponseState(requestState: Option<RequestStates>, data: Json)

  /** The slot a reset writes, and the slot an absent key reads as. */
  const NullSlot: ResponseState := ResponseState(None, Null)

  /** The reducer's state: action set's REQUEST identifier, then tag, then slot. */
  type ResponsesReducerState = map<string, map<string, ResponseState>>

  /** The payload of a `REQUEST_STATE` action; its tag is optional. */
  datatype SetRequestStatePayload =
    SetRequestStatePayload(actionSet: AsyncActionSet, data: Json, requestState: RequestStates, tag: Option<string>)

  /** The payload of a `RESET_REQUEST_STATE` action: no data and no request state. */
  datatype ResetRequestStatePayload = ResetRequestStatePayload(actionSet: AsyncActionSet, tag: Option<string>)

  /** Request metadata: an open dictionary that always holds a string `tag`. */
  type RequestMetaData = m: map<string, Json> | "tag" in m && m["tag"].Str? witness map["tag" := Str("")]

  /** The options of one request. `metaData` is a partial metadata dictionary (its `tag`, if
      any, is overridden); `shouldRethrow`, when present, decides whether a failure rejects. */
  datatype RequestParams = RequestParams(
    tag: Option<string>,
    metaData: Option<map<string, Json>>,
    headers: Option<map<string, string>>,
    shouldRethrow: Option<Json -> bool>)

  /** The `payload` key of an action: absent, one of the two lifecycle payloads, or any other value. */
  datatype Payload =
    | NoPayload
    | SetPayload(setBody: SetRequestStatePayload)
    | ResetPayload(resetBody: ResetRequestStatePayload)
    | Value(value: Json)
  {
    /** Whether the payload has the lifecycle shape the reducer destructures. */
    predicate IsLifecycle() {
      SetPayload? || ResetPayload?
    }

    /** The action set named by a lifecycle payload. */
    function ActionSet(): AsyncActionSet
      requires IsLifecycle()
    {
      if SetPayload? then setBody.actionSet else resetBody.actionSet
    }

    /** The (optional) tag named by a lifecycle payload. */
    function Tag(): Option<string>
      requires IsLifecycle()
    {
      if SetPayload? then setBody.tag else resetBody.tag
    }
  }

  /** A dispatched action with the keys a flux standard action may have. */
  datatype Action = Action(actionType: string, payload: Payload, meta: Option<RequestMetaData>, error: Option<bool>)

  /** The storage key of a tag: both `tag || ''` and a `tag = ''` default parameter, which
      agree on strings because `''` is the only falsy string. */
  function TagKey(tag: Option<string>): string {
    tag.GetOr("")
  }
}
