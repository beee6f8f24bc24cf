/** The concrete expectations of the library's test suite, stated over the model. */
module Examples {
  import opened Wrappers
  import opened Types
  import opened Utils
  import opened Actions
  import opened Reducers

  const ActionSet := AsyncActionSet("FAILURE", "REQUEST", "SUCCESS")
  const OtherActionSet := AsyncActionSet("FAILURE2", "REQUEST2", "SUCCESS2")
  const NoParams := RequestParams(None, None, None, None)

  lemma HelloActionSet()
    ensures MakeAsyncActionSet("HELLO") == AsyncActionSet("HELLO_FAILURE", "HELLO_REQUEST", "HELLO_SUCCESS")
  {
  }

  lemma QueryStrings()
    ensures FormatQueryParams(None) == ""
    ensures FormatQueryParams(Some([Property("a", None, true), Property("b", None, true)])) == ""
    ensures FormatQueryParams(Some([Property("a", Some("1"), true), Property("b", Some("2"), true)])) == "?a=1&b=2"
    ensures FormatQueryParams(Some([Property("a", Some("1"), true), Property("b", Some("2"), false)])) == "?a=1"
  {
    var ab := [Property("a", Some("1"), true), Property("b", Some("2"), true)];
    assert ab[..1] == [ab[0]];
    var inherited := [Property("a", Some("1"), true), Property("b", Some("2"), false)];
    assert inherited[..1] == [inherited[0]];
  }

  lemma DefaultAndUnchangedState(isFSA: Action -> bool)
    ensures ResponsesReducer(isFSA, None, Action("action", NoPayload, None, None)) == Ok(map[])
    ensures forall s :: ResponsesReducer(isFSA, Some(s), Action("action", NoPayload, None, None)) == Ok(s)
  {
  }

  /** The test's action `{llama: true, type}` fails `isFSA` because of its extra `llama` key,
      which `Action` cannot represent; `!isFSA` on `{type}` stands for that rejection. */
  lemma NonConformingDiscarded(isFSA: Action -> bool, s: ResponsesReducerState, t: string)
    requires IsLifecycleType(t) && !isFSA(Action(t, NoPayload, None, None))
    ensures ResponsesReducer(isFSA, Some(s), Action(t, NoPayload, None, None)) == Ok(s)
  {
  }

  lemma SetAndResetSlot(isFSA: Action -> bool, tag: string)
    requires isFSA(Action(RequestStateType, SetPayload(SetRequestStatePayload(ActionSet, Obj(map[]), RequestStates.Request, Some(tag))), None, None))
    requires isFSA(Action(ResetRequestStateType, ResetPayload(ResetRequestStatePayload(ActionSet, Some(tag))), None, None))
    ensures var written := ResponsesReducer(isFSA, None, Action(RequestStateType, SetPayload(SetRequestStatePayload(ActionSet, Obj(map[]), RequestStates.Request, Some(tag))), None, None));
      written.Ok? && written.value["REQUEST"][tag] == ResponseState(Some(RequestStates.Request), Obj(map[]))
    ensures var reset := ResponsesReducer(isFSA, None, Action(ResetRequestStateType, ResetPayload(ResetRequestStatePayload(ActionSet, Some(tag))), None, None));
      reset.Ok? && reset.value["REQUEST"][tag] == ResponseState(None, Null)
    ensures var written := ResponsesReducer(isFSA, None, Action(RequestStateType, SetPayload(SetRequestStatePayload(ActionSet, Obj(map[]), RequestStates.Request, Some(tag))), None, None));
      var reset := ResponsesReducer(isFSA, Some(written.value), Action(ResetRequestStateType, ResetPayload(ResetRequestStatePayload(ActionSet, Some(tag))), None, None));
      reset.Ok? && reset.value["REQUEST"][tag] == ResponseState(None, Null)
  {
  }

  lemma SlotPredicates()
    ensures var s := map["REQUEST" := map["tag" := ResponseState(Some(RequestStates.Request), Null)]];
      !IsPending(s, ActionSet, Some("not-tag")) && IsPending(s, ActionSet, Some("tag"))
    ensures var s := map["REQUEST" := map["tag" := ResponseState(Some(Failure), Null)]];
      !HasFailed(s, ActionSet, Some("not-tag")) && HasFailed(s, ActionSet, Some("tag"))
    ensures var s := map["REQUEST" := map["tag" := ResponseState(Some(Success), Null)]];
      !HasSucceeded(s, ActionSet, Some("not-tag")) && HasSucceeded(s, ActionSet, Some("tag"))
  {
  }

  lemma AnyPendingCases()
    ensures AnyPending(map["REQUEST" := map["tag" := ResponseState(Some(RequestStates.Request), Null)]],
                       [Tagged(ActionSet, "tag"), Tagged(OtherActionSet, "tag")])
    ensures !AnyPending(map["REQUEST" := map["tag" := ResponseState(Some(Success), Null)]],
                        [Tagged(ActionSet, "tag"), Tagged(OtherActionSet, "tag")])
    ensures var s := map["REQUEST" := map["tag" := ResponseState(Some(Success), Null)],
                         "REQUEST2" := map["tag" := ResponseState(Some(RequestStates.Request), Null)]];
      AnyPending(s, [Tagged(ActionSet, "tag"), Tagged(OtherActionSet, "tag")])
      && !AnyPending(s, [Tagged(ActionSet, "tag"), Bare(OtherActionSet)])
  {
    var s := map["REQUEST" := map["tag" := ResponseState(Some(Success), Null)],
                 "REQUEST2" := map["tag" := ResponseState(Some(RequestStates.Request), Null)]];
    assert EntryPending(s, [Tagged(ActionSet, "tag"), Tagged(OtherActionSet, "tag")][1]);
  }

  lemma ErrorDataCases()
    ensures var err := Obj(map["response" := Obj(map["data" := Obj(map["error" := Str("Error data!")])]),
                               "config" := Obj(map[]), "name" := Str(""), "message" := Str("")]);
      && GetErrorData(map["REQUEST" := map["tag" := ResponseState(Some(RequestStates.Request), err)]], ActionSet, Some("tag")) == Ok(None)
      && GetErrorData(map["REQUEST" := map["tag" := ResponseState(Some(Failure), err)]], ActionSet, Some("tag")) == Ok(Some(err))
    ensures var body := Obj(map["data" := Obj(map["error" := Str("Error data!")]), "status" := Num(500),
                                "statusText" := Str(""), "config" := Obj(map[]), "headers" := Obj(map[])]);
      GetErrorData(map["REQUEST" := map["tag" := ResponseState(Some(Failure), body)]], ActionSet, Some("tag")) == Ok(None)
  {
  }

  lemma EventBuilders()
    ensures SetRequestState(ActionSet, Success, Str("hello"), Some("tag"))
         == Action(RequestStateType, SetPayload(SetRequestStatePayload(ActionSet, Str("hello"), Success, Some("tag"))), None, None)
    ensures SetRequestState(ActionSet, Success, Null, None)
         == Action(RequestStateType, SetPayload(SetRequestStatePayload(ActionSet, Null, Success, Some(""))), None, None)
    ensures ResetRequestState(ActionSet, Some("tag"))
         == Action(ResetRequestStateType, ResetPayload(ResetRequestStatePayload(ActionSet, Some("tag"))), None, None)
    ensures ResetRequestState(ActionSet, None)
         == Action(ResetRequestStateType, ResetPayload(ResetRequestStatePayload(ActionSet, Some(""))), None, None)
  {
  }

  lemma DriverDispatches(response: Json, error: Json)
    ensures LifecycleEvents(ActionSet, Response(response), NoParams)[0]
         == Action("REQUEST", NoPayload, Some(map["tag" := Str("")]), None)
    ensures LifecycleEvents(ActionSet, Response(response), NoParams)[1]
         == SetRequestState(ActionSet, RequestStates.Request, Null, None)
    ensures LifecycleEvents(ActionSet, Response(response), NoParams)[2]
         == Action("SUCCESS", Value(response), Some(map["tag" := Str("")]), None)
    ensures LifecycleEvents(ActionSet, Error(error), NoParams)[2]
         == Action("FAILURE", Value(error), Some(map["tag" := Str("")]), Some(true))
    ensures LifecycleEvents(ActionSet, Response(response), NoParams)[3]
         == SetRequestState(ActionSet, Success, response, None)
    ensures LifecycleEvents(ActionSet, Error(error), NoParams)[3]
         == SetRequestState(ActionSet, Failure, error, None)
    ensures Settle(Error(error), NoParams) == Resolved(None)
    ensures Settle(Error(error), RequestParams(None, None, None, Some(_ => true))) == Rejected(error)
  {
  }
}
