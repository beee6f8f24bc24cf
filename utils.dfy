/** The read-side helpers: the action-set factory, the query-string serialiser and the
    queries over the reducer's state. */
module Utils {
  import opened Wrappers
  import opened Types

  // ---------------------------------------------------------------------------
  // Entries of an object

  /** One property that `for…in` visits, with whether it is the object's own. */
  datatype Property<T> = Property(key: string, value: T, own: bool)

  /** The own `[key, value]` entries of an object, in the order `for…in` visits them. */
  function OwnEntries<T>(props: seq<Property<T>>): (r: seq<(string, T)>)
    ensures |r| <= |props|
  {
    if props == [] then []
    else
      var last := props[|props| - 1];
      OwnEntries(props[..|props| - 1]) + (if last.own then [(last.key, last.value)] else [])
  }

  /** A pair is an own entry exactly when some own property carries that key and value. */
  lemma {:induction false} OwnEntriesMembers<T>(props: seq<Property<T>>, k: string, v: T)
    ensures (k, v) in OwnEntries(props)
        <==> exists i :: 0 <= i < |props| && props[i].own && props[i].key == k && props[i].value == v
  {
    if props != [] {
      var n := |props|;
      var init := props[..n - 1];
      OwnEntriesMembers(init, k, v);
      assert forall i :: 0 <= i < n - 1 ==> init[i] == props[i];
      if (k, v) in OwnEntries(props) && (k, v) !in OwnEntries(init) {
        assert props[n - 1].own && props[n - 1].key == k && props[n - 1].value == v;
      }
    }
  }

  /** Collects the own entries of `params`: the `for…in` loop keeps a key when
      `hasOwnProperty` holds for it. */
  method AsEntries<T>(params: seq<Property<T>>) returns (result: seq<(string, T)>)
    ensures result == OwnEntries(params)
  {
    result := [];
    for i := 0 to |params|
      invariant result == OwnEntries(params[..i])
    {
      var p := params[i];
      if p.own {
        result := result + [(p.key, p.value)];
      }
      assert params[..i + 1][..i] == params[..i];
    }
    assert params[..|params|] == params;
  }

  // ---------------------------------------------------------------------------
  // Action sets

  /** The three action types for `actionName`: pairwise distinct. */
  function MakeAsyncActionSet(actionName: string): (r: AsyncActionSet)
    ensures r.request != r.success && r.request != r.failure && r.success != r.failure
  {
    var r := AsyncActionSet(actionName + "_FAILURE", actionName + "_REQUEST", actionName + "_SUCCESS");
    assert r.failure[|actionName| + 1] == 'F';
    assert r.request[|actionName| + 1] == 'R';
    assert r.success[|actionName| + 1] == 'S';
    r
  }

  /** Different action names give different action sets, so each name owns its key space. */
  lemma MakeAsyncActionSetInjective(a: string, b: string)
    requires MakeAsyncActionSet(a) == MakeAsyncActionSet(b)
    ensures a == b
  {
    var ra := a + "_REQUEST";
    assert ra == b + "_REQUEST";
    assert a == ra[..|a|] && b == ra[..|b|];
  }

  // ---------------------------------------------------------------------------
  // Query strings

  /** The entries whose value is neither `null` nor `undefined`, with that value. */
  function Present(pairs: seq<(string, Option<string>)>): (r: seq<(string, string)>)
  {
    if pairs == [] then []
    else (if pairs[0].1.Some? then [(pairs[0].0, pairs[0].1.value)] else []) + Present(pairs[1..])
  }

  /** Each entry written as `key=value`. */
  function Render(pairs: seq<(string, string)>): (r: seq<string>)
    ensures |r| == |pairs|
  {
    if pairs == [] then [] else [pairs[0].0 + "=" + pairs[0].1] + Render(pairs[1..])
  }

  /** `parts.join(sep)`. */
  function Join(parts: seq<string>, sep: char): string
  {
    if |parts| == 0 then ""
    else if |parts| == 1 then parts[0]
    else parts[0] + [sep] + Join(parts[1..], sep)
  }

  /** Every entry's value is `null` or `undefined`. */
  ghost predicate AllAbsent(pairs: seq<(string, Option<string>)>) {
    forall j :: 0 <= j < |pairs| ==> pairs[j].1.None?
  }

  /** Every own property's value is `null` or `undefined`. */
  ghost predicate OwnAllAbsent(props: seq<Property<Option<string>>>) {
    forall i :: 0 <= i < |props| && props[i].own ==> props[i].value.None?
  }

  lemma {:induction false} PresentEmptyIffAllAbsent(pairs: seq<(string, Option<string>)>)
    ensures Present(pairs) == [] <==> AllAbsent(pairs)
  {
    if pairs != [] {
      PresentEmptyIffAllAbsent(pairs[1..]);
      assert AllAbsent(pairs) <==> pairs[0].1.None? && AllAbsent(pairs[1..]) by {
        if pairs[0].1.None? && AllAbsent(pairs[1..]) {
          forall j | 0 <= j < |pairs| ensures pairs[j].1.None? {
            if j > 0 { assert pairs[j] == pairs[1..][j - 1]; }
          }
        }
      }
    }
  }

  lemma {:induction false} OwnEntriesAllAbsent(props: seq<Property<Option<string>>>)
    ensures AllAbsent(OwnEntries(props)) <==> OwnAllAbsent(props)
  {
    if props != [] {
      var n := |props|;
      var init := props[..n - 1];
      var last := props[n - 1];
      var tail := if last.own then [(last.key, last.value)] else [];
      OwnEntriesAllAbsent(init);
      assert OwnEntries(props) == OwnEntries(init) + tail;
      assert AllAbsent(OwnEntries(init) + tail) <==> AllAbsent(OwnEntries(init)) && AllAbsent(tail) by {
        var a := OwnEntries(init);
        if AllAbsent(a) && AllAbsent(tail) {
          forall j | 0 <= j < |a + tail| ensures (a + tail)[j].1.None? {
            if j >= |a| { assert (a + tail)[j] == tail[j - |a|]; }
          }
        }
        if AllAbsent(a + tail) {
          forall j | 0 <= j < |tail| ensures tail[j].1.None? { assert (a + tail)[|a| + j] == tail[j]; }
          forall j | 0 <= j < |a| ensures a[j].1.None? { assert (a + tail)[j] == a[j]; }
        }
      }
      assert AllAbsent(tail) <==> (last.own ==> last.value.None?) by {
        if last.own { assert tail[0] == (last.key, last.value); }
      }
      assert OwnAllAbsent(props) <==> OwnAllAbsent(init) && (last.own ==> last.value.None?) by {
        assert forall i :: 0 <= i < n - 1 ==> init[i] == props[i];
        if OwnAllAbsent(init) && (last.own ==> last.value.None?) {
          forall i | 0 <= i < n && props[i].own ensures props[i].value.None? {
            if i < n - 1 { assert init[i] == props[i]; }
          }
        }
      }
    }
  }

  /** No value survives the filter exactly when every own entry is `null` or `undefined`. */
  lemma PresentEmpty(props: seq<Property<Option<string>>>)
    ensures Present(OwnEntries(props)) == [] <==> OwnAllAbsent(props)
  {
    PresentEmptyIffAllAbsent(OwnEntries(props));
    OwnEntriesAllAbsent(props);
  }

  /** The query string of `params`: `''` when there are no params or no own entry with a
      value, and otherwise `'?'` followed by the entries. */
  function FormatQueryParams(params: Option<seq<Property<Option<string>>>>): (r: string)
    ensures r == "" <==> params.None? || OwnAllAbsent(params.value)
    ensures r != "" ==> r[0] == '?'
  {
    if params.None? then ""
    else
      var filtered := Present(OwnEntries(params.value));
      PresentEmpty(params.value);
      if |filtered| == 0 then "" else "?" + Join(Render(filtered), '&')
  }

  /** `s.split(sep)`: the maximal `sep`-free pieces of `s`, at least one. */
  function Split(s: string, sep: char): (parts: seq<string>)
    ensures |parts| >= 1
    decreases |s|
  {
    if s == [] then [""]
    else
      var rest := Split(s[1..], sep);
      if s[0] == sep then [""] + rest else [[s[0]] + rest[0]] + rest[1..]
  }

  /** A `key=value` piece cut at its first `=`. */
  function SplitPair(s: string): (string, string)
  {
    if s == [] then ("", "")
    else if s[0] == '=' then ("", s[1..])
    else var (k, v) := SplitPair(s[1..]); ([s[0]] + k, v)
  }

  /** Each piece cut into its key and value. */
  function ParsePairs(parts: seq<string>): seq<(string, string)>
  {
    if parts == [] then [] else [SplitPair(parts[0])] + ParsePairs(parts[1..])
  }

  /** Reads a query string back into its entries: the inverse of `FormatQueryParams`. */
  function ParseQueryString(q: string): seq<(string, string)>
  {
    if q == "" then [] else ParsePairs(Split(q[1..], '&'))
  }

  /** Entries the serialiser writes unambiguously: keys without `&` or `=`, values without `&`. */
  ghost predicate Unambiguous(pairs: seq<(string, string)>) {
    forall i :: 0 <= i < |pairs| ==> '&' !in pairs[i].0 && '=' !in pairs[i].0 && '&' !in pairs[i].1
  }

  /** Properties the serialiser writes unambiguously: every own property with a value has a key
      without `&` or `=` and a value without `&`; other properties never reach the output. */
  ghost predicate UnambiguousProperties(props: seq<Property<Option<string>>>) {
    forall i :: 0 <= i < |props| ==>
      (props[i].own && props[i].value.Some? ==> '&' !in props[i].key && '=' !in props[i].key && '&' !in props[i].value.value)
  }

  lemma {:induction false} SplitNoSeparator(x: string, sep: char)
    requires sep !in x
    ensures Split(x, sep) == [x]
    decreases |x|
  {
    if x != [] {
      SplitNoSeparator(x[1..], sep);
      assert [x[0]] + x[1..] == x;
    }
  }

  lemma {:induction false} SplitAtSeparator(x: string, sep: char, y: string)
    requires sep !in x
    ensures Split(x + [sep] + y, sep) == [x] + Split(y, sep)
    decreases |x|
  {
    var s := x + [sep] + y;
    if x == [] {
      assert s[1..] == y;
    } else {
      assert s[1..] == x[1..] + [sep] + y;
      SplitAtSeparator(x[1..], sep, y);
      assert [x[0]] + x[1..] == x;
    }
  }

  /** Splitting a join recovers the parts when no part contains the separator. */
  lemma {:induction false} SplitJoin(parts: seq<string>, sep: char)
    requires |parts| >= 1
    requires forall i :: 0 <= i < |parts| ==> sep !in parts[i]
    ensures Split(Join(parts, sep), sep) == parts
    decreases |parts|
  {
    if |parts| == 1 {
      SplitNoSeparator(parts[0], sep);
    } else {
      SplitAtSeparator(parts[0], sep, Join(parts[1..], sep));
      SplitJoin(parts[1..], sep);
    }
  }

  lemma {:induction false} SplitPairCut(k: string, v: string)
    requires '=' !in k
    ensures SplitPair(k + "=" + v) == (k, v)
    decreases |k|
  {
    var s := k + "=" + v;
    if k == [] {
      assert s[1..] == v;
    } else {
      assert s[1..] == k[1..] + "=" + v;
      SplitPairCut(k[1..], v);
      assert [k[0]] + k[1..] == k;
    }
  }

  lemma {:induction false} ParseRender(pairs: seq<(string, string)>)
    requires Unambiguous(pairs)
    ensures ParsePairs(Render(pairs)) == pairs
    ensures forall i :: 0 <= i < |pairs| ==> '&' !in Render(pairs)[i]
  {
    if pairs != [] {
      SplitPairCut(pairs[0].0, pairs[0].1);
      assert Unambiguous(pairs[1..]) by {
        forall i | 0 <= i < |pairs| - 1 ensures '&' !in pairs[1..][i].0 {
          assert pairs[1..][i] == pairs[i + 1];
        }
      }
      ParseRender(pairs[1..]);
      assert Render(pairs)[1..] == Render(pairs[1..]);
    }
  }

  lemma {:induction false} UnambiguousEntries(props: seq<Property<Option<string>>>)
    requires UnambiguousProperties(props)
    ensures Unambiguous(Present(OwnEntries(props)))
  {
    forall i | 0 <= i < |Present(OwnEntries(props))|
      ensures var p := Present(OwnEntries(props))[i]; '&' !in p.0 && '=' !in p.0 && '&' !in p.1
    {
      var p := Present(OwnEntries(props))[i];
      PresentFrom(OwnEntries(props), i);
      var j :| 0 <= j < |OwnEntries(props)| && OwnEntries(props)[j] == (p.0, Some(p.1));
      OwnEntriesMembers(props, p.0, Some(p.1));
    }
  }

  /** Every entry `Present` keeps comes from an entry with a value. */
  lemma {:induction false} PresentFrom(pairs: seq<(string, Option<string>)>, i: nat)
    requires i < |Present(pairs)|
    ensures exists j :: 0 <= j < |pairs| && pairs[j] == (Present(pairs)[i].0, Some(Present(pairs)[i].1))
  {
    var head := if pairs[0].1.Some? then [(pairs[0].0, pairs[0].1.value)] else [];
    if i < |head| {
      assert pairs[0] == (Present(pairs)[i].0, Some(Present(pairs)[i].1));
    } else {
      PresentFrom(pairs[1..], i - |head|);
      var j :| 0 <= j < |pairs[1..]| && pairs[1..][j] == (Present(pairs[1..])[i - |head|].0, Some(Present(pairs[1..])[i - |head|].1));
      assert pairs[j + 1] == pairs[1..][j];
    }
  }

  /** Round trip: parsing the query string gives back exactly the own entries that have a
      value, in order. */
  lemma FormatQueryParamsRoundTrip(params: Option<seq<Property<Option<string>>>>)
    requires params.Some? ==> UnambiguousProperties(params.value)
    ensures ParseQueryString(FormatQueryParams(params)) == if params.None? then [] else Present(OwnEntries(params.value))
  {
    if params.Some? {
      var filtered := Present(OwnEntries(params.value));
      if |filtered| > 0 {
        UnambiguousEntries(params.value);
        ParseRender(filtered);
        var q := FormatQueryParams(params);
        assert q[1..] == Join(Render(filtered), '&');
        SplitJoin(Render(filtered), '&');
      }
    }
  }

  /** Keys and values are written unescaped, so without the round trip's precondition two
      different objects can serialise to the same query string. */
  lemma UnescapedValuesCollide()
    ensures FormatQueryParams(Some([Property("a", Some("x&b=y"), true)]))
         == FormatQueryParams(Some([Property("a", Some("x"), true), Property("b", Some("y"), true)]))
  {
    var two := [Property("a", Some("x"), true), Property("b", Some("y"), true)];
    assert two[..1] == [two[0]];
  }

  // ---------------------------------------------------------------------------
  // Queries over the reducer's state

  /** The slot for `actionSet` and `tag || ''`, or the empty slot when the key or tag is absent. */
  function GetResponseState(state: ResponsesReducerState, actionSet: AsyncActionSet, tag: Option<string>): (r: ResponseState)
    ensures actionSet.request in state && TagKey(tag) in state[actionSet.request] ==> r == state[actionSet.request][TagKey(tag)]
    ensures !(actionSet.request in state && TagKey(tag) in state[actionSet.request]) ==> r == NullSlot
  {
    var existing := if actionSet.request in state then state[actionSet.request] else map[];
    if TagKey(tag) in existing then existing[TagKey(tag)] else NullSlot
  }

  /** Whether the slot for `tag || ''` is stored with state REQUEST; false for a missing key or tag. */
  function IsPending(state: ResponsesReducerState, actionSet: AsyncActionSet, tag: Option<string>): (r: bool)
    ensures r <==> actionSet.request in state && TagKey(tag) in state[actionSet.request] && state[actionSet.request][TagKey(tag)].requestState == Some(Request)
  {
    GetResponseState(state, actionSet, tag).requestState == Some(Request)
  }

  /** Whether the slot for `tag || ''` is stored with state FAILURE; false for a missing key or tag. */
  function HasFailed(state: ResponsesReducerState, actionSet: AsyncActionSet, tag: Option<string>): (r: bool)
    ensures r <==> actionSet.request in state && TagKey(tag) in state[actionSet.request] && state[actionSet.request][TagKey(tag)].requestState == Some(Failure)
  {
    GetResponseState(state, actionSet, tag).requestState == Some(Failure)
  }

  /** Whether the slot for `tag || ''` is stored with state SUCCESS; false for a missing key or tag. */
  function HasSucceeded(state: ResponsesReducerState, actionSet: AsyncActionSet, tag: Option<string>): (r: bool)
    ensures r <==> actionSet.request in state && TagKey(tag) in state[actionSet.request] && state[actionSet.request][TagKey(tag)].requestState == Some(Success)
  {
    GetResponseState(state, actionSet, tag).requestState == Some(Success)
  }

  /** The three predicates are mutually exclusive, and one holds exactly when the slot has a state. */
  lemma QueriesPartitionSlot(state: ResponsesReducerState, actionSet: AsyncActionSet, tag: Option<string>)
    ensures !(IsPending(state, actionSet, tag) && HasFailed(state, actionSet, tag))
    ensures !(IsPending(state, actionSet, tag) && HasSucceeded(state, actionSet, tag))
    ensures !(HasFailed(state, actionSet, tag) && HasSucceeded(state, actionSet, tag))
    ensures IsPending(state, actionSet, tag) || HasFailed(state, actionSet, tag) || HasSucceeded(state, actionSet, tag)
        <==> GetResponseState(state, actionSet, tag).requestState.Some?
  {
    match GetResponseState(state, actionSet, tag).requestState
    case Some(Request) =>
    case Some(Success) =>
    case Some(Failure) =>
    case None =>
  }

  /** An undefined tag and the empty tag read the same slot. */
  lemma UndefinedTagIsEmptyTag(state: ResponsesReducerState, actionSet: AsyncActionSet)
    ensures GetResponseState(state, actionSet, None) == GetResponseState(state, actionSet, Some(""))
  {
  }

  /** An entry of `anyPending`'s list: a bare action set, or an action set with a tag. */
  datatype ActionSetEntry = Bare(actionSet: AsyncActionSet) | Tagged(actionSet: AsyncActionSet, tag: string)

  /** Whether one entry's slot is pending; a bare action set queries the `''` slot. */
  predicate EntryPending(state: ResponsesReducerState, entry: ActionSetEntry) {
    match entry
    case Bare(a) => IsPending(state, a, None)
    case Tagged(a, t) => IsPending(state, a, Some(t))
  }

  /** Whether some listed entry is pending (`Array.prototype.some`). */
  function AnyPending(state: ResponsesReducerState, entries: seq<ActionSetEntry>): (b: bool)
    ensures b <==> exists i :: 0 <= i < |entries| && EntryPending(state, entries[i])
    ensures entries == [] ==> !b
  {
    if entries == [] then false
    else if EntryPending(state, entries[0]) then true
    else
      var rest := AnyPending(state, entries[1..]);
      assert forall i :: 1 <= i < |entries| ==> entries[i] == entries[1..][i - 1];
      rest
  }

  /** The shape of a transport error: an object carrying `config`, `name` and `message`. */
  predicate HasErrorShape(data: Json) {
    data.Obj? && "config" in data.fields && "name" in data.fields && "message" in data.fields
  }

  /** The `in` tests of `isAxiosError`: defined on objects and arrays (an array has none of
      the three keys), a `TypeError` on every other value. */
  function IsAxiosError(data: Json): (r: Result<bool>)
    ensures r == Ok(true) <==> HasErrorShape(data)
    ensures r.Throws? <==> !(data.Obj? || data.Arr?)
  {
    match data
    case Obj(fields) => Ok("config" in fields && "name" in fields && "message" in fields)
    case Arr(_) => Ok(false)
    case _ => Throws(TypeError)
  }

  /** The stored error of a failed slot when it has the transport-error shape, else `null`.
      A failed slot holding a truthy primitive makes the `in` test throw. */
  function GetErrorData(state: ResponsesReducerState, actionSet: AsyncActionSet, tag: Option<string>): (r: Result<Option<Json>>)
    ensures r.Ok? && r.value.Some?
        <==> HasFailed(state, actionSet, tag) && HasErrorShape(GetResponseState(state, actionSet, tag).data)
    ensures r.Ok? && r.value.Some? ==> r.value.value == GetResponseState(state, actionSet, tag).data
    ensures r.Throws?
        <==> HasFailed(state, actionSet, tag)
             && Truthy(GetResponseState(state, actionSet, tag).data)
             && !(GetResponseState(state, actionSet, tag).data.Obj? || GetResponseState(state, actionSet, tag).data.Arr?)
  {
    if HasFailed(state, actionSet, tag) then
      var responseState := GetResponseState(state, actionSet, tag);
      if Truthy(responseState.data) then
        match IsAxiosError(responseState.data)
        case Ok(true) => Ok(Some(responseState.data))
        case Ok(false) => Ok(None)
        case Throws(e) => Throws(e)
      else Ok(None)
    else Ok(None)
  }

  /** A missing action-set key or tag reads as the empty slot: no predicate holds and there is
      no error data. */
  lemma QueriesOnMissingSlot(state: ResponsesReducerState, actionSet: AsyncActionSet, tag: Option<string>)
    requires actionSet.request !in state || TagKey(tag) !in state[actionSet.request]
    ensures !IsPending(state, actionSet, tag) && !HasFailed(state, actionSet, tag) && !HasSucceeded(state, actionSet, tag)
    ensures GetErrorData(state, actionSet, tag) == Ok(None)
  {
  }
}
