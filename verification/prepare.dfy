/**
 `_prepare_arguments_doc`: rewrites the `arguments` part of a view function's
 documentation into an OpenAPI Operation Object fragment. The first mapping
 parameter whose location has a content type becomes the body: with OpenAPI 2
 it may set `consumes`; with OpenAPI 3 it is moved out of `parameters` into a
 Request Body Object (section 4.7.13 of the OpenAPI Specification 3.0.3).
 The `arguments` dictionary is rewritten in place, as in the source.
 */
module PrepareDoc {
  import opened PyValues
  import opened ParameterRecords
  import opened ArgumentDocs

  const CONSUMES: Value := Str("consumes")
  const REQUEST_BODY: Value := Str("requestBody")
  const CONTENT: Value := Str("content")

  /** The indices of the mapping entries of `items`, in order: the filtered
      list of mapping parameters, kept as positions so that an entry changed
      through the filtered list is changed in `items` too. */
  function MappingPositions(items: seq<Value>): (ps: seq<nat>)
    ensures forall t :: 0 <= t < |ps| ==> ps[t] < |items| && items[ps[t]].Dict?
    ensures forall t, u :: 0 <= t < u < |ps| ==> ps[t] < ps[u]
    ensures forall j :: 0 <= j < |items| && items[j].Dict? ==> j in ps
  {
    if items == [] then []
    else
      var init := MappingPositions(items[..|items| - 1]);
      if items[|items| - 1].Dict? then init + [|items| - 1] else init
  }

  /** What `for p in v` yields, as far as mappings go: the items of a list;
      no mapping for a dict (its keys are hashable, so never dicts) or a
      string (its characters); every other value is not iterable. */
  function IterateParameters(v: Value): (r: Result<seq<Value>>)
    ensures r.Ok? && r.value != [] ==> v == List(r.value)
  {
    match v
    case List(xs) => Ok(xs)
    case Dict(_) => Ok([])
    case Str(_) => Ok([])
    case _ => Err(TypeError)
  }

  /** The loop goes on past `v`: it is not a mapping, or it is a mapping
      whose `in` is hashable and not a location with a content type. */
  predicate PassesOver(v: Value, locations: map<Value, Value>)
  {
    !v.Dict? || (IN in v.entries && Hashable(v.entries[IN]) && v.entries[IN] !in locations)
  }

  /** `v` is a mapping whose `in` is a location with a content type. */
  predicate IsBodyParameter(v: Value, locations: map<Value, Value>)
  {
    v.Dict? && IN in v.entries && Hashable(v.entries[IN]) && v.entries[IN] in locations
  }

  /** The exception `param["in"] in locations` raises for a mapping the loop
      neither passes over nor selects. */
  function ScanError(v: Value): Error
    requires v.Dict?
  {
    if IN !in v.entries then KeyError else TypeError
  }

  datatype Scan = Found(index: nat) | NotFound | Failed(error: Error)

  /** Every entry before position `n` is passed over. */
  predicate PassesBefore(items: seq<Value>, n: nat, locations: map<Value, Value>)
    requires n <= |items|
  {
    forall k :: 0 <= k < n ==> PassesOver(items[k], locations)
  }

  /** The outcome of the search loop started at position `i`. */
  function LocateFrom(items: seq<Value>, i: nat, locations: map<Value, Value>): (s: Scan)
    requires i <= |items|
    decreases |items| - i
    ensures s.Found? ==>
      && i <= s.index < |items|
      && IsBodyParameter(items[s.index], locations)
      && forall k :: i <= k < s.index ==> PassesOver(items[k], locations)
    ensures s.NotFound? ==> forall k :: i <= k < |items| ==> PassesOver(items[k], locations)
    ensures s.Failed? ==> exists j ::
      && i <= j < |items|
      && items[j].Dict?
      && !PassesOver(items[j], locations)
      && !IsBodyParameter(items[j], locations)
      && s.error == ScanError(items[j])
      && forall k :: i <= k < j ==> PassesOver(items[k], locations)
  {
    if i == |items| then NotFound
    else if PassesOver(items[i], locations) then LocateFrom(items, i + 1, locations)
    else if IsBodyParameter(items[i], locations) then Found(i)
    else Failed(ScanError(items[i]))
  }

  /** The body parameter of `items`, if any. */
  function Locate(items: seq<Value>, locations: map<Value, Value>): Scan
  {
    LocateFrom(items, 0, locations)
  }

  /** Skipping entries the loop passes over does not change its outcome. */
  lemma {:induction false} SkipPassing(items: seq<Value>, i: nat, j: nat, locations: map<Value, Value>)
    requires i <= j <= |items|
    requires forall k :: i <= k < j ==> PassesOver(items[k], locations)
    ensures LocateFrom(items, i, locations) == LocateFrom(items, j, locations)
    decreases j - i
  {
    if i < j {
      SkipPassing(items, i + 1, j, locations);
    }
  }

  /** The search ends at the first entry it does not pass over. */
  lemma LocateAt(items: seq<Value>, j: nat, locations: map<Value, Value>)
    requires j <= |items| && PassesBefore(items, j, locations)
    ensures j == |items| ==> Locate(items, locations) == NotFound
    ensures j < |items| && IsBodyParameter(items[j], locations) ==> Locate(items, locations) == Found(j)
    ensures j < |items| && !PassesOver(items[j], locations) && !IsBodyParameter(items[j], locations) ==>
      Locate(items, locations) == Failed(ScanError(items[j]))
  {
    SkipPassing(items, 0, j, locations);
  }

  /** `xs.remove(x)`: drops the first element equal to `x`. */
  function RemoveFirst(xs: seq<Value>, x: Value): (r: seq<Value>)
    requires x in xs
    ensures |r| == |xs| - 1
  {
    if xs[0] == x then xs[1..] else [xs[0]] + RemoveFirst(xs[1..], x)
  }

  /** When no element before position `j` equals `x`, removing `x` removes
      the element at `j`. */
  lemma {:induction false} RemoveFirstAt(xs: seq<Value>, j: nat, x: Value)
    requires j < |xs| && xs[j] == x
    requires forall k :: 0 <= k < j ==> xs[k] != x
    ensures RemoveFirst(xs, x) == xs[..j] + xs[j + 1..]
  {
    if j > 0 {
      RemoveFirstAt(xs[1..], j - 1, x);
      assert xs[1..][..j - 1] == xs[1..j];
      assert xs[1..][j..] == xs[j + 1..];
      assert [xs[0]] + xs[1..j] == xs[..j];
    }
  }

  /** The content type of a body parameter: its own `content_type` when that
      is truthy, else the default content type of its location. */
  function EffectiveContentType(param: map<Value, Value>, locations: map<Value, Value>): Value
    requires IN in param && param[IN] in locations
  {
    Or(Get(param, CONTENT_TYPE, Null), locations[param[IN]])
  }

  /** The start of the request body: the parameter's description and
      required flag, each only when the parameter has it. */
  function RequestBodyBase(param: map<Value, Value>): (r: map<Value, Value>)
    ensures forall k :: k in r <==> k in param && (k == DESCRIPTION || k == REQUIRED)
    ensures forall k :: k in r ==> r[k] == param[k]
  {
    map k | k in param && (k == DESCRIPTION || k == REQUIRED) :: param[k]
  }

  /** The media type of the request body: the parameter's schema, example
      and examples, each only when the parameter has it. */
  function ContentFields(param: map<Value, Value>): (r: map<Value, Value>)
    ensures forall k :: k in r <==> k in param && (k == SCHEMA || k == EXAMPLE || k == EXAMPLES)
    ensures forall k :: k in r ==> r[k] == param[k]
  {
    map k | k in param && (k == SCHEMA || k == EXAMPLE || k == EXAMPLES) :: param[k]
  }

  /** The operation after the OpenAPI 3 step could not finish (`error`), or
      after it did (`error == None`). */
  datatype Prepared = Prepared(operation: Value, error: Option<Error>)

  /** OpenAPI 2: the body parameter loses its `content_type`; `consumes` is
      set when the effective content type is not the default one. */
  function PrepareOas2(op: map<Value, Value>, items: seq<Value>, j: nat,
                       locations: map<Value, Value>, defaultBodyType: Value): (r: map<Value, Value>)
    requires j < |items| && IsBodyParameter(items[j], locations)
    ensures PARAMETERS in r && r[PARAMETERS] == List(items[j := Dict(items[j].entries - {CONTENT_TYPE})])
    ensures CONSUMES in r ==>
      r[CONSUMES] == List([EffectiveContentType(items[j].entries, locations)]) || (CONSUMES in op && r[CONSUMES] == op[CONSUMES])
    ensures forall k :: k != PARAMETERS && k != CONSUMES ==> (k in r <==> k in op) && (k in op ==> r[k] == op[k])
  {
    var param := items[j].entries;
    var (explicit, popped) := Pop(param, CONTENT_TYPE);
    var contentType := Or(explicit, locations[param[IN]]);
    var op1 := op[PARAMETERS := List(items[j := Dict(popped)])];
    if contentType != defaultBodyType then op1[CONSUMES := List([contentType])] else op1
  }

  /** OpenAPI 3: the body parameter becomes the request body and leaves the
      parameter list, which is deleted once empty. An unhashable content type
      stops the step after the parameter has already been emptied. */
  function PrepareOas3(op: map<Value, Value>, items: seq<Value>, j: nat,
                       locations: map<Value, Value>): (r: Prepared)
    requires j < |items| && IsBodyParameter(items[j], locations)
    ensures r.operation.Dict?
    ensures r.error.Some? <==> !Hashable(EffectiveContentType(items[j].entries, locations))
    ensures r.error.Some? ==> r.error.value == TypeError
    ensures r.error.None? ==> REQUEST_BODY in r.operation.entries
  {
    var param := items[j].entries;
    var fields := ContentFields(param);
    var (explicit, remaining) := Pop(param - {SCHEMA, EXAMPLE, EXAMPLES}, CONTENT_TYPE);
    var contentType := Or(explicit, locations[param[IN]]);
    var mutated := items[j := Dict(remaining)];
    var op1 := op[PARAMETERS := List(mutated)];
    if !Hashable(contentType) then Prepared(Dict(op1), Some(TypeError))
    else
      var requestBody := RequestBodyBase(param)[CONTENT := Dict(map[contentType := Dict(fields)])];
      var op2 := op1[REQUEST_BODY := Dict(requestBody)];
      assert mutated[j] == Dict(remaining);
      var rest := RemoveFirst(mutated, Dict(remaining));
      Prepared(Dict(if rest == [] then op2 - {PARAMETERS} else op2[PARAMETERS := List(rest)]), None)
  }

  /** The truthy `arguments` entry after the rewrite, and the exception, if
      any, that stopped it. */
  function PrepareOperation(operation: Value, locations: map<Value, Value>,
                            defaultBodyType: Value, major: int): (r: Prepared)
    ensures r.error.Some? ==> r.error.value == TypeError || r.error.value == KeyError
    ensures r.operation.Dict? <==> operation.Dict?
    ensures r.operation != operation ==> r.error.None? || major >= 3
  {
    if !operation.Dict? then Prepared(operation, Some(TypeError))
    else if PARAMETERS !in operation.entries then Prepared(operation, Some(KeyError))
    else
      var iter := IterateParameters(operation.entries[PARAMETERS]);
      if iter.Err? then Prepared(operation, Some(iter.error))
      else
        match Locate(iter.value, locations)
        case Failed(e) => Prepared(operation, Some(e))
        case NotFound => Prepared(operation, None)
        case Found(j) =>
          if major < 3 then
            Prepared(Dict(PrepareOas2(operation.entries, iter.value, j, locations, defaultBodyType)), None)
          else
            PrepareOas3(operation.entries, iter.value, j, locations)
  }

  /** The exits taken before any parameter is looked at: an operation that is
      not a dict cannot be indexed (TypeError), a missing `parameters` key
      raises KeyError, a `parameters` value that cannot be iterated raises
      TypeError, and a dict or string one yields no mapping, so nothing
      changes. */
  lemma OperationEarlyExits(operation: Value, locations: map<Value, Value>,
                            defaultBodyType: Value, major: int)
    ensures !operation.Dict? ==>
      PrepareOperation(operation, locations, defaultBodyType, major) == Prepared(operation, Some(TypeError))
    ensures operation.Dict? && PARAMETERS !in operation.entries ==>
      PrepareOperation(operation, locations, defaultBodyType, major) == Prepared(operation, Some(KeyError))
    ensures operation.Dict? && PARAMETERS in operation.entries ==>
      var ps := operation.entries[PARAMETERS];
      && (!ps.List? && !ps.Dict? && !ps.Str? ==>
            PrepareOperation(operation, locations, defaultBodyType, major) == Prepared(operation, Some(TypeError)))
      && (ps.Dict? || ps.Str? ==>
            PrepareOperation(operation, locations, defaultBodyType, major) == Prepared(operation, None))
  {
  }

  /** With no body parameter the operation is left as it is, whatever the
      version. */
  lemma NoBodyParameter(op: map<Value, Value>, items: seq<Value>, locations: map<Value, Value>,
                        defaultBodyType: Value, major: int)
    requires PARAMETERS in op && op[PARAMETERS] == List(items)
    requires forall k :: 0 <= k < |items| ==> PassesOver(items[k], locations)
    ensures PrepareOperation(Dict(op), locations, defaultBodyType, major) == Prepared(Dict(op), None)
  {
    LocateAt(items, |items|, locations);
  }

  /** A mapping without `in`, or with an unhashable one, met before any body
      parameter stops the rewrite with the operation untouched. */
  lemma ScanFailure(op: map<Value, Value>, items: seq<Value>, j: nat, locations: map<Value, Value>,
                    defaultBodyType: Value, major: int)
    requires PARAMETERS in op && op[PARAMETERS] == List(items)
    requires j < |items| && PassesBefore(items, j, locations)
    requires items[j].Dict? && (IN !in items[j].entries || !Hashable(items[j].entries[IN]))
    ensures PrepareOperation(Dict(op), locations, defaultBodyType, major) ==
      Prepared(Dict(op), Some(if IN !in items[j].entries then KeyError else TypeError))
  {
    LocateAt(items, j, locations);
  }

  /** OpenAPI 2: only the first body parameter is touched; it loses its
      `content_type` and every other entry is kept; `consumes` is
      `[content type]` exactly when the effective content type differs from
      the default request body type, and is otherwise left as it was. */
  lemma Oas2BodyParameter(op: map<Value, Value>, items: seq<Value>, j: nat,
                          locations: map<Value, Value>, defaultBodyType: Value, major: int)
    requires major < 3
    requires PARAMETERS in op && op[PARAMETERS] == List(items)
    requires j < |items| && IsBodyParameter(items[j], locations) && PassesBefore(items, j, locations)
    ensures
      var p := PrepareOperation(Dict(op), locations, defaultBodyType, major);
      var param := items[j].entries;
      var contentType := EffectiveContentType(param, locations);
      && p.error == None
      && p.operation.Dict?
      && PARAMETERS in p.operation.entries
      && p.operation.entries[PARAMETERS] == List(items[j := Dict(param - {CONTENT_TYPE})])
      && (contentType != defaultBodyType ==>
            CONSUMES in p.operation.entries && p.operation.entries[CONSUMES] == List([contentType]))
      && (contentType == defaultBodyType ==>
            (CONSUMES in p.operation.entries <==> CONSUMES in op) &&
            (CONSUMES in op ==> p.operation.entries[CONSUMES] == op[CONSUMES]))
      && forall k :: k != PARAMETERS && k != CONSUMES ==>
           (k in p.operation.entries <==> k in op) &&
           (k in op ==> p.operation.entries[k] == op[k])
  {
    LocateAt(items, j, locations);
  }

  /** With a body parameter at `j` (and none before it), the rewrite is the
      version's step applied at `j`. */
  lemma SelectsFirstBody(op: map<Value, Value>, items: seq<Value>, j: nat,
                         locations: map<Value, Value>, defaultBodyType: Value, major: int)
    requires PARAMETERS in op && op[PARAMETERS] == List(items)
    requires j < |items| && IsBodyParameter(items[j], locations) && PassesBefore(items, j, locations)
    ensures PrepareOperation(Dict(op), locations, defaultBodyType, major) ==
      if major < 3 then Prepared(Dict(PrepareOas2(op, items, j, locations, defaultBodyType)), None)
      else PrepareOas3(op, items, j, locations)
  {
    LocateAt(items, j, locations);
  }

  /** OpenAPI 3: the first body parameter becomes `requestBody`, carrying its
      `description` and `required` when present, with a `content` whose only
      key is the effective content type, mapped to the parameter's `schema`,
      `example` and `examples` that were present. */
  lemma Oas3RequestBody(op: map<Value, Value>, items: seq<Value>, j: nat,
                        locations: map<Value, Value>, defaultBodyType: Value, major: int)
    requires major >= 3
    requires PARAMETERS in op && op[PARAMETERS] == List(items)
    requires j < |items| && IsBodyParameter(items[j], locations) && PassesBefore(items, j, locations)
    requires Hashable(EffectiveContentType(items[j].entries, locations))
    ensures
      var p := PrepareOperation(Dict(op), locations, defaultBodyType, major);
      var param := items[j].entries;
      var contentType := EffectiveContentType(param, locations);
      && p.error == None
      && p.operation.Dict?
      && REQUEST_BODY in p.operation.entries && p.operation.entries[REQUEST_BODY].Dict?
      && var body := p.operation.entries[REQUEST_BODY].entries;
      && (forall k :: k in body <==> k == CONTENT || (k in param && (k == DESCRIPTION || k == REQUIRED)))
      && (forall k :: k in body && k != CONTENT ==> body[k] == param[k])
      && body[CONTENT].Dict? && body[CONTENT].entries.Keys == {contentType}
      && body[CONTENT].entries[contentType].Dict?
      && var fields := body[CONTENT].entries[contentType].entries;
      && (forall k :: k in fields <==> k in param && (k == SCHEMA || k == EXAMPLE || k == EXAMPLES))
      && (forall k :: k in fields ==> fields[k] == param[k])
  {
    SelectsFirstBody(op, items, j, locations, defaultBodyType, major);
  }

  /** The OpenAPI 3 step removes exactly the entry at `j` from the list. */
  lemma Oas3StepRemoves(op: map<Value, Value>, items: seq<Value>, j: nat, locations: map<Value, Value>)
    requires j < |items| && IsBodyParameter(items[j], locations) && PassesBefore(items, j, locations)
    requires Hashable(EffectiveContentType(items[j].entries, locations))
    ensures
      var p := PrepareOas3(op, items, j, locations);
      && p.error == None
      && p.operation.Dict?
      && var after := p.operation.entries;
      && (PARAMETERS in after <==> |items| > 1)
      && (PARAMETERS in after ==> after[PARAMETERS] == List(items[..j] + items[j + 1..]))
      && forall k :: k != PARAMETERS && k != REQUEST_BODY ==>
           (k in after <==> k in op) && (k in op ==> after[k] == op[k])
  {
    var param := items[j].entries;
    var remaining := Pop(param - {SCHEMA, EXAMPLE, EXAMPLES}, CONTENT_TYPE).1;
    var mutated := items[j := Dict(remaining)];
    assert mutated[j] == Dict(remaining);
    var rest := RemoveFirst(mutated, Dict(remaining));
    assert rest == items[..j] + items[j + 1..] by {
      forall k | 0 <= k < j
        ensures mutated[k] != Dict(remaining)
      {
        assert PassesOver(items[k], locations);
        assert IN in remaining && remaining[IN] == param[IN];
      }
      RemoveFirstAt(mutated, j, Dict(remaining));
      assert mutated[..j] == items[..j];
      assert mutated[j + 1..] == items[j + 1..];
    }
  }

  /** OpenAPI 3: the body parameter is the only entry removed from
      `parameters`, the others keep their order, `parameters` is deleted
      exactly when nothing is left, and only `parameters` and `requestBody`
      change in the operation. */
  lemma Oas3ParametersRemoved(op: map<Value, Value>, items: seq<Value>, j: nat,
                              locations: map<Value, Value>, defaultBodyType: Value, major: int)
    requires major >= 3
    requires PARAMETERS in op && op[PARAMETERS] == List(items)
    requires j < |items| && IsBodyParameter(items[j], locations) && PassesBefore(items, j, locations)
    requires Hashable(EffectiveContentType(items[j].entries, locations))
    ensures
      var p := PrepareOperation(Dict(op), locations, defaultBodyType, major);
      && p.error == None
      && p.operation.Dict?
      && var after := p.operation.entries;
      && (PARAMETERS in after <==> |items| > 1)
      && (PARAMETERS in after ==> after[PARAMETERS] == List(items[..j] + items[j + 1..]))
      && forall k :: k != PARAMETERS && k != REQUEST_BODY ==>
           (k in after <==> k in op) && (k in op ==> after[k] == op[k])
  {
    SelectsFirstBody(op, items, j, locations, defaultBodyType, major);
    Oas3StepRemoves(op, items, j, locations);
  }

  /** OpenAPI 3 with an unhashable content type: the step stops with a
      TypeError after the parameter has lost its `schema`, `example`,
      `examples` and `content_type`; nothing else has changed yet. */
  lemma Oas3UnhashableContentType(op: map<Value, Value>, items: seq<Value>, j: nat,
                                  locations: map<Value, Value>, defaultBodyType: Value, major: int)
    requires major >= 3
    requires PARAMETERS in op && op[PARAMETERS] == List(items)
    requires j < |items| && IsBodyParameter(items[j], locations) && PassesBefore(items, j, locations)
    requires !Hashable(EffectiveContentType(items[j].entries, locations))
    ensures PrepareOperation(Dict(op), locations, defaultBodyType, major) ==
      Prepared(Dict(op[PARAMETERS := List(items[j := Dict(items[j].entries - {SCHEMA, EXAMPLE, EXAMPLES, CONTENT_TYPE})])]),
               Some(TypeError))
  {
    SelectsFirstBody(op, items, j, locations, defaultBodyType, major);
    var param := items[j].entries;
    assert (param - {SCHEMA, EXAMPLE, EXAMPLES}) - {CONTENT_TYPE} == param - {SCHEMA, EXAMPLE, EXAMPLES, CONTENT_TYPE};
  }

  /** The `doc_info` dictionary handed to the callback; its `arguments`
      entry is rewritten in place. */
  class DocInfo {
    var entries: map<Value, Value>

    constructor (entries: map<Value, Value>)
      ensures this.entries == entries
    {
      this.entries := entries;
    }
  }

  /** The search loop of both branches, run over the mapping entries: it
      stops at the first parameter whose location has a content type, or at
      the first exception the location test raises. */
  method FindBodyParameter(items: seq<Value>, locations: map<Value, Value>) returns (s: Scan)
    ensures s == Locate(items, locations)
  {
    var positions := MappingPositions(items);
    var t := 0;
    while t < |positions|
      invariant 0 <= t <= |positions|
      invariant forall k :: 0 <= k < |items| && (t == |positions| || k < positions[t]) ==>
        PassesOver(items[k], locations)
    {
      var j := positions[t];
      var param := items[j].entries;
      if IN !in param {
        LocateAt(items, j, locations);
        return Failed(KeyError);
      }
      if !Hashable(param[IN]) {
        LocateAt(items, j, locations);
        return Failed(TypeError);
      }
      if param[IN] in locations {
        LocateAt(items, j, locations);
        return Found(j);
      }
      t := t + 1;
      forall k | 0 <= k < |items| && (t == |positions| || k < positions[t])
        ensures PassesOver(items[k], locations)
      {
        if items[k].Dict? && k != j {
          assert k in positions;
        }
      }
    }
    LocateAt(items, |items|, locations);
    s := NotFound;
  }

  /** The OpenAPI 2 step of the loop, on the operation's entries. */
  method RewriteOas2(op: map<Value, Value>, items: seq<Value>, j: nat,
                     locations: map<Value, Value>, defaultBodyType: Value) returns (op': map<Value, Value>)
    requires j < |items| && IsBodyParameter(items[j], locations)
    ensures op' == PrepareOas2(op, items, j, locations, defaultBodyType)
  {
    var param := items[j].entries;
    var (explicit, popped) := Pop(param, CONTENT_TYPE);
    var contentType := Or(explicit, locations[param[IN]]);
    op' := op[PARAMETERS := List(items[j := Dict(popped)])];
    if contentType != defaultBodyType {
      op' := op'[CONSUMES := List([contentType])];
    }
  }

  /** The OpenAPI 3 step of the loop, on the operation's entries; `error`
      is the exception that stopped it, if any. */
  method RewriteOas3(op: map<Value, Value>, items: seq<Value>, j: nat,
                     locations: map<Value, Value>) returns (op': map<Value, Value>, error: Option<Error>)
    requires j < |items| && IsBodyParameter(items[j], locations)
    ensures Prepared(Dict(op'), error) == PrepareOas3(op, items, j, locations)
  {
    var param := items[j].entries;
    var requestBody := RequestBodyBase(param);
    var fields := ContentFields(param);
    var (explicit, popped) := Pop(param - {SCHEMA, EXAMPLE, EXAMPLES}, CONTENT_TYPE);
    var contentType := Or(explicit, locations[param[IN]]);
    var mutated := items[j := Dict(popped)];
    op' := op[PARAMETERS := List(mutated)];
    if !Hashable(contentType) {
      return op', Some(TypeError);
    }
    requestBody := requestBody[CONTENT := Dict(map[contentType := Dict(fields)])];
    op' := op'[REQUEST_BODY := Dict(requestBody)];
    assert mutated[j] == Dict(popped);
    var rest := RemoveFirst(mutated, Dict(popped));
    if rest == [] {
      op' := op' - {PARAMETERS};
    } else {
      op' := op'[PARAMETERS := List(rest)];
    }
    error := None;
  }

  /** `_prepare_arguments_doc(doc, doc_info, api=api, spec=spec)`.
      `locations` is `DEFAULT_LOCATION_CONTENT_TYPE_MAPPING`,
      `defaultBodyType` is `api.DEFAULT_REQUEST_BODY_CONTENT_TYPE`, `major` is
      `spec.openapi_version.major` and `deepupdate` merges the rewritten
      operation into `doc`. */
  method PrepareArgumentsDoc(doc: Value, docInfo: DocInfo, locations: map<Value, Value>,
                             defaultBodyType: Value, major: int,
                             deepupdate: (Value, Value) -> Value) returns (r: Result<Value>)
    modifies docInfo
    ensures !Truthy(Get(old(docInfo.entries), ARGUMENTS, Null)) ==>
      r == Ok(doc) && docInfo.entries == old(docInfo.entries)
    ensures Truthy(Get(old(docInfo.entries), ARGUMENTS, Null)) ==>
      var p := PrepareOperation(old(docInfo.entries)[ARGUMENTS], locations, defaultBodyType, major);
      && docInfo.entries == old(docInfo.entries)[ARGUMENTS := p.operation]
      && r == (if p.error.Some? then Err(p.error.value) else Ok(deepupdate(doc, p.operation)))
  {
    var operation := Get(docInfo.entries, ARGUMENTS, Null);
    if !Truthy(operation) {
      return Ok(doc);
    }
    assert docInfo.entries[ARGUMENTS := operation] == docInfo.entries;
    if !operation.Dict? {
      return Err(TypeError);
    }
    var op := operation.entries;
    if PARAMETERS !in op {
      return Err(KeyError);
    }
    var iter := IterateParameters(op[PARAMETERS]);
    if iter.Err? {
      return Err(iter.error);
    }
    var items := iter.value;
    var scan := FindBodyParameter(items, locations);
    if scan.Failed? {
      return Err(scan.error);
    }
    if scan.Found? {
      var j := scan.index;
      if major < 3 {
        op := RewriteOas2(op, items, j, locations, defaultBodyType);
      } else {
        var error;
        op, error := RewriteOas3(op, items, j, locations);
        if error.Some? {
          docInfo.entries := docInfo.entries[ARGUMENTS := Dict(op)];
          return Err(error.value);
        }
      }
    }
    docInfo.entries := docInfo.entries[ARGUMENTS := Dict(op)];
    r := Ok(deepupdate(doc, Dict(op)));
  }
}
