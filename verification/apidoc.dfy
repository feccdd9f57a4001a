/**
 How the `arguments` and `multipart_arguments` decorators record a parameter
 in a view function's `_apidoc` dictionary: the wrapper gets a deep copy of
 the wrapped function's documentation, the new record is appended to
 `_apidoc["arguments"]["parameters"]`, and the validation error status is
 documented under `_apidoc["arguments"]["responses"]`.
 */
module ArgumentDocs {
  import opened PyValues
  import opened ParameterRecords

  const ARGUMENTS: Value := Str("arguments")
  const PARAMETERS: Value := Str("parameters")
  const RESPONSES: Value := Str("responses")

  /** The value under `k`, or `default` when `d` has no such key. */
  function Get(d: map<Value, Value>, k: Value, default: Value): Value
  {
    if k in d then d[k] else default
  }

  /** A function's documentation, an empty dict when it has none. */
  function ApidocOrEmpty(apidoc: Option<Value>): Value
  {
    if apidoc.Some? then apidoc.value else Dict(map[])
  }

  /** The name of an HTTP status code, looked up in the table of status
      names (given as a map); an unknown code is a ValueError. */
  function StatusName(code: Value, statusNames: map<int, string>): (r: Result<string>)
    ensures r.Ok? <==> code.Int? && code.i in statusNames
    ensures r.Ok? ==> r.value == statusNames[code.i]
    ensures r.Err? ==> r.error == ValueError
  {
    if code.Int? && code.i in statusNames then Ok(statusNames[code.i]) else Err(ValueError)
  }

  /** `container[code] = v` for an integer `code`: a dict gets the key; a list
      accepts an index in range (negative ones counting from the end); any
      other value does not support item assignment. */
  function SetItem(container: Value, code: int, v: Value): (r: Result<Value>)
    ensures container.Dict? ==> r == Ok(Dict(container.entries[Int(code) := v]))
    ensures container.List? ==> (r.Ok? <==> -|container.items| <= code < |container.items|)
    ensures container.List? && 0 <= code < |container.items| ==>
      r == Ok(List(container.items[code := v]))
    ensures container.List? && -|container.items| <= code < 0 ==>
      r == Ok(List(container.items[code + |container.items| := v]))
    ensures container.List? && r.Err? ==> r.error == IndexError
    ensures !container.Dict? && !container.List? ==> r == Err(TypeError)
  {
    match container
    case Dict(m) => Ok(Dict(m[Int(code) := v]))
    case List(xs) =>
      if 0 <= code < |xs| then Ok(List(xs[code := v]))
      else if -|xs| <= code < 0 then Ok(List(xs[code + |xs| := v]))
      else Err(IndexError)
    case _ => Err(TypeError)
  }

  /** The parameters documented so far: `_apidoc["arguments"]["parameters"]`,
      or no parameter when either level is missing. */
  function DocumentedParameters(apidoc: Value): seq<Value>
  {
    if apidoc.Dict? then
      var docs := Get(apidoc.entries, ARGUMENTS, Dict(map[]));
      if docs.Dict? then
        var params := Get(docs.entries, PARAMETERS, List([]));
        if params.List? then params.items else []
      else []
    else []
  }

  /** The `_apidoc["arguments"]` entry, an empty dict when missing. */
  function ArgumentsEntry(apidoc: map<Value, Value>): Value
  {
    Get(apidoc, ARGUMENTS, Dict(map[]))
  }

  /** Whether the documentation has the shape the decorator can update: a
      dict, whose `arguments` entry (if any) is a dict, whose `parameters`
      entry (if any) is a list. */
  predicate Appendable(apidoc: Value)
  {
    && apidoc.Dict?
    && ArgumentsEntry(apidoc.entries).Dict?
    && Get(ArgumentsEntry(apidoc.entries).entries, PARAMETERS, List([])).List?
  }

  /** Whether `responses[code] = name` succeeds on the `responses` entry. */
  predicate ResponsesAssignable(responses: Value, code: int)
  {
    responses.Dict? || (responses.List? && -|responses.items| <= code < |responses.items|)
  }

  /** The documentation after one decoration, computed in the order Python
      runs the statements: the append happens before `HTTPStatus(code)` is
      evaluated, which happens before `responses` is looked up. */
  function RecordArgument(apidoc: Value, record: Value, code: Value,
                          statusNames: map<int, string>): (r: Result<Value>)
    // The decoration succeeds exactly when the documentation has the right
    // shape, the code is a known status and `responses` accepts it.
    ensures r.Ok? <==>
      && Appendable(apidoc)
      && StatusName(code, statusNames).Ok?
      && ResponsesAssignable(Get(ArgumentsEntry(apidoc.entries).entries, RESPONSES, Dict(map[])), code.i)
    ensures !Appendable(apidoc) ==> r == Err(AttributeError)
    ensures Appendable(apidoc) && StatusName(code, statusNames).Err? ==> r == Err(ValueError)
    // Exactly one record is appended at the end; earlier ones are kept.
    ensures r.Ok? ==> DocumentedParameters(r.value) == DocumentedParameters(apidoc) + [record]
    ensures r.Ok? ==> r.value.Dict? && ARGUMENTS in r.value.entries && r.value.entries[ARGUMENTS].Dict?
    // Nothing else at the top level changes.
    ensures r.Ok? ==> forall k :: k != ARGUMENTS ==>
      (k in r.value.entries <==> k in apidoc.entries) &&
      (k in apidoc.entries ==> r.value.entries[k] == apidoc.entries[k])
    // Inside `arguments`, only `parameters` and `responses` change.
    ensures r.Ok? ==>
      var before := ArgumentsEntry(apidoc.entries).entries;
      var after := r.value.entries[ARGUMENTS].entries;
      && PARAMETERS in after && RESPONSES in after
      && forall k :: k != PARAMETERS && k != RESPONSES ==>
           (k in after <==> k in before) && (k in before ==> after[k] == before[k])
    // A dict of responses (or a missing one) gets `code: name` and keeps
    // every other entry.
    ensures r.Ok? && Get(ArgumentsEntry(apidoc.entries).entries, RESPONSES, Dict(map[])).Dict? ==>
      var before := Get(ArgumentsEntry(apidoc.entries).entries, RESPONSES, Dict(map[])).entries;
      var after := r.value.entries[ARGUMENTS].entries[RESPONSES];
      after == Dict(before[code := Str(statusNames[code.i])])
  {
    if !apidoc.Dict? then Err(AttributeError)
    else
      var (docs, top) := SetDefault(apidoc.entries, ARGUMENTS, Dict(map[]));
      if !docs.Dict? then Err(AttributeError)
      else
        var (params, _) := SetDefault(docs.entries, PARAMETERS, List([]));
        if !params.List? then Err(AttributeError)
        else
          var docs1 := docs.entries[PARAMETERS := List(params.items + [record])];
          var name := StatusName(code, statusNames);
          if name.Err? then Err(name.error)
          else
            var (responses, docs2) := SetDefault(docs1, RESPONSES, Dict(map[]));
            var responses1 := SetItem(responses, code.i, Str(name.value));
            if responses1.Err? then Err(responses1.error)
            else Ok(Dict(top[ARGUMENTS := Dict(docs2[RESPONSES := responses1.value])]))
  }

  /** A view function object with its `_apidoc` attribute (`None` when the
      function has none). */
  class ViewFunction {
    var apidoc: Option<Value>

    constructor (apidoc: Option<Value>)
      ensures this.apidoc == apidoc
    {
      this.apidoc := apidoc;
    }
  }

  /** The part of the decorator shared by `arguments` and
      `multipart_arguments`: a fresh wrapper whose documentation is a copy of
      the wrapped function's with `record` added. The wrapped function's own
      documentation is left as it was. */
  method Decorate(func: ViewFunction, record: map<Value, Value>, code: Value,
                  statusNames: map<int, string>) returns (r: Result<ViewFunction>)
    ensures func.apidoc == old(func.apidoc)
    ensures r.Err? <==> RecordArgument(ApidocOrEmpty(func.apidoc), Dict(record), code, statusNames).Err?
    ensures r.Err? ==> r.error == RecordArgument(ApidocOrEmpty(func.apidoc), Dict(record), code, statusNames).error
    ensures r.Ok? ==> fresh(r.value)
    ensures r.Ok? ==> r.value.apidoc == Some(RecordArgument(ApidocOrEmpty(func.apidoc), Dict(record), code, statusNames).value)
  {
    // functools.wraps copies the wrapped function's attributes, then the
    // wrapper's documentation is replaced by a deep copy of it
    var wrapper := new ViewFunction(func.apidoc);
    var apidoc := ApidocOrEmpty(wrapper.apidoc);
    if !apidoc.Dict? {
      return Err(AttributeError);
    }
    var (docs, top) := SetDefault(apidoc.entries, ARGUMENTS, Dict(map[]));
    if !docs.Dict? {
      return Err(AttributeError);
    }
    var docsEntries := docs.entries;
    var params := SetDefault(docsEntries, PARAMETERS, List([])).0;
    if !params.List? {
      return Err(AttributeError);
    }
    docsEntries := docsEntries[PARAMETERS := List(params.items + [Dict(record)])];
    var name := StatusName(code, statusNames);
    if name.Err? {
      return Err(name.error);
    }
    var (responses, withResponses) := SetDefault(docsEntries, RESPONSES, Dict(map[]));
    var stored := SetItem(responses, code.i, Str(name.value));
    if stored.Err? {
      return Err(stored.error);
    }
    docsEntries := withResponses[RESPONSES := stored.value];
    wrapper.apidoc := Some(Dict(top[ARGUMENTS := Dict(docsEntries)]));
    r := Ok(wrapper);
  }

  /** `arguments(schema, ...)` applied to `func`. `defaultStatus` is the
      parser's `DEFAULT_VALIDATION_STATUS`. The parsing wrapper added by
      webargs' `use_args` keeps the documentation and is not modelled. */
  method Arguments(func: ViewFunction, schema: Value, defaultStatus: Value,
                   statusNames: map<int, string>,
                   location: Value := DEFAULT_LOCATION, contentType: Value := Null,
                   required: Value := Bool(true), description: Value := Null,
                   example: Value := Null, examples: Value := Null,
                   kwargs: map<string, Value> := map[]) returns (r: Result<ViewFunction>)
    ensures func.apidoc == old(func.apidoc)
    ensures r.Ok? <==>
      RecordArgument(ApidocOrEmpty(func.apidoc),
                     Dict(ArgumentsRecord(schema, location, contentType, required, description, example, examples)),
                     ErrorStatusCode(kwargs, defaultStatus), statusNames).Ok?
    ensures r.Ok? ==> fresh(r.value)
    ensures r.Ok? ==>
      && r.value.apidoc.Some?
      && DocumentedParameters(r.value.apidoc.value) ==
           DocumentedParameters(ApidocOrEmpty(func.apidoc))
           + [Dict(ArgumentsRecord(schema, location, contentType, required, description, example, examples))]
    ensures r.Ok? ==>
      var code := ErrorStatusCode(kwargs, defaultStatus);
      r.value.apidoc == Some(RecordArgument(ApidocOrEmpty(func.apidoc),
        Dict(ArgumentsRecord(schema, location, contentType, required, description, example, examples)),
        code, statusNames).value)
  {
    var record := ArgumentsRecord(schema, location, contentType, required, description, example, examples);
    var code := ErrorStatusCode(kwargs, defaultStatus);
    r := Decorate(func, record, code, statusNames);
  }

  /** `multipart_arguments(schema, ...)` applied to `func`: the same
      documentation with location `"files"`. The request handling of its
      wrapper is `MultipartForms.CallWithMergedFiles`. */
  method MultipartArguments(func: ViewFunction, schema: Value, defaultStatus: Value,
                            statusNames: map<int, string>,
                            contentType: Value := Null, required: Value := Bool(true),
                            description: Value := Null, example: Value := Null,
                            examples: Value := Null,
                            kwargs: map<string, Value> := map[]) returns (r: Result<ViewFunction>)
    ensures func.apidoc == old(func.apidoc)
    ensures r.Ok? <==>
      RecordArgument(ApidocOrEmpty(func.apidoc),
                     Dict(MultipartRecord(schema, contentType, required, description, example, examples)),
                     ErrorStatusCode(kwargs, defaultStatus), statusNames).Ok?
    ensures r.Ok? ==> fresh(r.value)
    ensures r.Ok? ==>
      && r.value.apidoc.Some?
      && DocumentedParameters(r.value.apidoc.value) ==
           DocumentedParameters(ApidocOrEmpty(func.apidoc))
           + [Dict(MultipartRecord(schema, contentType, required, description, example, examples))]
    ensures r.Ok? ==>
      r.value.apidoc == Some(RecordArgument(ApidocOrEmpty(func.apidoc),
        Dict(MultipartRecord(schema, contentType, required, description, example, examples)),
        ErrorStatusCode(kwargs, defaultStatus), statusNames).value)
  {
    var record := MultipartRecord(schema, contentType, required, description, example, examples);
    var code := ErrorStatusCode(kwargs, defaultStatus);
    r := Decorate(func, record, code, statusNames);
  }
}
