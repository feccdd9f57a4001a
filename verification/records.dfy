/**
 The parameter record that the `arguments` and `multipart_arguments`
 decorators put in a view function's documentation. The schema itself is
 stored as is; it is replaced later by a reference or by its JSON form.
 */
module ParameterRecords {
  import opened PyValues

  const IN: Value := Str("in")
  const REQUIRED: Value := Str("required")
  const SCHEMA: Value := Str("schema")
  const CONTENT_TYPE: Value := Str("content_type")
  const EXAMPLE: Value := Str("example")
  const EXAMPLES: Value := Str("examples")
  const DESCRIPTION: Value := Str("description")

  /** The location `multipart_arguments` always documents. */
  const FILES_LOCATION: Value := Str("files")
  /** The default location of `arguments`. */
  const DEFAULT_LOCATION: Value := Str("json")

  /** Every key a parameter record may hold. */
  const RECORD_KEYS: set<Value> := {IN, REQUIRED, SCHEMA, CONTENT_TYPE, EXAMPLE, EXAMPLES, DESCRIPTION}

  /** Adds `k: v` to `d` when `v is not None`. */
  function PutIfGiven(d: map<Value, Value>, k: Value, v: Value): map<Value, Value>
  {
    if v != Null then d[k := v] else d
  }

  /** The record: `in`, `required` and `schema` always, each optional key
      only when its argument is not `None`, and nothing else. */
  function ParameterRecord(location: Value, required: Value, schema: Value,
                           contentType: Value, example: Value, examples: Value,
                           description: Value): (r: map<Value, Value>)
    ensures r.Keys <= RECORD_KEYS
    ensures IN in r && r[IN] == location
    ensures REQUIRED in r && r[REQUIRED] == required
    ensures SCHEMA in r && r[SCHEMA] == schema
    ensures CONTENT_TYPE in r <==> contentType != Null
    ensures CONTENT_TYPE in r ==> r[CONTENT_TYPE] == contentType
    ensures EXAMPLE in r <==> example != Null
    ensures EXAMPLE in r ==> r[EXAMPLE] == example
    ensures EXAMPLES in r <==> examples != Null
    ensures EXAMPLES in r ==> r[EXAMPLES] == examples
    ensures DESCRIPTION in r <==> description != Null
    ensures DESCRIPTION in r ==> r[DESCRIPTION] == description
  {
    var p := map[IN := location, REQUIRED := required, SCHEMA := schema];
    var p := PutIfGiven(p, CONTENT_TYPE, contentType);
    var p := PutIfGiven(p, EXAMPLE, example);
    var p := PutIfGiven(p, EXAMPLES, examples);
    PutIfGiven(p, DESCRIPTION, description)
  }

  /** The record built by `arguments`; `location` defaults to `"json"`,
      `required` to `True`, the other options to `None`. */
  function ArgumentsRecord(schema: Value, location: Value := DEFAULT_LOCATION,
                           contentType: Value := Null, required: Value := Bool(true),
                           description: Value := Null, example: Value := Null,
                           examples: Value := Null): (r: map<Value, Value>)
    ensures IN in r && r[IN] == location
  {
    ParameterRecord(location, required, schema, contentType, example, examples, description)
  }

  /** The record built by `multipart_arguments`: its location is always
      `"files"`, whatever the options. */
  function MultipartRecord(schema: Value, contentType: Value := Null,
                           required: Value := Bool(true), description: Value := Null,
                           example: Value := Null, examples: Value := Null): (r: map<Value, Value>)
    ensures IN in r && r[IN] == FILES_LOCATION
    ensures r == ArgumentsRecord(schema, FILES_LOCATION, contentType, required, description, example, examples)
  {
    ParameterRecord(FILES_LOCATION, required, schema, contentType, example, examples, description)
  }

  /** The status documented for a validation error: the
      `error_status_code` option when given, else `default`. */
  function ErrorStatusCode(kwargs: map<string, Value>, default: Value): (r: Value)
    ensures "error_status_code" in kwargs ==> r == kwargs["error_status_code"]
    ensures "error_status_code" !in kwargs ==> r == default
  {
    if "error_status_code" in kwargs then kwargs["error_status_code"] else default
  }
}
