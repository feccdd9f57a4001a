# flask-smorest argument documentation, modelled in Dafny

This project models the argument-documentation logic of flask-smorest's
`ArgumentsMixin` (`flask_smorest/arguments.py`), the part of a Flask
blueprint that turns `@blp.arguments(...)` and
`@blp.multipart_arguments(...)` options into OpenAPI documentation. It has
four parts:

- **Parameter records** (`records.dfy`, module `ParameterRecords`). Each
  decorator builds a dictionary that always has `in`, `required` and
  `schema`. It has `content_type`, `example`, `examples` and `description`
  only when that option is not `None`. `multipart_arguments` always uses
  location `"files"`; `arguments` defaults to `"json"`.
- **Documentation on the wrapper** (`apidoc.dfy`, module `ArgumentDocs`).
  The decorator returns a fresh wrapper (`ViewFunction`). Its `_apidoc` is a
  copy of the wrapped function's `_apidoc`, with the record appended to
  `arguments.parameters` and the validation error status named under
  `arguments.responses`. The wrapped function's `_apidoc` stays as it was.
  The error paths are modelled in the order Python runs the statements
  (AttributeError, then ValueError from `HTTPStatus`, then the failed item
  assignment).
- **`_prepare_arguments_doc`** (`prepare.dfy`, module `PrepareDoc`). The
  `arguments` entry of `doc_info` (a `DocInfo` object) is rewritten in place.
  The first mapping parameter whose `in` is a key of the location to
  content-type map is the body parameter.
  - With OpenAPI 2, it loses `content_type`, and `consumes` is set when the
    effective content type is not the default request body type.
  - With OpenAPI 3, it becomes the Request Body Object (section 4.7.13 of the
    OpenAPI Specification 3.0.3) and is removed from `parameters`, which is
    deleted once empty.
  - The rewritten operation is merged into `doc` by `deepupdate`.
  - A `KeyError` or `TypeError` raised part-way is modelled. When an OpenAPI 3
    content type turns out to be unhashable, the parameter has already lost
    `schema`, `example`, `examples` and `content_type`; it keeps its other
    entries, such as `in`, `required` and `description`, and stays in
    `parameters`.
- **The multipart wrapper** (`multipart.dfy`, module `MultipartForms`). One
  list of `(key, value)` pairs is built: each files key with its first file,
  then each form key with its first value. It replaces `request.files`
  (with `request.form` set to `None`) while the parser and view run. Both
  attributes are put back when the call returns or raises an `Exception`. A
  `BaseException` that is not an `Exception` (such as `KeyboardInterrupt`)
  bypasses the handler and leaves the merged files in place.
  `MergedLookup` describes single-value lookups (`files[key]`) in the merged
  dictionary: a key present as a file gets its first file, even if a form
  field has the same key, and a key present only in the form gets its first
  form value. The merged dictionary keeps both entries of a key sent both as
  a file and as a form field, so a lookup of all values (`getlist`) sees
  both.

Python values are modelled by `PyValues.Value`: `None`, booleans, integers,
strings, lists, dicts, and other objects. The module also models Python
truthiness, hashability and the exceptions involved. Things outside this
code are parameters of the model:
- webargs' parsing together with the view call;
- `deepupdate`;
- the `HTTPStatus` name table;
- the parser's `DEFAULT_VALIDATION_STATUS`;
- `DEFAULT_LOCATION_CONTENT_TYPE_MAPPING`;
- `DEFAULT_REQUEST_BODY_CONTENT_TYPE`;
- the OpenAPI major version.

## Model

| member | source | states |
|---|---|---|
| `ParameterRecords.ParameterRecord` | flask_smorest/arguments.py:138-150 | the record always holds `in`, `required`, `schema` with the given values; each of `content_type`, `example`, `examples`, `description` is present exactly when its argument is not `None`, with that value; no other key appears |
| `ParameterRecords.ArgumentsRecord` | flask_smorest/arguments.py:94-150 | the `arguments` record documents the given location, `"json"` by default |
| `ParameterRecords.MultipartRecord` | flask_smorest/arguments.py:17-42 | the `multipart_arguments` record always documents location `"files"` and otherwise equals the `arguments` record with the same options |
| `ParameterRecords.ErrorStatusCode` | flask_smorest/arguments.py:152-154 | the documented status is `kwargs["error_status_code"]` when given, otherwise the parser's default validation status |
| `ArgumentDocs.StatusName` | flask_smorest/arguments.py:166-168 | `HTTPStatus(code).name` succeeds exactly for an integer code in the status table, giving its name; any other code raises ValueError |
| `ArgumentDocs.SetItem` | flask_smorest/arguments.py:166 | `responses[code] = name` adds the key to a dict, replaces an in-range element of a list (negative indices from the end), raises IndexError for a list index out of range and TypeError for any other value |
| `ArgumentDocs.RecordArgument` | flask_smorest/arguments.py:163-168 | decorating succeeds exactly when `_apidoc`, `arguments` and `parameters` have dict/dict/list shape, the code is a known status and `responses` accepts it; then exactly one record is appended at the end of the parameters with earlier ones kept, a dict of responses gets `code: name` with its other entries kept, and no other entry of `_apidoc` or of `arguments` changes; shape errors give AttributeError, an unknown status ValueError |
| `ArgumentDocs.Decorate` | flask_smorest/arguments.py:161-168 | the wrapper is a fresh object whose `_apidoc` is the copied documentation updated as above (an empty dict when the function had none); the wrapped function's `_apidoc` is unchanged; it fails exactly when the update fails |
| `ArgumentDocs.Arguments` | flask_smorest/arguments.py:94-175 | decorating with `arguments` appends the `arguments` record to the copied parameters and documents `ErrorStatusCode(kwargs, default)`; the wrapped function keeps its documentation |
| `ArgumentDocs.MultipartArguments` | flask_smorest/arguments.py:17-92 | decorating with `multipart_arguments` appends the `"files"` record to the copied parameters and documents the error status; the wrapped function keeps its documentation |
| `PrepareDoc.MappingPositions` | flask_smorest/arguments.py:182-184 | the filter keeps exactly the mapping entries, each once, in their original order |
| `PrepareDoc.IterateParameters` | flask_smorest/arguments.py:182-183 | iterating `parameters` can yield a mapping only when it is a list, and then yields its items |
| `PrepareDoc.LocateFrom` | flask_smorest/arguments.py:186-202 | the search selects an entry only if it is a mapping whose hashable `in` is a key of the location map, and every entry before it is passed over (so a non-mapping entry is never selected); finding none means every entry is passed over; an error is raised by the first mapping lacking `in` (KeyError) or with an unhashable `in` (TypeError) |
| `PrepareDoc.SkipPassing` | flask_smorest/arguments.py:187-188 | entries the loop passes over do not change where the search ends |
| `PrepareDoc.LocateAt` | flask_smorest/arguments.py:187-198 | the search ends at the first entry it does not pass over: found there, failed there, or not found when there is none |
| `PrepareDoc.FindBodyParameter` | flask_smorest/arguments.py:182-202 | the loop over the filtered parameters, with its break, returns the search outcome above |
| `PrepareDoc.RemoveFirst` | flask_smorest/arguments.py:220 | `list.remove` shortens the list by one |
| `PrepareDoc.RemoveFirstAt` | flask_smorest/arguments.py:220 | when no earlier element equals the removed value, `remove` takes out exactly the element at its position and keeps the rest in order |
| `PrepareDoc.RequestBodyBase` | flask_smorest/arguments.py:203-207 | the request body starts with exactly the `description` and `required` entries the parameter has |
| `PrepareDoc.ContentFields` | flask_smorest/arguments.py:208-212 | the media type holds exactly the `schema`, `example` and `examples` entries the parameter has |
| `PrepareDoc.PrepareOas2` | flask_smorest/arguments.py:188-197 | OpenAPI 2 step at the body parameter: that entry loses exactly `content_type`; `consumes`, if present afterwards, is `[effective content type]` or its previous value; no other key of the operation changes |
| `PrepareDoc.PrepareOas3` | flask_smorest/arguments.py:201-222 | OpenAPI 3 step at the body parameter: it fails exactly when the effective content type is unhashable, and then with TypeError; otherwise the operation has a `requestBody` |
| `PrepareDoc.PrepareOperation` | flask_smorest/arguments.py:180-223 | the rewrite of a truthy `arguments` entry: it can only raise TypeError or KeyError, the result is a dict exactly when the entry was one, and the only failure that leaves a changed operation is the OpenAPI 3 one |
| `PrepareDoc.OperationEarlyExits` | flask_smorest/arguments.py:181-183 | an entry that is not a dict raises TypeError; a dict without `parameters` raises KeyError; a `parameters` value that cannot be iterated raises TypeError; a dict or string `parameters` yields no mapping and leaves the operation unchanged with no error; in every case the operation is not modified |
| `PrepareDoc.RewriteOas2` | flask_smorest/arguments.py:186-198 | the in-place OpenAPI 2 step is proved equal to `PrepareOas2`; through `SelectsFirstBody`, `Oas2BodyParameter` gives its effect: only `content_type` is popped, `consumes` is set exactly when the effective content type differs from the default |
| `PrepareDoc.RewriteOas3` | flask_smorest/arguments.py:200-223 | the in-place OpenAPI 3 step is proved equal to `PrepareOas3`; `Oas3StepRemoves`, `Oas3RequestBody` and `Oas3UnhashableContentType` give its effect: the request body is built, exactly the selected entry leaves the list, an empty list is deleted, and an unhashable content type raises TypeError |
| `PrepareDoc.SelectsFirstBody` | flask_smorest/arguments.py:185-223 | when a body parameter exists, the rewrite is the version's step applied to the first one: OpenAPI 2 when the major version is below 3, OpenAPI 3 otherwise |
| `PrepareDoc.NoBodyParameter` | flask_smorest/arguments.py:186-223 | with no body parameter, the operation is left unchanged and no error is raised, for either version |
| `PrepareDoc.ScanFailure` | flask_smorest/arguments.py:188 | a mapping without `in` (KeyError) or with an unhashable `in` (TypeError) met before any body parameter stops the rewrite, leaving the operation unchanged |
| `PrepareDoc.Oas2BodyParameter` | flask_smorest/arguments.py:186-198 | OpenAPI 2: only the first body parameter changes, and it loses just `content_type`; `consumes` becomes `[ct]` exactly when the effective `ct` (the truthy explicit one, else the location's default) differs from the default request body type, otherwise it keeps its previous value; no other key changes |
| `PrepareDoc.Oas3RequestBody` | flask_smorest/arguments.py:201-218 | OpenAPI 3: `requestBody` holds `content` plus exactly the parameter's `description`/`required`; `content` has the single key `ct`, which maps to exactly the parameter's `schema`/`example`/`examples` |
| `PrepareDoc.Oas3StepRemoves` | flask_smorest/arguments.py:218-223 | the OpenAPI 3 step removes exactly the selected entry from the list; the list is deleted exactly when it becomes empty; nothing else except `requestBody` changes |
| `PrepareDoc.Oas3ParametersRemoved` | flask_smorest/arguments.py:219-223 | OpenAPI 3: only the body parameter leaves `parameters`, the others keep their order, `parameters` is deleted exactly when it held one entry, and only `parameters` and `requestBody` change |
| `PrepareDoc.Oas3UnhashableContentType` | flask_smorest/arguments.py:208-217 | OpenAPI 3 with an unhashable content type: TypeError, after the parameter has lost `schema`, `example`, `examples` and `content_type`; nothing else has changed |
| `PrepareDoc.PrepareArgumentsDoc` | flask_smorest/arguments.py:177-225 | without a truthy `arguments` entry, `doc` is returned and `doc_info` is unchanged; otherwise `doc_info["arguments"]` becomes the rewritten operation (also when an exception interrupts the rewrite), and the result is that exception or `deepupdate(doc, operation)` |
| `MultipartForms.Keys` | flask_smorest/arguments.py:61 | iterating a multi-dict yields each key exactly once, and only keys it holds |
| `MultipartForms.First` | flask_smorest/arguments.py:62 | `md[key]` is the value of the first pair with that key |
| `MultipartForms.FirstAt` | flask_smorest/arguments.py:62 | the value at a key's first position is what `md[key]` returns |
| `MultipartForms.Entries` | flask_smorest/arguments.py:61-64 | one loop appends `(key, md[key])` for every key, in iteration order |
| `MultipartForms.MergeFilesAndForm` | flask_smorest/arguments.py:58-64 | the merged list is as long as the number of files keys plus the number of form keys; all files entries come first, in iteration order, then all form entries |
| `MultipartForms.FirstOfConcat` | flask_smorest/arguments.py:66 | in the dictionary built from the merged list, a key present in the files part is looked up there; any other key is looked up in the form part |
| `MultipartForms.FirstOfEntries` | flask_smorest/arguments.py:61-66 | each dictionary's entries give every key the value that dictionary gives it |
| `MultipartForms.MergedLookup` | flask_smorest/arguments.py:58-66 | during the call, `files` holds exactly the keys of the original files and form; for the single-value lookup `files[key]`, a files key gives its first file and a key only in the form gives its first form value |
| `MultipartForms.CallWithMergedFiles` | flask_smorest/arguments.py:54-78 | the parser runs with the merged files and `form = None`; its result or exception is passed on; `files` and `form` are restored on return and on every `Exception`, while an interrupt (a `BaseException` that is not an `Exception`) leaves the merged files and `form = None` in place; a request whose form is `None` raises TypeError before anything is swapped |

## Left out

- Dictionary key order is not modelled. Python dicts keep insertion order, but the model's maps are unordered. So the order of keys in a record, a request body or an operation is not captured.
- Python's cross-type equality (`1 == True`) is not modelled, and neither are mapping types other than `dict`. Value equality is structural.
- webargs' `use_args` parsing and validation (flask_smorest/arguments.py:49-51, 171-173) are foreign calls. In the multipart wrapper they and the view call are the `parse` parameter. Changes the view itself might make to the request are not modelled. The outer `use_args` wrapper returned by `arguments` is not modelled; the model returns the documented wrapper, which that wrapper copies its `_apidoc` from.
- The decorators are applied in one call (`Arguments(func, schema, ...)`) instead of returning a decorator. The outer call only builds the record and reads `kwargs`, which has no side effects.
- `deepupdate` from `flask_smorest/utils.py` is not part of this model; it is the `deepupdate` parameter of `PrepareArgumentsDoc`.
- These external values are parameters:
  - `http.HTTPStatus` names;
  - webargs' `DEFAULT_VALIDATION_STATUS`;
  - `DEFAULT_LOCATION_CONTENT_TYPE_MAPPING`;
  - `DEFAULT_REQUEST_BODY_CONTENT_TYPE`;
  - `spec.openapi_version.major`.

  `get_default_request()` becomes the `Request` argument.
- `functools.wraps` is modelled only for the `_apidoc` attribute it copies. `deepcopy` is implicit: model values are immutable, so the wrapper's documentation never shares state with the wrapped function's.
- Iterating a `parameters` value that is not a list: dicts and strings yield no mapping; every other value is treated as not iterable. `Object` stands for non-iterable objects.
- `tests/test_api.py` (the `Api` registration facade) is not part of this model.
