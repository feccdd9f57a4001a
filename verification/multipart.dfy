/**
 The request handling of the `multipart_arguments` wrapper: the files and
 the form fields of the request are merged into one files dictionary for the
 duration of the parsing call, and the request's own `files` and `form` are
 put back afterwards, whether the call returns or raises.
 */
module MultipartForms {
  import opened PyValues

  /** A multi-valued dictionary (werkzeug's `MultiDict`), as the list of
      `(key, value)` pairs it holds, several of which may share a key. */
  datatype MultiDict = MultiDict(pairs: seq<(string, Value)>)

  /** Whether some pair of `pairs` has key `key`. */
  predicate HasKey(pairs: seq<(string, Value)>, key: string)
  {
    exists i :: 0 <= i < |pairs| && pairs[i].0 == key
  }

  /** `for key in md`: each key once, in the order of its first appearance. */
  function Keys(pairs: seq<(string, Value)>): (ks: seq<string>)
    ensures forall i, j :: 0 <= i < j < |ks| ==> ks[i] != ks[j]
    ensures forall k :: k in ks <==> HasKey(pairs, k)
  {
    if pairs == [] then []
    else
      var init := Keys(pairs[..|pairs| - 1]);
      var k := pairs[|pairs| - 1].0;
      assert forall q :: HasKey(pairs, q) <==> HasKey(pairs[..|pairs| - 1], q) || q == k by {
        forall q | HasKey(pairs, q) && q != k
          ensures HasKey(pairs[..|pairs| - 1], q)
        {
          var i :| 0 <= i < |pairs| && pairs[i].0 == q;
          assert pairs[..|pairs| - 1][i].0 == q;
        }
        forall q | HasKey(pairs[..|pairs| - 1], q)
          ensures HasKey(pairs, q)
        {
          var i :| 0 <= i < |pairs| - 1 && pairs[..|pairs| - 1][i].0 == q;
          assert pairs[i].0 == q;
        }
      }
      if k in init then init else init + [k]
  }

  /** `md[key]`: the first value stored under `key`. */
  function First(pairs: seq<(string, Value)>, key: string): (v: Value)
    requires HasKey(pairs, key)
    ensures exists i :: 0 <= i < |pairs| && pairs[i] == (key, v) &&
                        (forall m :: 0 <= m < i ==> pairs[m].0 != key)
  {
    if pairs[0].0 == key then pairs[0].1
    else
      var i :| 0 <= i < |pairs| && pairs[i].0 == key;
      assert pairs[1..][i - 1].0 == key;
      var v := First(pairs[1..], key);
      ghost var i' :| 0 <= i' < |pairs| - 1 && pairs[1..][i'] == (key, v) &&
        forall m :: 0 <= m < i' ==> pairs[1..][m].0 != key;
      assert pairs[i' + 1] == (key, v);
      v
  }

  /** The first value under a key is the one at its first position. */
  lemma {:induction false} FirstAt(pairs: seq<(string, Value)>, i: nat, key: string)
    requires i < |pairs| && pairs[i].0 == key
    requires forall m :: 0 <= m < i ==> pairs[m].0 != key
    ensures HasKey(pairs, key) && First(pairs, key) == pairs[i].1
  {
    if i > 0 {
      assert pairs[1..][i - 1] == pairs[i];
      FirstAt(pairs[1..], i - 1, key);
    }
  }

  /** The pairs the two loops append for one dictionary:
      `(key, md[key])` for each key, in iteration order. */
  function Entries(md: MultiDict): (r: seq<(string, Value)>)
    ensures |r| == |Keys(md.pairs)|
    ensures forall i :: 0 <= i < |r| ==> r[i] == (Keys(md.pairs)[i], First(md.pairs, Keys(md.pairs)[i]))
  {
    var ks := Keys(md.pairs);
    seq(|ks|, i requires 0 <= i < |ks| => (ks[i], First(md.pairs, ks[i])))
  }

  /** The list handed to `ImmutableMultiDict`: every files entry, then every
      form entry. */
  function Merged(files: MultiDict, form: MultiDict): seq<(string, Value)>
  {
    Entries(files) + Entries(form)
  }

  /** Both loops of the wrapper, building `data`. */
  method MergeFilesAndForm(files: MultiDict, form: MultiDict) returns (data: seq<(string, Value)>)
    ensures |data| == |Keys(files.pairs)| + |Keys(form.pairs)|
    ensures forall i :: 0 <= i < |Keys(files.pairs)| ==>
      data[i] == (Keys(files.pairs)[i], First(files.pairs, Keys(files.pairs)[i]))
    ensures forall i :: 0 <= i < |Keys(form.pairs)| ==>
      data[|Keys(files.pairs)| + i] == (Keys(form.pairs)[i], First(form.pairs, Keys(form.pairs)[i]))
  {
    data := [];
    var fileKeys := Keys(files.pairs);
    for i := 0 to |fileKeys|
      invariant data == Entries(files)[..i]
    {
      data := data + [(fileKeys[i], First(files.pairs, fileKeys[i]))];
    }
    var formKeys := Keys(form.pairs);
    for i := 0 to |formKeys|
      invariant data == Entries(files) + Entries(form)[..i]
    {
      data := data + [(formKeys[i], First(form.pairs, formKeys[i]))];
    }
  }

  /** A key that appears in `a` is looked up in `a`; one that does not is
      looked up in `b`. */
  lemma {:induction false} FirstOfConcat(a: seq<(string, Value)>, b: seq<(string, Value)>, key: string)
    requires HasKey(a, key) || HasKey(b, key)
    ensures HasKey(a + b, key)
    ensures HasKey(a, key) ==> First(a + b, key) == First(a, key)
    ensures !HasKey(a, key) ==> First(a + b, key) == First(b, key)
  {
    if HasKey(a, key) {
      var i :| 0 <= i < |a| && a[i].0 == key && forall m :: 0 <= m < i ==> a[m].0 != key by {
        var v := First(a, key);
      }
      FirstAt(a, i, key);
      assert (a + b)[i] == a[i];
      FirstAt(a + b, i, key);
    } else {
      var v := First(b, key);
      var i :| 0 <= i < |b| && b[i] == (key, v) && forall m :: 0 <= m < i ==> b[m].0 != key;
      assert (a + b)[|a| + i] == b[i];
      forall m | 0 <= m < |a| + i
        ensures (a + b)[m].0 != key
      {
        if m >= |a| {
          assert (a + b)[m] == b[m - |a|];
        }
      }
      FirstAt(a + b, |a| + i, key);
    }
  }

  /** In the entries of a dictionary each key appears once, with the value
      the dictionary gives it. */
  lemma FirstOfEntries(md: MultiDict, key: string)
    requires key in Keys(md.pairs)
    ensures HasKey(Entries(md), key) && First(Entries(md), key) == First(md.pairs, key)
  {
    var ks := Keys(md.pairs);
    var i :| 0 <= i < |ks| && ks[i] == key;
    FirstAt(Entries(md), i, key);
  }

  /** What the parser reads from the merged files dictionary: a key sent as
      a file gets its (first) file; a key sent only as a form field gets its
      (first) field value; no other key is present. */
  lemma MergedLookup(files: MultiDict, form: MultiDict, key: string)
    ensures HasKey(Merged(files, form), key) <==> HasKey(files.pairs, key) || HasKey(form.pairs, key)
    ensures HasKey(files.pairs, key) ==> First(Merged(files, form), key) == First(files.pairs, key)
    ensures !HasKey(files.pairs, key) && HasKey(form.pairs, key) ==>
      First(Merged(files, form), key) == First(form.pairs, key)
  {
    if HasKey(files.pairs, key) {
      FirstOfEntries(files, key);
      FirstOfConcat(Entries(files), Entries(form), key);
    } else if HasKey(form.pairs, key) {
      FirstOfEntries(form, key);
      FirstOfConcat(Entries(files), Entries(form), key);
    }
  }

  /** The request, reduced to the two attributes the wrapper swaps. */
  class Request {
    var files: MultiDict
    var form: Option<MultiDict>

    constructor (files: MultiDict, form: Option<MultiDict>)
      ensures this.files == files && this.form == form
    {
      this.files := files;
      this.form := form;
    }
  }

  /** The `multipart_arguments` wrapper around one call. `parse` stands for
      webargs' parsing followed by the view function; it is given the files
      and form the request holds while it runs. A request without a form
      (`None`) cannot be iterated. The request is put back when the call
      returns or raises an `Exception`; an `Interrupt` escapes the handler
      and leaves the merged files in place. */
  method CallWithMergedFiles(req: Request, parse: (MultiDict, Option<MultiDict>) -> Result<Value>)
    returns (r: Result<Value>)
    modifies req
    ensures old(req.form).None? ==>
      r == Err(TypeError) && req.files == old(req.files) && req.form == old(req.form)
    ensures old(req.form).Some? ==> r == parse(MultiDict(Merged(old(req.files), old(req.form).value)), None)
    ensures old(req.form).Some? && r != Err(Interrupt) ==>
      req.files == old(req.files) && req.form == old(req.form)
    ensures old(req.form).Some? && r == Err(Interrupt) ==>
      req.files == MultiDict(Merged(old(req.files), old(req.form).value)) && req.form == None
  {
    var origFiles := req.files;
    var origForm := req.form;
    if req.form.None? {
      return Err(TypeError);
    }
    var data := MergeFilesAndForm(req.files, req.form.value);
    assert data == Merged(origFiles, origForm.value);
    req.form := None;
    req.files := MultiDict(data);
    r := parse(req.files, req.form);
    if r == Err(Interrupt) {
      // not an `Exception`: the handler does not run
      return r;
    }
    if r.Err? {
      // the exception is re-raised after the request is restored
      req.files := origFiles;
      req.form := origForm;
      return r;
    }
    req.files := origFiles;
    req.form := origForm;
  }
}
