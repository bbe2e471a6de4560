/**
  `ServiceValidator.validate`: a string `body` of the actual response is replaced by its parsed JSON
  or XML form, then every JsonPath expression under `steps` of the expected result must select a
  non-empty list; the first one that does not fails the validation.

  Format detection, parsing and JsonPath evaluation belong to libraries and appear here as functions
  the caller supplies.
 */
module ServiceValidator {
  import opened Wrappers
  import opened Json
  import opened AbstractClient

  /** What `DataUtil.getDataType` reports for a text, as far as validation distinguishes it
      (YAML, CSV, XLSX, PDF and null all count as other). */
  datatype Format = JsonText | XmlText | OtherText

  /** The library functions the validation uses. `DataUtil.toJsonObject` of a text is Gson's
      `fromJson(text, JsonElement.class)` followed by `getAsJsonObject`, so `parse` and `fromJson`
      stand for the same Gson call. They are two parameters because they are used in different places:
      - `parse` is applied only to a body that `getDataType` has already recognised as JSON.
        `getDataType` gives JSON only when Gson has read the trimmed text as an object, so
        `parse` is total;
      - `fromJson` is applied to any string a JsonPath read selects, which may not be JSON at all.
        There the exception is part of the outcome.
      The model does not require the two to agree on texts both accept. */
  datatype Formats = Formats(
    sniff: string -> Format,     // DataUtil.getDataType
    parse: string -> Json,       // DataUtil.toJsonObject of a JSON text
    xmlToJson: string -> Obj,    // DataUtil.xmlToJsonObject
    fromJson: string -> Result<Json>)  // gson.fromJson(text, JsonElement.class): the element, or JsonSyntaxException

  /** `JsonPath.parse(document).read(expression)`: the selected value, or the exception it throws
      (PathNotFoundException for a missing definite path). */
  type PathReader = (Obj, string) -> Result<Json>

  const BodyKey: string := "body"
  const StepsKey: string := "steps"

  /** Raised by `Assert.assertTrue(false)`. */
  const CheckFailed := Exception(Assertion, "expected [true] but found [false]")

  /** The body normalisation: a `body` whose text is JSON is replaced by the parsed object, one whose
      text is XML by its JSON conversion; any other body, and a response without one, stay as they are. */
  function NormalizeBody(f: Formats, actual: Obj): Result<Obj> {
    if !Has(actual, BodyKey) then Ok(actual)
    else
      var text :- AsString(Get(actual, BodyKey).value);
      match f.sniff(text)
      case JsonText =>
        var parsed :- AsObject(f.parse(text));
        Ok(Put(actual, BodyKey, JObj(parsed)))
      case XmlText => Ok(Put(actual, BodyKey, JObj(f.xmlToJson(text))))
      case OtherText => Ok(actual)
  }

  /** Normalisation touches nothing but `body`, keeps the key order, and replaces a JSON or XML body by
      its object form. */
  lemma NormalizeBodyRules(f: Formats, actual: Obj, k: string)
    requires NormalizeBody(f, actual).Ok?
    ensures var r := NormalizeBody(f, actual).value;
      Keys(r) == Keys(actual) &&
      (k != BodyKey ==> Get(r, k) == Get(actual, k)) &&
      (!Has(actual, BodyKey) ==> r == actual)
    ensures Get(actual, BodyKey).Some? && AsString(Get(actual, BodyKey).value).Ok? ==>
      var text := AsString(Get(actual, BodyKey).value).value;
      var r := NormalizeBody(f, actual).value;
      (f.sniff(text) == JsonText ==> f.parse(text).JObj? && Get(r, BodyKey) == Some(f.parse(text))) &&
      (f.sniff(text) == XmlText ==> Get(r, BodyKey) == Some(JObj(f.xmlToJson(text)))) &&
      (f.sniff(text) == OtherText ==> r == actual)
  {
    if Has(actual, BodyKey) {
      var text := AsString(Get(actual, BodyKey).value).value;
      match f.sniff(text)
      case JsonText =>
        PutKeys(actual, BodyKey, f.parse(text));
        PutGet(actual, BodyKey, f.parse(text), k);
        PutGet(actual, BodyKey, f.parse(text), BodyKey);
      case XmlText =>
        PutKeys(actual, BodyKey, JObj(f.xmlToJson(text)));
        PutGet(actual, BodyKey, JObj(f.xmlToJson(text)), k);
        PutGet(actual, BodyKey, JObj(f.xmlToJson(text)), BodyKey);
      case OtherText =>
    }
  }

  /** `expected.getAsJsonArray("steps")` iterated by for-each: a null expected result or a missing
      `steps` throws NullPointerException, a `steps` that is not an array ClassCastException. */
  function StepsOf(expected: Option<Obj>): (r: Result<seq<Json>>)
    ensures r.Ok? <==> expected.Some? && Get(expected.value, StepsKey).Some? && Get(expected.value, StepsKey).value.JArr?
    ensures r.Ok? ==> r.value == Get(expected.value, StepsKey).value.elems
  {
    if expected.None? then Err(Exception(NullPointer, "expected result is null"))
    else
      match Get(expected.value, StepsKey)
      case None => Err(Exception(NullPointer, "steps is null"))
      case Some(JArr(es)) => Ok(es)
      case Some(j) => Err(Exception(ClassCast, ClassName(j) + " cannot be cast to JsonArray"))
  }

  /** `result instanceof Iterable iter && iter.iterator().hasNext()`: only a non-empty list passes. */
  predicate Selects(result: Json) {
    result.JArr? && |result.elems| > 0
  }

  /** The check of one expression: it must be a string, its read must succeed and select a non-empty list. */
  function CheckOne(doc: Obj, read: PathReader, expression: Json): (r: Option<Exception>)
    ensures r.None? <==>
      AsString(expression).Ok? && read(doc, AsString(expression).value).Ok? &&
      Selects(read(doc, AsString(expression).value).value)
  {
    match AsString(expression)
    case Err(e) => Some(e)
    case Ok(path) =>
      match read(doc, path)
      case Err(e) => Some(e)
      case Ok(result) => if Selects(result) then None else Some(CheckFailed)
  }

  /** The failure of the loop over the expressions from index `i` on, if any. */
  function CheckFrom(doc: Obj, read: PathReader, exprs: seq<Json>, i: nat): Option<Exception>
    requires i <= |exprs|
    decreases |exprs| - i
  {
    if i == |exprs| then None
    else if CheckOne(doc, read, exprs[i]).Some? then CheckOne(doc, read, exprs[i])
    else CheckFrom(doc, read, exprs, i + 1)
  }

  function FirstFailure(doc: Obj, read: PathReader, exprs: seq<Json>): Option<Exception> {
    CheckFrom(doc, read, exprs, 0)
  }

  /** The loop of `validate` over the expressions, stopping at the first that throws. */
  method CheckExpressions(doc: Obj, read: PathReader, exprs: seq<Json>) returns (r: Option<Exception>)
    ensures r == FirstFailure(doc, read, exprs)
  {
    var i := 0;
    while i < |exprs|
      invariant i <= |exprs|
      invariant CheckFrom(doc, read, exprs, i) == FirstFailure(doc, read, exprs)
    {
      var path := AsString(exprs[i]);
      if path.Err? {
        return Some(path.error);
      }
      var result := read(doc, path.value);
      if result.Err? {
        return Some(result.error);
      }
      if !(result.value.JArr? && |result.value.elems| > 0) {
        return Some(CheckFailed);
      }
      i := i + 1;
    }
    return None;
  }

  /** The loop fails exactly when some expression fails, and then with the failure of the first one. */
  lemma {:induction false} CheckFromFirst(doc: Obj, read: PathReader, exprs: seq<Json>, i: nat)
    requires i <= |exprs|
    ensures CheckFrom(doc, read, exprs, i).None? <==> forall t :: i <= t < |exprs| ==> CheckOne(doc, read, exprs[t]).None?
    ensures CheckFrom(doc, read, exprs, i).Some? ==>
      exists t :: i <= t < |exprs| && CheckFrom(doc, read, exprs, i) == CheckOne(doc, read, exprs[t]) &&
        forall u :: i <= u < t ==> CheckOne(doc, read, exprs[u]).None?
    decreases |exprs| - i
  {
    if i < |exprs| {
      CheckFromFirst(doc, read, exprs, i + 1);
      if CheckOne(doc, read, exprs[i]).None? && CheckFrom(doc, read, exprs, i + 1).Some? {
        var t :| i + 1 <= t < |exprs| && CheckFrom(doc, read, exprs, i + 1) == CheckOne(doc, read, exprs[t]) &&
          forall u :: i + 1 <= u < t ==> CheckOne(doc, read, exprs[u]).None?;
        assert forall u :: i <= u < t ==> CheckOne(doc, read, exprs[u]).None?;
      }
    }
  }

  /** Once an expression fails, the expressions after it play no part; when none fails, the verdict is
      the verdict of whatever follows. */
  lemma {:induction false} FirstFailureOfAppend(doc: Obj, read: PathReader, exprs: seq<Json>, more: seq<Json>)
    ensures FirstFailure(doc, read, exprs).Some? ==> FirstFailure(doc, read, exprs + more) == FirstFailure(doc, read, exprs)
    ensures FirstFailure(doc, read, exprs).None? ==> FirstFailure(doc, read, exprs + more) == FirstFailure(doc, read, more)
    decreases |exprs|
  {
    if exprs == [] {
      assert exprs + more == more;
    } else {
      assert (exprs + more)[0] == exprs[0];
      assert (exprs + more)[1..] == exprs[1..] + more;
      CheckFromShift(doc, read, exprs, 1);
      CheckFromShift(doc, read, exprs + more, 1);
      FirstFailureOfAppend(doc, read, exprs[1..], more);
    }
  }

  /** The loop from index `i` is the loop over the suffix from index `i`. */
  lemma {:induction false} CheckFromShift(doc: Obj, read: PathReader, exprs: seq<Json>, i: nat)
    requires i <= |exprs|
    ensures CheckFrom(doc, read, exprs, i) == FirstFailure(doc, read, exprs[i..])
    decreases |exprs| - i
  {
    if i < |exprs| {
      CheckFromShift(doc, read, exprs, i + 1);
      assert exprs[i..][0] == exprs[i];
      assert exprs[i..][1..] == exprs[i + 1..];
      CheckFromShift(doc, read, exprs[i..], 1);
    }
  }

  /** What `validate` throws, if anything: normalisation first, then the steps lookup, then the checks
      against the normalised response. */
  function ValidationError(f: Formats, read: PathReader, v: Validator): Option<Exception> {
    match NormalizeBody(f, v.actual)
    case Err(e) => Some(e)
    case Ok(actual) =>
      match StepsOf(v.expected)
      case Err(e) => Some(e)
      case Ok(exprs) => FirstFailure(actual, read, exprs)
  }

  /** Validation passes exactly when the body normalises, `steps` is an array, and every expression
      selects a non-empty list of the normalised response. */
  lemma ValidationPasses(f: Formats, read: PathReader, v: Validator)
    ensures ValidationError(f, read, v).None? <==>
      NormalizeBody(f, v.actual).Ok? && StepsOf(v.expected).Ok? &&
      forall t :: 0 <= t < |StepsOf(v.expected).value| ==>
        CheckOne(NormalizeBody(f, v.actual).value, read, StepsOf(v.expected).value[t]).None?
  {
    if NormalizeBody(f, v.actual).Ok? && StepsOf(v.expected).Ok? {
      CheckFromFirst(NormalizeBody(f, v.actual).value, read, StepsOf(v.expected).value, 0);
    }
  }

  /** `ServiceValidator.validate`: the caller's `actual` object after the call (its body normalised in
      place, when normalisation succeeded) and what was thrown. */
  method Validate(f: Formats, read: PathReader, v: Validator) returns (actual: Obj, r: Option<Exception>)
    ensures r == ValidationError(f, read, v)
    ensures actual == if NormalizeBody(f, v.actual).Ok? then NormalizeBody(f, v.actual).value else v.actual
  {
    actual := v.actual;
    if Has(actual, BodyKey) {
      var text := AsString(Get(actual, BodyKey).value);
      if text.Err? {
        return actual, Some(text.error);
      }
      if f.sniff(text.value) == JsonText {
        var parsed := AsObject(f.parse(text.value));
        if parsed.Err? {
          return actual, Some(parsed.error);
        }
        actual := Put(actual, BodyKey, JObj(parsed.value));
      } else if f.sniff(text.value) == XmlText {
        actual := Put(actual, BodyKey, JObj(f.xmlToJson(text.value)));
      }
    }
    var steps := StepsOf(v.expected);
    if steps.Err? {
      return actual, Some(steps.error);
    }
    r := CheckExpressions(actual, read, steps.value);
  }
}
