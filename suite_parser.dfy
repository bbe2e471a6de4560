/**
  `test/testng/SuiteParser`: the suite choice inside `parse`. When the suite file holds a `suites`
  array, the suite wanted is the `suite` system property, or else the first suite's name; the first
  suite carrying exactly that name is handed to TestNG, and no such suite is an error. Without a
  `suites` array the original stream is parsed as it is. Reading the file and TestNG's YAML parsing
  stay outside; the document and the property are parameters.
 */
module SuiteParser {
  import opened Wrappers
  import opened Json

  /** What `parse` hands to TestNG's YAML parser. */
  datatype Parsed = SelectedSuite(suite: Obj) | OriginalStream

  /** `suite.getAsJsonObject().get("name").getAsString()`. */
  function NameOf(suite: Json): Result<string> {
    var o :- AsObject(suite);
    var n :- Field(o, "name");
    AsString(n)
  }

  /** `suiteArray.get(0)`, then its name. */
  function FirstName(suites: seq<Json>): Result<string> {
    if suites == [] then Err(Exception(IndexOutOfBounds, "Index 0 out of bounds for length 0"))
    else NameOf(suites[0])
  }

  /** `U.find` from index `i` on: the index of the first suite named `name`; a suite whose name cannot be
      read, before that one, throws. */
  function FindFrom(suites: seq<Json>, name: string, i: nat): (r: Result<Option<nat>>)
    requires i <= |suites|
    ensures r.Ok? && r.value.Some? ==>
      i <= r.value.value < |suites| && NameOf(suites[r.value.value]) == Ok(name) &&
      forall j :: i <= j < r.value.value ==> NameOf(suites[j]).Ok? && NameOf(suites[j]).value != name
    ensures r.Ok? && r.value.None? ==>
      forall j :: i <= j < |suites| ==> NameOf(suites[j]).Ok? && NameOf(suites[j]).value != name
    ensures r.Err? ==> exists j :: i <= j < |suites| && NameOf(suites[j]) == Err(r.error)
    decreases |suites| - i
  {
    if i == |suites| then Ok(None)
    else
      var n :- NameOf(suites[i]);
      if n == name then Ok(Some(i)) else FindFrom(suites, name, i + 1)
  }

  /** The suite choice of `parse`. */
  function Select(doc: Obj, suiteProperty: Option<string>): Result<Parsed> {
    match Get(doc, "suites")
    case Some(JArr(suites)) =>
      var name :- if suiteProperty.Some? then Ok(suiteProperty.value) else FirstName(suites);
      var found :- FindFrom(suites, name, 0);
      if found.None? then Err(Exception(Core, "Did not find suite - " + name))
      else Ok(SelectedSuite(suites[found.value].members))
    case _ => Ok(OriginalStream)
  }

  /** Every suite's name reads, and none is `name`. */
  predicate NoneNamed(suites: seq<Json>, name: string) {
    forall j :: 0 <= j < |suites| ==> NameOf(suites[j]).Ok? && NameOf(suites[j]).value != name
  }

  /** A chosen suite is the first one carrying the wanted name, and the wanted name is the property when
      it is set. */
  lemma SelectsFirstMatch(suites: seq<Json>, doc: Obj, suiteProperty: Option<string>)
    requires Get(doc, "suites") == Some(JArr(suites))
    ensures var r := Select(doc, suiteProperty);
      r.Ok? ==>
        r.value.SelectedSuite? &&
        exists k :: 0 <= k < |suites| && suites[k] == JObj(r.value.suite) &&
          (suiteProperty.Some? ==> NameOf(suites[k]) == Ok(suiteProperty.value)) &&
          forall j :: 0 <= j < k ==> NameOf(suites[j]).Ok? && NameOf(suites[j]) != NameOf(suites[k])
  {
    var name := if suiteProperty.Some? then Ok(suiteProperty.value) else FirstName(suites);
    if name.Ok? {
      var found := FindFrom(suites, name.value, 0);
      if found.Ok? && found.value.Some? {
        var k := found.value.value;
        assert NameOf(suites[k]).Ok?;
        assert suites[k].JObj?;
      }
    }
  }

  /** When every suite's name reads and none is the one the property names, the parser throws. */
  lemma MissingSuiteThrows(suites: seq<Json>, doc: Obj, name: string)
    requires Get(doc, "suites") == Some(JArr(suites))
    requires NoneNamed(suites, name)
    ensures Select(doc, Some(name)) == Err(Exception(Core, "Did not find suite - " + name))
  {
  }

  /** Without the property, a non-empty list of suites whose first name reads always yields the first
      suite. */
  lemma NoPropertyPicksFirst(suites: seq<Json>, doc: Obj)
    requires Get(doc, "suites") == Some(JArr(suites))
    requires |suites| > 0 && NameOf(suites[0]).Ok?
    ensures Select(doc, None) == Ok(SelectedSuite(suites[0].members))
  {
  }

  /** A document without a `suites` array is parsed as it came. */
  lemma NoSuitesKeepsStream(doc: Obj, suiteProperty: Option<string>)
    requires Get(doc, "suites").None? || !Get(doc, "suites").value.JArr?
    ensures Select(doc, suiteProperty) == Ok(OriginalStream)
  {
  }
}
