/**
  `test/testng/TestCase`: the base class of TestNG test classes. Each test class reads its suite's test
  data once, from a YAML resource whose path it is given, and a data provider hands a test method the
  test cases listed under the method's name, converted to `TestData` and optionally narrowed to the
  one the `testcaseId` system property names. Before each test method the test takes its name from the
  test case it runs.

  The three thread-local slots are plain fields. Reading the resource is the parameter `read`; the
  system properties are parameters too.
 */
module TestCase {
  import opened Wrappers
  import opened Json
  import opened Text
  import opened BaseConfig

  /** `DataUtil.read(path, DataType.YAML)`: the document a resource path holds, null for an empty one. */
  type Reader = Option<string> -> Result<Option<Obj>>

  /** `test.model.TestData`; every field may be null. */
  datatype TestData = TestData(testcaseId: Option<string>, testcaseName: Option<string>,
                               request: Option<Obj>, response: Option<Obj>)

  /** A parameter TestNG passes to `testcaseBeforeMethod`: a test case, or anything else. */
  datatype Param = TestDataParam(data: TestData) | OtherParam

  // ---------------------------------------------------------------------------------------------
  // Gson's conversion of the test data

  /** The token name Gson's reader reports for a value. */
  function TokenOf(j: Json): string {
    match j
    case JNull => "NULL"
    case JBool(_) => "BOOLEAN"
    case JNum(_) => "NUMBER"
    case JStr(_) => "STRING"
    case JArr(_) => "BEGIN_ARRAY"
    case JObj(_) => "BEGIN_OBJECT"
  }

  /** A `String` field: a primitive is read as its text, null and a missing member leave the field null,
      and an array or an object cannot be read. */
  function StringField(o: Obj, k: string): (r: Result<Option<string>>)
    ensures r.Ok? <==> Get(o, k).None? || !(Get(o, k).value.JArr? || Get(o, k).value.JObj?)
    ensures r.Ok? && r.value.Some? ==> Get(o, k).Some? && AsString(Get(o, k).value) == Ok(r.value.value)
    ensures r.Ok? && r.value.None? <==> Get(o, k).None? || Get(o, k) == Some(JNull)
    ensures r.Err? ==> r.error.kind == JsonSyntax
  {
    match Get(o, k)
    case None => Ok(None)
    case Some(JNull) => Ok(None)
    case Some(JStr(s)) => Ok(Some(s))
    case Some(JNum(n)) => Ok(Some(IntToString(n)))
    case Some(JBool(b)) => Ok(Some(if b then "true" else "false"))
    case Some(v) => Err(Exception(JsonSyntax, "Expected a string but was " + TokenOf(v)))
  }

  /** A `JsonObject` field: a missing member leaves it null, an object is kept as it is, and any other
      element, `null` included, is not a `JsonObject`. */
  function ObjectField(o: Obj, k: string): (r: Result<Option<Obj>>)
    ensures r.Ok? <==> Get(o, k).None? || Get(o, k).value.JObj?
    ensures r.Ok? && r.value.Some? ==> Get(o, k) == Some(JObj(r.value.value))
    ensures r.Err? ==> r.error.kind == JsonSyntax
  {
    match Get(o, k)
    case None => Ok(None)
    case Some(JObj(m)) => Ok(Some(m))
    case Some(v) => Err(Exception(JsonSyntax, "Expected a JsonObject but was " + ClassName(v)))
  }

  /** One element of the list: `null` is a null test case, an object is read field by field, and any
      other element is not a `TestData`. */
  function ToTestData(j: Json): (r: Result<Option<TestData>>)
    ensures r.Ok? && r.value.None? <==> j.JNull?
    ensures !(j.JNull? || j.JObj?) ==> r.Err? && r.error.kind == JsonSyntax
  {
    match j
    case JNull => Ok(None)
    case JObj(o) =>
      var id :- StringField(o, "testcaseId");
      var name :- StringField(o, "testcaseName");
      var request :- ObjectField(o, "request");
      var response :- ObjectField(o, "response");
      Ok(Some(TestData(id, name, request, response)))
    case _ => Err(Exception(JsonSyntax, "Expected BEGIN_OBJECT but was " + TokenOf(j)))
  }

  /** `fromJson(array, List<TestData>)`: every element converted, in order; the first element that
      cannot be converted fails the whole list. */
  function ToTestDataList(elems: seq<Json>): (r: Result<seq<Option<TestData>>>)
    ensures r.Ok? <==> forall i :: 0 <= i < |elems| ==> ToTestData(elems[i]).Ok?
    ensures r.Ok? ==> |r.value| == |elems| && forall i :: 0 <= i < |elems| ==> r.value[i] == ToTestData(elems[i]).value
    ensures r.Err? ==>
      exists i :: 0 <= i < |elems| && ToTestData(elems[i]) == Err(r.error) &&
        forall j :: 0 <= j < i ==> ToTestData(elems[j]).Ok?
  {
    if elems == [] then Ok([])
    else
      var d :- ToTestData(elems[0]);
      var rest :- ToTestDataList(elems[1..]);
      assert forall i :: 1 <= i < |elems| ==> elems[i] == elems[1..][i - 1];
      Ok([d] + rest)
  }

  /** A test case object whose id and name are strings converts to the test case with that id and name. */
  lemma TestDataOfObject(o: Obj, id: string, name: string)
    requires Get(o, "testcaseId") == Some(JStr(id)) && Get(o, "testcaseName") == Some(JStr(name))
    requires Get(o, "request").None? && Get(o, "response").None?
    ensures ToTestData(JObj(o)) == Ok(Some(TestData(Some(id), Some(name), None, None)))
  {
    var fields := (StringField(o, "testcaseId"), StringField(o, "testcaseName"),
                   ObjectField(o, "request"), ObjectField(o, "response"));
    assert fields == (Ok(Some(id)), Ok(Some(name)), Ok(None), Ok(None));
  }

  // ---------------------------------------------------------------------------------------------
  // Narrowing to one test case id

  /** The filter's predicate `d.getTestcaseId().equalsIgnoreCase(id)`: a null test case or a null id
      throws. */
  function Matches(d: Option<TestData>, id: string): (r: Result<bool>)
    ensures r.Ok? <==> d.Some? && d.value.testcaseId.Some?
    ensures r.Ok? ==> (r.value <==> EqualsIgnoreCase(d.value.testcaseId.value, id))
    ensures r.Err? ==> r.error.kind == NullPointer
  {
    if d.None? then
      Err(Exception(NullPointer, "singleTestData is null"))
    else if d.value.testcaseId.None? then
      Err(Exception(NullPointer, "testcaseId is null"))
    else Ok(EqualsIgnoreCase(d.value.testcaseId.value, id))
  }

  /** `Underscore.filter(list, d -> d.getTestcaseId().equalsIgnoreCase(id))`, in list order. */
  function FilterById(list: seq<Option<TestData>>, id: string): Result<seq<Option<TestData>>> {
    if list == [] then Ok([])
    else
      var keep :- Matches(list[0], id);
      var rest :- FilterById(list[1..], id);
      Ok(if keep then [list[0]] + rest else rest)
  }

  /** The test cases a filter keeps: it succeeds exactly when every test case and its id are non-null,
      and then keeps exactly the test cases whose id is `id` apart from case. */
  lemma {:induction false} FilterByIdMembers(list: seq<Option<TestData>>, id: string)
    ensures FilterById(list, id).Ok? <==>
      forall i :: 0 <= i < |list| ==> list[i].Some? && list[i].value.testcaseId.Some?
    ensures FilterById(list, id).Ok? ==> forall d :: d in FilterById(list, id).value <==>
      d in list && d.Some? && EqualsIgnoreCase(d.value.testcaseId.value, id)
  {
    if list != [] {
      FilterByIdMembers(list[1..], id);
      assert list == [list[0]] + list[1..];
      if Matches(list[0], id).Ok? && FilterById(list[1..], id).Ok? {
        assert forall d :: d in list <==> d == list[0] || d in list[1..];
      }
    }
  }

  /** The filter keeps the order of the list: filtering a concatenation is filtering its first part, then
      its second, and a failure in the first part is the failure of the whole. */
  lemma {:induction false} FilterByIdAppend(a: seq<Option<TestData>>, b: seq<Option<TestData>>, id: string)
    ensures FilterById(a, id).Err? ==> FilterById(a + b, id) == FilterById(a, id)
    ensures FilterById(a, id).Ok? && FilterById(b, id).Ok? ==>
      FilterById(a + b, id) == Ok(FilterById(a, id).value + FilterById(b, id).value)
    ensures FilterById(a, id).Ok? && FilterById(b, id).Err? ==> FilterById(a + b, id) == FilterById(b, id)
  {
    if a == [] {
      assert a + b == b;
      if FilterById(b, id).Ok? {
        assert [] + FilterById(b, id).value == FilterById(b, id).value;
      }
    } else {
      assert (a + b)[0] == a[0];
      assert (a + b)[1..] == a[1..] + b;
      FilterByIdAppend(a[1..], b, id);
      var keep := Matches(a[0], id);
      if keep.Ok? && FilterById(a[1..], id).Ok? && FilterById(b, id).Ok? {
        var ra := FilterById(a[1..], id).value;
        var rb := FilterById(b, id).value;
        if keep.value {
          assert FilterById(a + b, id) == Ok([a[0]] + (ra + rb));
          assert FilterById(a, id) == Ok([a[0]] + ra);
          assert [a[0]] + (ra + rb) == ([a[0]] + ra) + rb;
        } else {
          assert FilterById(a + b, id) == Ok(ra + rb);
          assert FilterById(a, id) == Ok(ra);
        }
      }
    }
  }

  // ---------------------------------------------------------------------------------------------
  // The data provider

  /** What `dataProvider` returns for the suite's test data `data`: nothing unless the method's name
      holds an array; otherwise the array's test cases, narrowed to the `testcaseId` property when it
      is set. */
  function Provided(data: Obj, methodName: string, testcaseId: Option<string>): Result<seq<Option<TestData>>> {
    match Get(data, methodName)
    case Some(JArr(elems)) =>
      var list :- ToTestDataList(elems);
      if testcaseId.None? then Ok(list) else FilterById(list, testcaseId.value)
    case _ => Ok([])
  }

  /** A method whose name does not hold an array gets no test cases. */
  lemma NoArrayProvidesNothing(data: Obj, methodName: string, testcaseId: Option<string>)
    requires Get(data, methodName).None? || !Get(data, methodName).value.JArr?
    ensures Provided(data, methodName, testcaseId) == Ok([])
  {
  }

  /** A method whose name holds an array of test cases that convert gets, without the property, every
      one of them in order, and with it exactly those whose id is the property apart from case. */
  lemma ProvidedFromArray(data: Obj, methodName: string, elems: seq<Json>, list: seq<Option<TestData>>,
                          testcaseId: Option<string>)
    requires Get(data, methodName) == Some(JArr(elems))
    requires ToTestDataList(elems) == Ok(list)
    ensures testcaseId.None? ==> Provided(data, methodName, testcaseId) == Ok(list)
    ensures testcaseId.Some? ==>
      (Provided(data, methodName, testcaseId).Ok? <==>
         forall i :: 0 <= i < |list| ==> list[i].Some? && list[i].value.testcaseId.Some?)
    ensures testcaseId.Some? && Provided(data, methodName, testcaseId).Ok? ==>
      forall d :: d in Provided(data, methodName, testcaseId).value <==>
        d in list && d.Some? && d.value.testcaseId.Some? && EqualsIgnoreCase(d.value.testcaseId.value, testcaseId.value)
  {
    if testcaseId.Some? {
      assert Provided(data, methodName, testcaseId) == FilterById(list, testcaseId.value);
      FilterByIdMembers(list, testcaseId.value);
    }
  }

  /** `getSuiteTestData()` on the slot `slot`: what the slot holds, or else what the resource reads as. */
  function Loaded(slot: Option<Obj>, path: Option<string>, read: Reader): Result<Option<Obj>> {
    if slot.Some? then Ok(slot) else read(path)
  }

  /** The slot after `getSuiteTestData()`: what was read, when the slot was empty and reading succeeded. */
  function SlotAfterLoad(slot: Option<Obj>, path: Option<string>, read: Reader): Option<Obj> {
    if slot.None? && read(path).Ok? then read(path).value else slot
  }

  /** The test data is read at most once: once a read has filled the slot, later reads, whatever the
      resource now holds, hand back what was read. */
  lemma LoadedOnce(slot: Option<Obj>, path: Option<string>, read: Reader, read': Reader, data: Obj)
    requires Loaded(slot, path, read) == Ok(Some(data))
    ensures SlotAfterLoad(slot, path, read) == Some(data)
    ensures Loaded(SlotAfterLoad(slot, path, read), path, read') == Ok(Some(data))
  {
  }

  /** `dataProvider(method)` given what `getSuiteTestData()` returned; a null document throws. */
  function Provider(loaded: Result<Option<Obj>>, methodName: string, testcaseId: Option<string>)
    : (r: Result<seq<Option<TestData>>>)
    ensures loaded.Err? ==> r == Err(loaded.error)
    ensures loaded == Ok(None) ==> r.Err? && r.error.kind == NullPointer
    ensures loaded.Ok? && loaded.value.Some? ==> r == Provided(loaded.value.value, methodName, testcaseId)
  {
    var data :- loaded;
    if data.None? then
      Err(Exception(NullPointer, "suiteTestData is null"))
    else Provided(data.value, methodName, testcaseId)
  }

  // ---------------------------------------------------------------------------------------------
  // The test name

  /** The name `testcaseBeforeMethod` gives a test running `d`: the test case's name, then `__` and the
      method's name; a null id or name throws, the id first. */
  function MethodTestName(d: TestData, methodName: string): (r: Result<string>)
    ensures r.Ok? <==> d.testcaseId.Some? && d.testcaseName.Some?
    ensures d.testcaseId.None? ==> r.Err? && r.error.kind == NullPointer && r.error.message == "testcaseId is null"
    ensures d.testcaseId.Some? && d.testcaseName.None? ==>
      r.Err? && r.error.kind == NullPointer && r.error.message == "testcaseName is null"
  {
    if d.testcaseId.None? then Err(Exception(NullPointer, "testcaseId is null"))
    else if d.testcaseName.None? then Err(Exception(NullPointer, "testcaseName is null"))
    else Ok(TestName(d.testcaseId.value, d.testcaseName.value) + "__" + methodName)
  }

  /** A test's name ends with `__` and the method's name; it holds no whitespace when the method's name
      holds none, and is id, name and method joined by `__` when none of them holds whitespace. */
  lemma MethodTestNameRules(id: string, name: string, methodName: string, request: Option<Obj>, response: Option<Obj>)
    ensures var r := MethodTestName(TestData(Some(id), Some(name), request, response), methodName);
      r.Ok? &&
      |r.value| >= |methodName| + 2 && r.value[|r.value| - |methodName| - 2..] == "__" + methodName &&
      (HasNoWhitespace(methodName) ==> HasNoWhitespace(r.value)) &&
      (HasNoWhitespace(id) && HasNoWhitespace(name) ==> r.value == id + "__" + name + "__" + methodName)
  {
    var t := TestName(id, name);
    var r := t + "__" + methodName;
    assert r == t + ("__" + methodName);
    assert r[|r| - |methodName| - 2..] == "__" + methodName;
    TestNameSound(id, name);
    if HasNoWhitespace(methodName) {
      forall i | 0 <= i < |r|
        ensures !IsWhitespace(r[i])
      {
        if i < |t| {
          assert r[i] == t[i];
        } else if i >= |t| + 2 {
          assert r[i] == methodName[i - |t| - 2];
        }
      }
    }
  }

  // ---------------------------------------------------------------------------------------------
  // The test class

  class TestCase {
    var testDataResourcePath: Option<string>
    var suiteTestData: Option<Obj>
    var testcaseName: Option<string>

    constructor ()
      ensures testDataResourcePath.None? && suiteTestData.None? && testcaseName.None?
    {
      testDataResourcePath := None;
      suiteTestData := None;
      testcaseName := None;
    }

    /** `setTestDataResourcePath(path)`. */
    method SetTestDataResourcePath(path: Option<string>)
      modifies this
      ensures testDataResourcePath == path
      ensures suiteTestData == old(suiteTestData) && testcaseName == old(testcaseName)
    {
      testDataResourcePath := path;
    }

    /** `getSuiteTestData()`: reads the test data when the slot is empty and keeps it; a read that throws
        leaves the slot as it was. */
    method GetSuiteTestData(read: Reader) returns (r: Result<Option<Obj>>)
      modifies this
      ensures r == Loaded(old(suiteTestData), testDataResourcePath, read)
      ensures suiteTestData == SlotAfterLoad(old(suiteTestData), testDataResourcePath, read)
      ensures r.Ok? ==> suiteTestData == r.value
      ensures testDataResourcePath == old(testDataResourcePath) && testcaseName == old(testcaseName)
    {
      if suiteTestData.None? {
        var data := read(testDataResourcePath);
        if data.Err? {
          return Err(data.error);
        }
        suiteTestData := data.value;
      }
      r := Ok(suiteTestData);
    }

    /** `getTestName()`. */
    function GetTestName(): Option<string>
      reads this
    {
      testcaseName
    }

    /** `testcaseBeforeSuite()`: configures the run from the `env` and `context` system properties. */
    method BeforeSuite(config: Configuration, env: Option<string>, context: Option<string>) returns (c: Config)
      requires config.Valid()
      modifies config
      ensures config.config == Some(c) && config.Valid()
      ensures c == if old(config.config).Some? then old(config.config).value
                   else NewConfig(PropertyEnv(env), PropertyContexts(context))
    {
      c := config.ConfigureFromProperties(env, context);
    }

    /** `testcaseAfterSuite()`: forgets the test data and its path. */
    method AfterSuite()
      modifies this
      ensures suiteTestData.None? && testDataResourcePath.None?
      ensures testcaseName == old(testcaseName)
    {
      suiteTestData := None;
      testDataResourcePath := None;
    }

    /** `testcaseBeforeClass()`: without a path it throws; otherwise it reads the test data into the slot,
        whatever the slot held. */
    method BeforeClass(read: Reader) returns (failure: Option<Exception>)
      modifies this
      ensures testDataResourcePath.None? ==>
        failure == Some(Exception(InvalidParameter, "testDataResourcePath must not be null")) &&
        suiteTestData == old(suiteTestData)
      ensures testDataResourcePath.Some? && read(testDataResourcePath).Err? ==>
        failure == Some(read(testDataResourcePath).error) && suiteTestData == old(suiteTestData)
      ensures testDataResourcePath.Some? && read(testDataResourcePath).Ok? ==>
        failure.None? && suiteTestData == read(testDataResourcePath).value
      ensures testDataResourcePath == old(testDataResourcePath) && testcaseName == old(testcaseName)
    {
      if testDataResourcePath.None? {
        return Some(Exception(InvalidParameter, "testDataResourcePath must not be null"));
      }
      var data := read(testDataResourcePath);
      if data.Err? {
        return Some(data.error);
      }
      suiteTestData := data.value;
      failure := None;
    }

    /** `testcaseAfterClass()`: forgets the test data. */
    method AfterClass()
      modifies this
      ensures suiteTestData.None?
      ensures testDataResourcePath == old(testDataResourcePath) && testcaseName == old(testcaseName)
    {
      suiteTestData := None;
    }

    /** `testcaseBeforeMethod(method, params)`: a test case as the first parameter names the test; any
        other parameter list leaves the name as it was. */
    method BeforeMethod(methodName: string, params: Option<seq<Param>>) returns (failure: Option<Exception>)
      modifies this
      ensures params.None? || |params.value| == 0 || params.value[0].OtherParam? ==>
        failure.None? && testcaseName == old(testcaseName)
      ensures params.Some? && |params.value| > 0 && params.value[0].TestDataParam? ==>
        var name := MethodTestName(params.value[0].data, methodName);
        (name.Err? ==> failure == Some(name.error) && testcaseName == old(testcaseName)) &&
        (name.Ok? ==> failure.None? && testcaseName == Some(name.value))
      ensures testDataResourcePath == old(testDataResourcePath) && suiteTestData == old(suiteTestData)
    {
      failure := None;
      if params.Some? && |params.value| > 0 && params.value[0].TestDataParam? {
        var name := MethodTestName(params.value[0].data, methodName);
        if name.Err? {
          failure := Some(name.error);
        } else {
          testcaseName := Some(name.value);
        }
      }
    }

    /** `testcaseAfterMethod()`: forgets the test's name. */
    method AfterMethod()
      modifies this
      ensures testcaseName.None?
      ensures testDataResourcePath == old(testDataResourcePath) && suiteTestData == old(suiteTestData)
    {
      testcaseName := None;
    }

    /** `dataProvider(method)`: the test cases for the test method `methodName`, from the test data
        `getSuiteTestData()` reads at most once. */
    method DataProvider(methodName: string, testcaseId: Option<string>, read: Reader)
      returns (r: Result<seq<Option<TestData>>>)
      modifies this
      ensures r == Provider(Loaded(old(suiteTestData), testDataResourcePath, read), methodName, testcaseId)
      ensures suiteTestData == SlotAfterLoad(old(suiteTestData), testDataResourcePath, read)
      ensures testDataResourcePath == old(testDataResourcePath) && testcaseName == old(testcaseName)
    {
      var data := GetSuiteTestData(read);
      if data.Err? {
        return Err(data.error);
      }
      if data.value.None? {
        r := Provider(data, methodName, testcaseId);
        return;
      }
      var suite := data.value.value;
      match Get(suite, methodName)
      case Some(JArr(elems)) =>
        var list := ToTestDataList(elems);
        if list.Err? {
          return Err(list.error);
        }
        if testcaseId.None? {
          return Ok(list.value);
        }
        r := FilterById(list.value, testcaseId.value);
      case _ =>
        r := Ok([]);
    }
  }
}
