/**
  Gson's JSON tree (JsonElement): null, booleans, numbers, strings, arrays, and objects whose
  members keep insertion order (JsonObject is backed by a LinkedTreeMap). Numbers are integers.
 */
module Json {
  import opened Wrappers
  import Text

  datatype Json =
    | JNull
    | JBool(b: bool)
    | JNum(n: int)
    | JStr(s: string)
    | JArr(elems: seq<Json>)
    | JObj(members: seq<Member>)

  datatype Member = Member(key: string, value: Json)

  /** The member list of a JsonObject, in insertion order. */
  type Obj = seq<Member>

  /** `keySet()`, in insertion order. */
  function Keys(o: Obj): (r: seq<string>)
    ensures |r| == |o|
    ensures forall i :: 0 <= i < |o| ==> r[i] == o[i].key
  {
    if o == [] then [] else [o[0].key] + Keys(o[1..])
  }

  /** `get(k)`: the value of the first member named `k`. */
  function Get(o: Obj, k: string): (r: Option<Json>)
    ensures r.Some? <==> k in Keys(o)
    ensures r.Some? ==> exists i :: 0 <= i < |o| && o[i] == Member(k, r.value)
  {
    if o == [] then None
    else if o[0].key == k then Some(o[0].value)
    else Get(o[1..], k)
  }

  predicate Has(o: Obj, k: string) {
    k in Keys(o)
  }

  /** `get(k)` whose result is then used: a missing member is a NullPointerException. */
  function Field(o: Obj, k: string): (r: Result<Json>)
    ensures r.Ok? <==> Has(o, k)
    ensures r.Ok? ==> Get(o, k) == Some(r.value)
    ensures r.Err? ==> r.error.kind == NullPointer
  {
    match Get(o, k)
    case None => Err(Exception(NullPointer, k + " is null"))
    case Some(v) => Ok(v)
  }

  /** No key occurs twice. */
  predicate UniqueKeys(o: Obj) {
    forall i, j :: 0 <= i < j < |o| ==> o[i].key != o[j].key
  }

  /** `add(k, v)`: a member named `k` keeps its position and takes the new value; otherwise the
      member is appended. */
  function Put(o: Obj, k: string, v: Json): Obj {
    if o == [] then [Member(k, v)]
    else if o[0].key == k then [Member(k, v)] + o[1..]
    else [o[0]] + Put(o[1..], k, v)
  }

  /** After `add(k, v)`, `get(k)` is `v` and every other key reads as before. */
  lemma {:induction false} PutGet(o: Obj, k: string, v: Json, k': string)
    ensures Get(Put(o, k, v), k') == if k' == k then Some(v) else Get(o, k')
  {
    if o != [] && o[0].key != k {
      PutGet(o[1..], k, v, k');
    }
  }

  /** `add` keeps the key order and appends a new key at the end. */
  lemma {:induction false} PutKeys(o: Obj, k: string, v: Json)
    ensures Keys(Put(o, k, v)) == if k in Keys(o) then Keys(o) else Keys(o) + [k]
  {
    if o == [] {
    } else if o[0].key == k {
      assert Keys(Put(o, k, v)) == [k] + Keys(o[1..]);
    } else {
      PutKeys(o[1..], k, v);
      assert Keys(o) == [o[0].key] + Keys(o[1..]);
      assert Keys(Put(o, k, v)) == [o[0].key] + Keys(Put(o[1..], k, v));
    }
  }

  /** `add` never introduces a duplicate key. */
  lemma PutUnique(o: Obj, k: string, v: Json)
    requires UniqueKeys(o)
    ensures UniqueKeys(Put(o, k, v))
  {
    var r := Put(o, k, v);
    PutKeys(o, k, v);
    forall i, j | 0 <= i < j < |r| ensures r[i].key != r[j].key {
      assert Keys(r)[i] == r[i].key && Keys(r)[j] == r[j].key;
      if j < |o| {
        assert Keys(o)[i] == o[i].key && Keys(o)[j] == o[j].key;
      } else {
        assert k !in Keys(o) && Keys(r)[j] == k;
        assert Keys(o)[i] == Keys(r)[i];
      }
    }
  }

  /** `remove(k)`: the member named `k` is dropped; the others keep their order. */
  function Remove(o: Obj, k: string): Obj {
    if o == [] then []
    else if o[0].key == k then Remove(o[1..], k)
    else [o[0]] + Remove(o[1..], k)
  }

  /** After `remove(k)`, `get(k)` is null and every other key reads as before. */
  lemma {:induction false} RemoveGet(o: Obj, k: string, k': string)
    ensures Get(Remove(o, k), k') == if k' == k then None else Get(o, k')
  {
    if o != [] {
      RemoveGet(o[1..], k, k');
    }
  }

  /** `remove` keeps the other members in their order. */
  lemma {:induction false} RemoveKeys(o: Obj, k: string)
    ensures Keys(Remove(o, k)) == RemoveKey(Keys(o), k)
  {
    if o != [] {
      RemoveKeys(o[1..], k);
      assert Keys(o) == [o[0].key] + Keys(o[1..]);
      assert Keys(o)[1..] == Keys(o[1..]);
      if o[0].key != k {
        assert Keys(Remove(o, k)) == [o[0].key] + Keys(Remove(o[1..], k));
      }
    }
  }

  /** A key list without `k`. */
  function RemoveKey(ks: seq<string>, k: string): (r: seq<string>)
    ensures forall x :: x in r <==> x in ks && x != k
  {
    if ks == [] then []
    else if ks[0] == k then RemoveKey(ks[1..], k)
    else [ks[0]] + RemoveKey(ks[1..], k)
  }

  /** A member list is a sub-sequence of another. */
  lemma {:induction false} RemoveSubsequence(o: Obj, k: string)
    ensures forall m :: m in Remove(o, k) ==> m in o
  {
    if o != [] {
      RemoveSubsequence(o[1..], k);
    }
  }

  /** Removing an absent key changes nothing. */
  lemma {:induction false} RemoveAbsent(o: Obj, k: string)
    requires k !in Keys(o)
    ensures Remove(o, k) == o
  {
    if o != [] {
      assert Keys(o)[0] == o[0].key;
      assert Keys(o[1..]) == Keys(o)[1..];
      RemoveAbsent(o[1..], k);
      assert o == [o[0]] + o[1..];
    }
  }

  /** The tail of an object with unique keys has unique keys and does not hold the head's key. */
  lemma UniqueTail(o: Obj)
    requires UniqueKeys(o) && o != []
    ensures UniqueKeys(o[1..])
    ensures o[0].key !in Keys(o[1..])
  {
    forall i, j | 0 <= i < j < |o[1..]| ensures o[1..][i].key != o[1..][j].key {
      assert o[1..][i] == o[i + 1] && o[1..][j] == o[j + 1];
    }
    forall i | 0 <= i < |o[1..]| ensures Keys(o[1..])[i] != o[0].key {
      assert o[1..][i] == o[i + 1];
    }
  }

  /** Prefixing a member whose key is new keeps the keys unique. */
  lemma UniqueCons(m: Member, o: Obj)
    requires UniqueKeys(o) && m.key !in Keys(o)
    ensures UniqueKeys([m] + o)
  {
    var r := [m] + o;
    forall i, j | 0 <= i < j < |r| ensures r[i].key != r[j].key {
      if i == 0 {
        assert Keys(o)[j - 1] == r[j].key;
      } else {
        assert r[i] == o[i - 1] && r[j] == o[j - 1];
      }
    }
  }

  /** `remove` never introduces a duplicate key. */
  lemma {:induction false} RemoveUnique(o: Obj, k: string)
    requires UniqueKeys(o)
    ensures UniqueKeys(Remove(o, k))
  {
    if o != [] {
      UniqueTail(o);
      RemoveUnique(o[1..], k);
      if o[0].key != k {
        RemoveKeys(o[1..], k);
        UniqueCons(o[0], Remove(o[1..], k));
      }
    }
  }

  /** Every object in the tree has unique keys. */
  predicate WellFormed(j: Json) {
    match j
    case JArr(es) => forall i :: 0 <= i < |es| ==> WellFormed(es[i])
    case JObj(ms) => UniqueKeys(ms) && forall i :: 0 <= i < |ms| ==> WellFormed(ms[i].value)
    case _ => true
  }

  /** Two objects with unique keys that list the same keys in the same order and agree on every
      key are the same object. */
  lemma {:induction false} ObjectExtensionality(a: Obj, b: Obj)
    requires UniqueKeys(a) && Keys(a) == Keys(b)
    requires forall k :: Get(a, k) == Get(b, k)
    ensures a == b
  {
    forall i | 0 <= i < |a|
      ensures a[i] == b[i]
    {
      var k := a[i].key;
      assert Keys(a)[i] == k && Keys(b)[i] == k;
      GetAt(a, i);
      assert UniqueKeys(b) by {
        forall p, q | 0 <= p < q < |b| ensures b[p].key != b[q].key {
          assert Keys(a)[p] == b[p].key && Keys(a)[q] == b[q].key;
        }
      }
      GetAt(b, i);
    }
  }

  /** In an object with unique keys, `get` of a member's key returns that member's value. */
  lemma {:induction false} GetAt(o: Obj, i: int)
    requires UniqueKeys(o) && 0 <= i < |o|
    ensures Get(o, o[i].key) == Some(o[i].value)
  {
    if i > 0 {
      assert o[0].key != o[i].key;
      assert o[1..][i - 1] == o[i];
      GetAt(o[1..], i - 1);
    }
  }

  /** Decimal text of an integer, as `Number.toString` writes it. */
  function IntToString(n: int): (r: string)
    ensures r != []
    decreases if n < 0 then 1 - n else n
  {
    if n < 0 then "-" + IntToString(-n)
    else if n < 10 then [Digit(n)]
    else IntToString(n / 10) + [Digit(n % 10)]
  }

  function Digit(d: int): char
    requires 0 <= d < 10
  {
    "0123456789"[d]
  }

  /** The simple class name Gson puts in its exception messages. */
  function ClassName(j: Json): string {
    match j
    case JNull => "JsonNull"
    case JObj(_) => "JsonObject"
    case JArr(_) => "JsonArray"
    case _ => "JsonPrimitive"
  }

  /** `getAsString()`: the text of a primitive; a one-element array answers for its element; any other
      array raises IllegalStateException; null and objects raise UnsupportedOperationException. */
  function AsString(j: Json): (r: Result<string>)
    ensures j.JStr? ==> r == Ok(j.s)
    ensures (j.JNull? || j.JObj?) ==> r.Err? && r.error.kind == UnsupportedOperation
    ensures j.JArr? && |j.elems| != 1 ==> r.Err? && r.error.kind == IllegalState
  {
    match j
    case JStr(s) => Ok(s)
    case JNum(n) => Ok(IntToString(n))
    case JBool(b) => Ok(if b then "true" else "false")
    case JArr(es) =>
      if |es| == 1 then AsString(es[0])
      else Err(Exception(IllegalState, "Array must have size 1, but has size " + IntToString(|es|)))
    case _ => Err(Exception(UnsupportedOperation, ClassName(j)))
  }

  /** `getAsBoolean()`: a boolean primitive is itself; any other primitive is `Boolean.parseBoolean`
      of its text, which is true exactly for "true" in any case. */
  function AsBoolean(j: Json): (r: Result<bool>)
    ensures j.JBool? ==> r == Ok(j.b)
    ensures j.JStr? ==> r == Ok(Text.EqualsIgnoreCase(j.s, "true"))
    ensures j.JNum? ==> r == Ok(false)
    ensures (j.JNull? || j.JObj?) ==> r.Err? && r.error.kind == UnsupportedOperation
  {
    match j
    case JBool(b) => Ok(b)
    case JArr(es) =>
      if |es| == 1 then AsBoolean(es[0])
      else Err(Exception(IllegalState, "Array must have size 1, but has size " + IntToString(|es|)))
    case JNull => Err(Exception(UnsupportedOperation, ClassName(j)))
    case JObj(_) => Err(Exception(UnsupportedOperation, ClassName(j)))
    case JStr(s) => Ok(Text.EqualsIgnoreCase(s, "true"))
    case JNum(n) =>
      NumberTextIsNotTrue(n);
      Ok(Text.EqualsIgnoreCase(IntToString(n), "true"))
  }

  /** The decimal text of a number never reads as "true". */
  lemma NumberTextIsNotTrue(n: int)
    ensures !Text.EqualsIgnoreCase(IntToString(n), "true")
  {
    var s := IntToString(n);
    if Text.EqualsIgnoreCase(s, "true") {
      assert Text.ToUpper(s) == "TRUE";
      assert Text.UpperChar(s[0]) == 'T';
      FirstCharOfNumber(n);
    }
  }

  lemma {:induction false} FirstCharOfNumber(n: int)
    ensures IntToString(n)[0] == '-' || '0' <= IntToString(n)[0] <= '9'
    decreases if n < 0 then 1 - n else n
  {
    if n >= 10 {
      FirstCharOfNumber(n / 10);
    }
  }

  /** `getAsJsonObject()`: the member list of an object; anything else raises IllegalStateException. */
  function AsObject(j: Json): (r: Result<Obj>)
    ensures r.Ok? <==> j.JObj?
    ensures r.Ok? ==> r.value == j.members
    ensures r.Err? ==> r.error.kind == IllegalState
  {
    if j.JObj? then Ok(j.members) else Err(Exception(IllegalState, "Not a JSON Object"))
  }

  /** `getAsJsonArray()`: the elements of an array; anything else raises IllegalStateException. */
  function AsArray(j: Json): (r: Result<seq<Json>>)
    ensures r.Ok? <==> j.JArr?
    ensures r.Ok? ==> r.value == j.elems
    ensures r.Err? ==> r.error.kind == IllegalState
  {
    if j.JArr? then Ok(j.elems) else Err(Exception(IllegalState, "Not a JSON Array"))
  }
}
