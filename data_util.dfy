/**
  `DataUtil.deepMerge` and the `$extends` inheritance of `DataUtil.extendData`.

  The merge walks the source object's keys in order and, for each key, changes the target:
  a key the target lacks is added with the source value; array onto array appends the source
  elements after the target's; object onto object merges recursively; anything else is
  overwritten by the source value. JSON documents are values here, so the merged target is
  returned rather than changed where it lies.
 */
module DataUtil {
  import opened Wrappers
  import opened Json

  /** The value a key ends with when the source holds `sv` and the target holds `tv` (None when absent). */
  function MergeValue(sv: Json, tv: Option<Json>): Json
    decreases sv, 1
  {
    if tv.None? then sv
    else if sv.JArr? && tv.value.JArr? then JArr(tv.value.elems + sv.elems)
    else if sv.JObj? && tv.value.JObj? then JObj(MergeFrom(sv, 0, tv.value.members))
    else sv
  }

  /** The target after the loop has handled the source members from index `i` on, starting from `acc`. */
  function MergeFrom(source: Json, i: nat, acc: Obj): Obj
    requires source.JObj? && i <= |source.members|
    decreases source, 0, |source.members| - i
  {
    if i == |source.members| then acc
    else
      var m := source.members[i];
      MergeFrom(source, i + 1, Put(acc, m.key, MergeValue(m.value, Get(acc, m.key))))
  }

  /** `deepMerge(source, target)` on two objects. */
  function Merge(source: Obj, target: Obj): Obj {
    MergeFrom(JObj(source), 0, target)
  }

  /** What `deepMerge(source, target)` returns: the target itself when either side is null. */
  function DeepMerged(source: Option<Obj>, target: Option<Obj>): Option<Obj> {
    if source.None? || target.None? then target else Some(Merge(source.value, target.value))
  }

  /** `deepMerge`: when either side is null the target comes back unchanged; otherwise every source key
      is merged into the target, in the source's key order, and the target is returned. */
  method DeepMerge(source: Option<Obj>, target: Option<Obj>) returns (r: Option<Obj>)
    ensures source.None? || target.None? ==> r == target
    ensures source.Some? && target.Some? ==> r == Some(Merge(source.value, target.value))
    ensures r == DeepMerged(source, target)
  {
    if source.None? || target.None? {
      return target;
    }
    var merged := MergeInto(JObj(source.value), target.value);
    return Some(merged);
  }

  /** The loop of `deepMerge` over the keys of `source`, with the recursive call for nested objects. */
  method MergeInto(source: Json, target: Obj) returns (r: Obj)
    requires source.JObj?
    ensures r == MergeFrom(source, 0, target)
    decreases source
  {
    var t := target;
    var i := 0;
    while i < |source.members|
      invariant 0 <= i <= |source.members|
      invariant MergeFrom(source, i, t) == MergeFrom(source, 0, target)
    {
      var key := source.members[i].key;
      var sourceValue := source.members[i].value;
      var v: Json;
      if !Has(t, key) {
        v := sourceValue;
      } else {
        var targetValue := Get(t, key).value;
        if sourceValue.JArr? && targetValue.JArr? {
          v := JArr(targetValue.elems + sourceValue.elems);
        } else if sourceValue.JObj? && targetValue.JObj? {
          var inner := MergeInto(sourceValue, targetValue.members);
          v := JObj(inner);
        } else {
          v := sourceValue;
        }
      }
      t := Put(t, key, v);
      i := i + 1;
    }
    return t;
  }

  // ---------------------------------------------------------------------------------------------
  // Key-wise meaning of the merge

  lemma {:induction false} MergeFromGet(source: Json, i: nat, acc: Obj, k: string)
    requires source.JObj? && i <= |source.members| && UniqueKeys(source.members)
    ensures var rest := source.members[i..];
      Get(MergeFrom(source, i, acc), k) ==
        if k in Keys(rest) then Some(MergeValue(Get(rest, k).value, Get(acc, k))) else Get(acc, k)
    decreases |source.members| - i
  {
    var s := source.members;
    if i < |s| {
      var m := s[i];
      var v := MergeValue(m.value, Get(acc, m.key));
      MergeFromGet(source, i + 1, Put(acc, m.key, v), k);
      PutGet(acc, m.key, v, k);
      assert s[i..][1..] == s[i + 1..];
      assert s[i..][0] == m;
      if k == m.key {
        var rest := s[i + 1..];
        forall j | 0 <= j < |rest|
          ensures Keys(rest)[j] != k
        {
          assert rest[j] == s[i + 1 + j];
        }
      }
    }
  }

  /** Each key of the merged object: a key only the target has keeps its value; a source key gets
      `MergeValue` of the source value and whatever the target held. */
  lemma MergeGet(source: Obj, target: Obj, k: string)
    requires UniqueKeys(source)
    ensures Get(Merge(source, target), k) ==
      if k in Keys(source) then Some(MergeValue(Get(source, k).value, Get(target, k))) else Get(target, k)
  {
    MergeFromGet(JObj(source), 0, target, k);
    assert source[0..] == source;
  }

  /** The rules of `deepMerge`, key by key. */
  lemma MergeRules(source: Obj, target: Obj, k: string)
    requires UniqueKeys(source)
    ensures k !in Keys(source) ==> Get(Merge(source, target), k) == Get(target, k)
    ensures k in Keys(source) && k !in Keys(target) ==> Get(Merge(source, target), k) == Get(source, k)
    ensures k in Keys(source) && k in Keys(target) ==>
      var sv, tv := Get(source, k).value, Get(target, k).value;
      Get(Merge(source, target), k) ==
        if sv.JArr? && tv.JArr? then Some(JArr(tv.elems + sv.elems))
        else if sv.JObj? && tv.JObj? then Some(JObj(Merge(sv.members, tv.members)))
        else Some(sv)
  {
    MergeGet(source, target, k);
  }

  /** The target's keys keep their positions, and the merged object holds exactly the keys of both. */
  lemma {:induction false} MergeFromKeys(source: Json, i: nat, acc: Obj)
    requires source.JObj? && i <= |source.members|
    ensures var r := MergeFrom(source, i, acc);
      |acc| <= |r| && Keys(r)[..|acc|] == Keys(acc) &&
      forall k :: k in Keys(r) <==> k in Keys(acc) || k in Keys(source.members[i..])
    decreases |source.members| - i
  {
    var s := source.members;
    if i < |s| {
      var m := s[i];
      var acc' := Put(acc, m.key, MergeValue(m.value, Get(acc, m.key)));
      MergeFromKeys(source, i + 1, acc');
      PutKeys(acc, m.key, MergeValue(m.value, Get(acc, m.key)));
      assert s[i..][1..] == s[i + 1..];
      assert Keys(s[i..]) == [m.key] + Keys(s[i + 1..]);
      var r := MergeFrom(source, i, acc);
      assert Keys(r)[..|acc|] == Keys(r)[..|acc'|][..|acc|];
    }
  }

  lemma MergeKeys(source: Obj, target: Obj)
    ensures var r := Merge(source, target);
      |target| <= |r| && Keys(r)[..|target|] == Keys(target) &&
      forall k :: k in Keys(r) <==> k in Keys(source) || k in Keys(target)
  {
    MergeFromKeys(JObj(source), 0, target);
    assert source[0..] == source;
  }

  /** When every remaining source key is already in the target, the key order does not change. */
  lemma {:induction false} MergeFromKeysPresent(source: Json, i: nat, acc: Obj)
    requires source.JObj? && i <= |source.members|
    requires forall j :: i <= j < |source.members| ==> source.members[j].key in Keys(acc)
    ensures Keys(MergeFrom(source, i, acc)) == Keys(acc)
    decreases |source.members| - i
  {
    var s := source.members;
    if i < |s| {
      var m := s[i];
      var acc' := Put(acc, m.key, MergeValue(m.value, Get(acc, m.key)));
      PutKeys(acc, m.key, MergeValue(m.value, Get(acc, m.key)));
      MergeFromKeysPresent(source, i + 1, acc');
    }
  }

  lemma {:induction false} MergeFromUnique(source: Json, i: nat, acc: Obj)
    requires source.JObj? && i <= |source.members| && UniqueKeys(acc)
    ensures UniqueKeys(MergeFrom(source, i, acc))
    decreases |source.members| - i
  {
    if i < |source.members| {
      var m := source.members[i];
      PutUnique(acc, m.key, MergeValue(m.value, Get(acc, m.key)));
      MergeFromUnique(source, i + 1, Put(acc, m.key, MergeValue(m.value, Get(acc, m.key))));
    }
  }

  /** A target with unique keys keeps them unique. */
  lemma MergeUnique(source: Obj, target: Obj)
    requires UniqueKeys(target)
    ensures UniqueKeys(Merge(source, target))
  {
    MergeFromUnique(JObj(source), 0, target);
  }

  // ---------------------------------------------------------------------------------------------
  // Merging twice

  /** No array anywhere in the document. */
  predicate ArrayFree(j: Json) {
    match j
    case JArr(_) => false
    case JObj(ms) => forall i :: 0 <= i < |ms| ==> ArrayFree(ms[i].value)
    case _ => true
  }

  /** A member of an object is found at some index, so its value is a sub-document. */
  lemma MemberAt(o: Obj, k: string) returns (j: nat)
    requires k in Keys(o)
    ensures j < |o| && o[j] == Member(k, Get(o, k).value)
  {
    j :| 0 <= j < |o| && o[j] == Member(k, Get(o, k).value);
  }

  /** Merging an array-free object into itself gives it back. */
  lemma {:induction false} MergeSelf(x: Json)
    requires x.JObj? && WellFormed(x) && ArrayFree(x)
    ensures Merge(x.members, x.members) == x.members
    decreases x
  {
    var xs := x.members;
    var r := Merge(xs, xs);
    MergeFromKeysPresent(JObj(xs), 0, xs);
    forall k
      ensures Get(xs, k) == Get(r, k)
    {
      MergeGet(xs, xs, k);
      if k in Keys(xs) {
        var j := MemberAt(xs, k);
        var xv := xs[j].value;
        if xv.JObj? {
          MergeSelf(xv);
        }
      }
    }
    ObjectExtensionality(xs, r);
  }

  /** Merging an array-free, well-formed source a second time changes nothing. */
  lemma {:induction false} MergeIdempotentWithoutArrays(source: Json, target: Obj)
    requires source.JObj? && WellFormed(source) && ArrayFree(source) && WellFormed(JObj(target))
    ensures Merge(source.members, Merge(source.members, target)) == Merge(source.members, target)
    decreases source
  {
    var s := source.members;
    var r := Merge(s, target);
    var r2 := Merge(s, r);
    MergeKeys(s, target);
    assert s[0..] == s;
    forall j | 0 <= j < |s| ensures s[j].key in Keys(r) {
      assert Keys(s)[j] == s[j].key;
    }
    MergeFromKeysPresent(JObj(s), 0, r);
    MergeUnique(s, target);
    forall k
      ensures Get(r, k) == Get(r2, k)
    {
      MergeGet(s, target, k);
      MergeGet(s, r, k);
      if k in Keys(s) {
        var j := MemberAt(s, k);
        var sv := s[j].value;
        var tv := Get(target, k);
        if sv.JObj? {
          MergeSelf(sv);
          if tv.Some? && tv.value.JObj? {
            var jt := MemberAt(target, k);
            assert WellFormed(target[jt].value);
            MergeIdempotentWithoutArrays(sv, tv.value.members);
          }
        }
      }
    }
    ObjectExtensionality(r, r2);
  }

  /** Merging a source whose value under `k` is an array twice appends that array twice. */
  lemma MergeTwiceAppendsTwice(source: Obj, target: Obj, k: string, se: seq<Json>, te: seq<Json>)
    requires UniqueKeys(source)
    requires Get(source, k) == Some(JArr(se)) && Get(target, k) == Some(JArr(te))
    ensures Get(Merge(source, Merge(source, target)), k) == Some(JArr(te + se + se))
  {
    MergeGet(source, target, k);
    MergeGet(source, Merge(source, target), k);
  }

  /** So the merge is not idempotent once arrays are involved. */
  lemma MergeNotIdempotentWithArrays()
    ensures var s := [Member("a", JArr([JNum(1)]))];
      Merge(s, Merge(s, [])) != Merge(s, [])
  {
    var s := [Member("a", JArr([JNum(1)]))];
    var once := Merge(s, []);
    assert Keys(s) == ["a"] && Get(s, "a") == Some(JArr([JNum(1)]));
    assert [JNum(1)] + [JNum(1)] == [JNum(1), JNum(1)];
    MergeGet(s, [], "a");
    MergeGet(s, once, "a");
    assert Get(once, "a") == Some(JArr([JNum(1)]));
    assert Get(Merge(s, once), "a") == Some(JArr([JNum(1), JNum(1)]));
  }

  // ---------------------------------------------------------------------------------------------
  // $extends

  const ExtendsKey: string := "$extends"

  /** `extendData`: a document naming a base under `$extends` loses that key and is merged over the
      base, which is what comes back; `load` reads the base document the key names. A document
      without the key comes back as it is. */
  method ExtendData(data: Option<Obj>, load: string -> Result<Option<Obj>>) returns (r: Result<Option<Obj>>)
    ensures data.None? || !Has(data.value, ExtendsKey) ==> r == Ok(data)
    ensures data.Some? && Has(data.value, ExtendsKey) ==>
      var path := AsString(Get(data.value, ExtendsKey).value);
      if path.Err? then r == Err(path.error)
      else if load(path.value).Err? then r == Err(load(path.value).error)
      else if load(path.value).value.None? then r == Ok(None)
      else r == Ok(Some(Merge(Remove(data.value, ExtendsKey), load(path.value).value.value)))
  {
    if data.None? || !Has(data.value, ExtendsKey) {
      return Ok(data);
    }
    var path := AsString(Get(data.value, ExtendsKey).value);
    if path.Err? {
      return Err(path.error);
    }
    var base := load(path.value);
    if base.Err? {
      return Err(base.error);
    }
    var child := Remove(data.value, ExtendsKey);
    var merged := DeepMerge(Some(child), base.value);
    return Ok(merged);
  }

  /** What an extended document holds: the base's keys first and in their order, `$extends` only if
      the base has it, and for every other key of the child the merge of the child's value over
      the base's, so that a child scalar wins. */
  lemma ExtendedDocument(child: Obj, base: Obj, k: string)
    requires UniqueKeys(child)
    ensures var r := Merge(Remove(child, ExtendsKey), base);
      |base| <= |r| && Keys(r)[..|base|] == Keys(base) &&
      Get(r, ExtendsKey) == Get(base, ExtendsKey) &&
      (k != ExtendsKey && k in Keys(child) ==> Get(r, k) == Some(MergeValue(Get(child, k).value, Get(base, k)))) &&
      (k !in Keys(child) ==> Get(r, k) == Get(base, k))
  {
    var c := Remove(child, ExtendsKey);
    RemoveUnique(child, ExtendsKey);
    RemoveGet(child, ExtendsKey, k);
    RemoveGet(child, ExtendsKey, ExtendsKey);
    MergeKeys(c, base);
    MergeGet(c, base, k);
    MergeGet(c, base, ExtendsKey);
  }
}
