/** `shallowEqual`: two objects are equal when they have as many own keys and
    every key of the first maps to a strictly equal value in the second. */
module Performance {
  import JsString

  /** A JavaScript value as `===` sees it; objects and functions compare by
      identity, here a reference number. */
  datatype JsValue =
    | Undefined
    | Null
    | Bool(b: bool)
    | Num(n: JsString.JsNumber)
    | Str(s: string)
    | Ref(id: nat)

  /** `===`: same type and same value; `NaN` equals nothing, itself included. */
  predicate StrictEquals(x: JsValue, y: JsValue)
  {
    match (x, y)
    case (Undefined, Undefined) => true
    case (Null, Null) => true
    case (Bool(a), Bool(b)) => a == b
    case (Num(a), Num(b)) => (a.Finite? && b.Finite? && a.value == b.value) ||
                             (a.Infinity? && b.Infinity? && a.negative == b.negative)
    case (Str(a), Str(b)) => a == b
    case (Ref(a), Ref(b)) => a == b
    case _ => false
  }

  /** An object as its own enumerable properties, in `Object.keys` order. */
  datatype JsObject = JsObject(entries: seq<(string, JsValue)>)

  function Keys(o: JsObject): (r: seq<string>)
    ensures |r| == |o.entries|
    ensures forall i :: 0 <= i < |r| ==> r[i] == o.entries[i].0
    decreases |o.entries|
  {
    if o.entries == [] then [] else [o.entries[0].0] + Keys(JsObject(o.entries[1..]))
  }

  /** `o[key]`: the value stored under the key, `undefined` when there is none. */
  function Get(o: JsObject, key: string): (r: JsValue)
    ensures (forall i :: 0 <= i < |o.entries| ==> o.entries[i].0 != key) ==> r == Undefined
    ensures r != Undefined ==> exists i :: 0 <= i < |o.entries| && o.entries[i] == (key, r)
    decreases |o.entries|
  {
    if o.entries == [] then Undefined
    else if o.entries[0].0 == key then o.entries[0].1
    else
      var r := Get(JsObject(o.entries[1..]), key);
      assert forall i :: 1 <= i < |o.entries| ==> o.entries[i] == o.entries[1..][i - 1];
      r
  }

  /** Key `i` of the first object holds a value strictly equal to the second
      object's value under that key. */
  predicate KeyAgrees(obj1: JsObject, obj2: JsObject, i: nat)
    requires i < |obj1.entries|
  {
    StrictEquals(Get(obj1, obj1.entries[i].0), Get(obj2, obj1.entries[i].0))
  }

  /** The meaning of the shallow comparison. */
  predicate ShallowEqualSpec(obj1: JsObject, obj2: JsObject)
  {
    |Keys(obj1)| == |Keys(obj2)| && forall i :: 0 <= i < |obj1.entries| ==> KeyAgrees(obj1, obj2, i)
  }

  /** The loop stops at the first key whose values differ and answers true
      only once every key has been compared. */
  method ShallowEqual(obj1: JsObject, obj2: JsObject) returns (r: bool)
    ensures r <==> ShallowEqualSpec(obj1, obj2)
  {
    var keys1 := Keys(obj1);
    var keys2 := Keys(obj2);

    if |keys1| != |keys2| {
      return false;
    }

    for i := 0 to |keys1|
      invariant forall j :: 0 <= j < i ==> KeyAgrees(obj1, obj2, j)
    {
      var key := keys1[i];
      if !StrictEquals(Get(obj1, key), Get(obj2, key)) {
        assert !KeyAgrees(obj1, obj2, i);
        return false;
      }
    }
    return true;
  }

  // ------------------------------------------------------------ properties

  predicate HoldsNaN(v: JsValue)
  {
    v.Num? && v.n.NaN?
  }

  /** Strict equality is reflexive except on `NaN`. */
  lemma StrictEqualsReflexive(v: JsValue)
    ensures StrictEquals(v, v) <==> !HoldsNaN(v)
  {
  }

  /** An object equals itself exactly when none of its values is `NaN`. */
  lemma SelfEqualUnlessNaN(o: JsObject)
    ensures ShallowEqualSpec(o, o) <==> forall i :: 0 <= i < |o.entries| ==> !HoldsNaN(Get(o, o.entries[i].0))
  {
    forall i | 0 <= i < |o.entries|
      ensures KeyAgrees(o, o, i) <==> !HoldsNaN(Get(o, o.entries[i].0))
    {
      StrictEqualsReflexive(Get(o, o.entries[i].0));
    }
  }

  /** Objects with different key counts are never equal. */
  lemma DifferentKeyCounts(obj1: JsObject, obj2: JsObject)
    requires |obj1.entries| != |obj2.entries|
    ensures !ShallowEqualSpec(obj1, obj2)
  {
  }

  /** A key the second object lacks compares its first value with
      `undefined`, so `{a: undefined}` equals `{b: 1}` but not the other
      way round. */
  lemma MissingKeyReadsUndefined()
    ensures ShallowEqualSpec(JsObject([("a", Undefined)]), JsObject([("b", Num(JsString.Finite(1.0)))]))
    ensures !ShallowEqualSpec(JsObject([("b", Num(JsString.Finite(1.0)))]), JsObject([("a", Undefined)]))
  {
    var x := JsObject([("a", Undefined)]);
    var y := JsObject([("b", Num(JsString.Finite(1.0)))]);
    assert Get(y, "a") == Undefined;
    assert KeyAgrees(x, y, 0);
    assert Get(x, "b") == Undefined;
    assert !KeyAgrees(y, x, 0);
  }

  /** An object none of whose values is `NaN` equals itself. */
  lemma SelfEqualWithoutNaN(o: JsObject)
    requires forall i :: 0 <= i < |o.entries| ==> !HoldsNaN(o.entries[i].1)
    ensures ShallowEqualSpec(o, o)
  {
    forall i | 0 <= i < |o.entries|
      ensures KeyAgrees(o, o, i)
    {
      var v := Get(o, o.entries[i].0);
      if v != Undefined {
        var j :| 0 <= j < |o.entries| && o.entries[j] == (o.entries[i].0, v);
      }
      StrictEqualsReflexive(v);
    }
  }
}
