/** The dotted-path deep write of src/utils/mydash/set.ts.

    JavaScript values are modelled as a tree: `Obj` is any non-null object
    (arrays included, whose elements are keyed by index strings, since `set`
    treats every `typeof 'object'` value alike), the other cases are the
    primitives. Numbers are integers here. */
module MyDash {
  import opened Wrappers
  import opened Strings

  datatype JsValue =
    | Undefined
    | Null
    | Bool(b: bool)
    | Num(n: int)
    | Str(s: string)
    | Obj(fields: map<string, JsValue>)

  /** `typeof v === 'object' && v !== null`. */
  predicate IsObject(v: JsValue)
  {
    v.Obj?
  }

  /** JavaScript truthiness (`if (v)`). */
  predicate Truthy(v: JsValue)
  {
    match v
    case Undefined => false
    case Null => false
    case Bool(b) => b
    case Num(n) => n != 0
    case Str(s) => s != ""
    case Obj(_) => true
  }

  /** `o[key]`: a missing key reads as `undefined`. */
  function Get(o: JsValue, key: string): JsValue
  {
    if o.Obj? && key in o.fields then o.fields[key] else Undefined
  }

  /** Following `keys` from `o`: `None` once a step leaves the objects or
      misses a key. */
  function Follow(o: JsValue, keys: seq<string>): Option<JsValue>
    decreases |keys|
  {
    if |keys| == 0 then Some(o)
    else if o.Obj? && keys[0] in o.fields then Follow(o.fields[keys[0]], keys[1..])
    else None
  }

  /** The own keys of what a path leads to, or none when it leads nowhere or
      to a primitive. */
  function FieldsOf(v: Option<JsValue>): map<string, JsValue>
  {
    if v.Some? && v.value.Obj? then v.value.fields else map[]
  }

  /** The object the loop steps into at `key`: the existing object, or a
      fresh `{}` replacing a missing key, `null` or a primitive. */
  function ChildFields(m: map<string, JsValue>, key: string): map<string, JsValue>
  {
    if key in m && m[key].Obj? then m[key].fields else map[]
  }

  /** The object with own keys `m` after the write of `value` at `keys`. */
  function WriteFields(m: map<string, JsValue>, keys: seq<string>, value: JsValue): map<string, JsValue>
    requires |keys| > 0
    decreases |keys|
  {
    if |keys| == 1 then m[keys[0] := value]
    else m[keys[0] := Obj(WriteFields(ChildFields(m, keys[0]), keys[1..], value))]
  }

  /** `set(target, path, value)`: a non-object target is returned untouched,
      otherwise the path is split on '.' and written. */
  function Set(target: JsValue, path: string, value: JsValue): JsValue
  {
    if !IsObject(target) then target
    else Obj(WriteFields(target.fields, Split(path, '.'), value))
  }

  /** The loop of set.ts: walk down the first |keys|-1 segments, stepping into
      existing objects and replacing anything else with `{}`, then write the
      last segment. The objects met on the way are kept in `spine`; since
      they are values here, the second loop links each written child back
      into its parent, which JavaScript gets for free from sharing. */
  method SetPath(target: JsValue, path: string, value: JsValue) returns (result: JsValue)
    ensures result == Set(target, path, value)
  {
    if !IsObject(target) {
      return target;
    }
    var keys := Split(path, '.');
    var current := target.fields;
    var spine := [current];
    var i := 0;
    while i < |keys| - 1
      invariant 0 <= i <= |keys| - 1
      invariant |spine| == i + 1 && spine[0] == target.fields && spine[i] == current
      invariant forall j :: 0 <= j < i ==> spine[j + 1] == ChildFields(spine[j], keys[j])
    {
      var key := keys[i];
      if !(key in current && IsObject(current[key])) {
        current := map[];
      } else {
        current := current[key].fields;
      }
      spine := spine + [current];
      i := i + 1;
    }
    var written := current[keys[|keys| - 1] := value];
    var k := |keys| - 1;
    assert keys[k..] == [keys[k]];
    while k > 0
      invariant 0 <= k <= |keys| - 1
      invariant written == WriteFields(spine[k], keys[k..], value)
    {
      k := k - 1;
      assert keys[k..][1..] == keys[k + 1..];
      written := spine[k][keys[k] := Obj(written)];
    }
    result := Obj(written);
  }

  /** After the write, following the path from the target yields the value. */
  lemma {:induction false} WriteFieldsReaches(m: map<string, JsValue>, keys: seq<string>, value: JsValue)
    requires |keys| > 0
    ensures Follow(Obj(WriteFields(m, keys, value)), keys) == Some(value)
    decreases |keys|
  {
    if |keys| > 1 {
      WriteFieldsReaches(ChildFields(m, keys[0]), keys[1..], value);
    }
  }

  /** At every level j of the path, the object reached in the result is an
      object whose keys other than the path's next segment are exactly those
      of the object reached in the original: an object intermediate keeps its
      other keys, a missing or non-object intermediate becomes a fresh `{}`. */
  lemma {:induction false} WriteFieldsKeepsOthers(m: map<string, JsValue>, keys: seq<string>, value: JsValue, j: nat)
    requires j < |keys|
    ensures var after := Follow(Obj(WriteFields(m, keys, value)), keys[..j]);
            var before := FieldsOf(Follow(Obj(m), keys[..j]));
            && after.Some? && after.value.Obj?
            && (forall k :: k != keys[j] ==> (k in after.value.fields <==> k in before))
            && (forall k :: k != keys[j] && k in before ==> after.value.fields[k] == before[k])
    decreases j
  {
    if j > 0 {
      var child := ChildFields(m, keys[0]);
      WriteFieldsKeepsOthers(child, keys[1..], value, j - 1);
      assert keys[..j][1..] == keys[1..][..j - 1];
      assert |keys| > 1;
      var o := Obj(m);
      if keys[0] in m && m[keys[0]].Obj? {
        assert Follow(o, keys[..j]) == Follow(Obj(child), keys[1..][..j - 1]);
      } else {
        // the original path ends here: nothing below it to keep
        if keys[0] in m {
          assert Follow(o, keys[..j]) == Follow(m[keys[0]], keys[1..][..j - 1]);
        }
        assert FieldsOf(Follow(o, keys[..j])) == map[];
        WriteFieldsOnlyPath(child, keys[1..], value, j - 1);
      }
    } else {
      assert keys[..0] == [];
    }
  }

  /** Written into an empty object, each level holds only the path key. */
  lemma {:induction false} WriteFieldsOnlyPath(m: map<string, JsValue>, keys: seq<string>, value: JsValue, j: nat)
    requires j < |keys|
    requires m == map[]
    ensures var after := Follow(Obj(WriteFields(m, keys, value)), keys[..j]);
            after.Some? && after.value.Obj? && after.value.fields.Keys == {keys[j]}
    decreases j
  {
    if j > 0 {
      WriteFieldsOnlyPath(map[], keys[1..], value, j - 1);
      assert keys[..j][1..] == keys[1..][..j - 1];
    } else {
      assert keys[..0] == [];
    }
  }

  /** set.ts, as seen from outside: a non-object target comes back unchanged; on an
      object, following the split path yields the value and the result stays
      an object. */
  lemma SetWrites(target: JsValue, path: string, value: JsValue)
    ensures !IsObject(target) ==> Set(target, path, value) == target
    ensures IsObject(target) ==>
      IsObject(Set(target, path, value)) && Follow(Set(target, path, value), Split(path, '.')) == Some(value)
  {
    if IsObject(target) {
      WriteFieldsReaches(target.fields, Split(path, '.'), value);
    }
  }

  /** A path without '.' assigns the top-level key directly. */
  lemma SetPlainKey(target: JsValue, key: string, value: JsValue)
    requires IsObject(target) && '.' !in key
    ensures Set(target, key, value) == Obj(target.fields[key := value])
  {
    SplitNoSep(key, '.');
  }

  /** Keys off the path are untouched at the top level. */
  lemma SetTopLevelOthers(target: JsValue, path: string, value: JsValue, key: string)
    requires IsObject(target) && key != Split(path, '.')[0]
    ensures Get(Set(target, path, value), key) == Get(target, key)
  {
  }
}
