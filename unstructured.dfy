/**
 * The loosely-typed resource representation of the Kubernetes client libraries
 * ("unstructured" objects): a JSON-like tree whose inner nodes are string-keyed
 * maps, together with the two path helpers the controllers and their tests use,
 * a total nested lookup and a nested set that creates missing intermediate maps.
 */
module Unstructured {
  import opened Wrappers

  /** Go's int64. */
  newtype int64 = x: int | -0x8000_0000_0000_0000 <= x < 0x8000_0000_0000_0000

  /** A JSON-like value: nil, a string, a 64-bit integer or a nested object. */
  datatype Value =
    | Null
    | Str(s: string)
    | Int(n: int64)
    | Obj(fields: map<string, Value>)

  /** An unstructured resource; `root == None` is a Go value whose Object map is nil. */
  datatype Unstructured = Unstructured(root: Option<map<string, Value>>)

  /** The error of a nested set: the value at `prefix` exists but is not a map. */
  datatype SetError = NotAMap(prefix: seq<string>)

  /**
   * The content of an unstructured resource: a nil Object reads as an empty map.
   */
  function Content(u: Unstructured): map<string, Value>
  {
    match u.root
    case None => map[]
    case Some(m) => m
  }

  /**
   * Follows `path` from `v`, one map key per segment. The walk yields nothing
   * as soon as a key is missing or a value on the way is not a map.
   */
  function Lookup(v: Value, path: seq<string>): Option<Value>
    decreases |path|
  {
    if path == [] then Some(v)
    else match v
      case Obj(m) => if path[0] in m then Lookup(m[path[0]], path[1..]) else None
      case _ => None
  }

  /** The value stored at `path` in the object `obj`, if there is one. */
  function NestedField(obj: map<string, Value>, path: seq<string>): Option<Value>
  {
    Lookup(Obj(obj), path)
  }

  /** The string stored at `path`; nothing when the field is absent or not a string. */
  function NestedString(obj: map<string, Value>, path: seq<string>): Option<string>
  {
    match NestedField(obj, path)
    case Some(Str(s)) => Some(s)
    case _ => None
  }

  /** The int64 stored at `path`; nothing when the field is absent or not an integer. */
  function NestedInt64(obj: map<string, Value>, path: seq<string>): Option<int64>
  {
    match NestedField(obj, path)
    case Some(Int(n)) => Some(n)
    case _ => None
  }

  /** `v` is a value other than a map and other than nil: a nested set cannot walk through it. */
  predicate IsScalar(v: Value)
  {
    !v.Obj? && !v.Null?
  }

  /** The map a nested set descends into under `field`: the one stored there, or a new empty one. */
  function ChildMap(obj: map<string, Value>, field: string): map<string, Value>
  {
    if field in obj && obj[field].Obj? then obj[field].fields else map[]
  }

  /**
   * Stores `value` at `path` in `obj`. A missing or nil map on the way is
   * replaced by a new map; an existing value on the way that is neither a map
   * nor nil is an error naming its path.
   */
  function SetNestedField(obj: map<string, Value>, value: Value, path: seq<string>)
    : (r: Result<map<string, Value>, SetError>)
    requires |path| > 0
    ensures r.Ok? ==> r.value.Keys == obj.Keys + {path[0]}
    ensures r.Ok? ==> forall k :: k in obj && k != path[0] ==> r.value[k] == obj[k]
    decreases |path|
  {
    var field := path[0];
    if |path| == 1 then Ok(obj[field := value])
    else if field in obj && IsScalar(obj[field]) then Err(NotAMap([field]))
    else
      match SetNestedField(ChildMap(obj, field), value, path[1..])
      case Ok(m) => Ok(obj[field := Obj(m)])
      case Err(e) => Err(NotAMap([field] + e.prefix))
  }

  /** `o` is a value that a nested set cannot walk through. */
  predicate Blocks(o: Option<Value>)
  {
    o.Some? && IsScalar(o.value)
  }

  /** `p` is a prefix of `q`. */
  predicate IsPrefix(p: seq<string>, q: seq<string>)
  {
    |p| <= |q| && q[..|p|] == p
  }

  /** Looking up a concatenated path is looking up its two parts one after the other. */
  lemma {:induction false} LookupAppend(v: Value, p: seq<string>, q: seq<string>)
    ensures Lookup(v, p + q) == match Lookup(v, p) case Some(w) => Lookup(w, q) case None => None
    decreases |p|
  {
    if p == [] {
      assert p + q == q;
    } else {
      assert (p + q)[0] == p[0];
      assert (p + q)[1..] == p[1..] + q;
      match v
      case Obj(m) =>
        if p[0] in m {
          LookupAppend(m[p[0]], p[1..], q);
        }
      case _ =>
    }
  }

  /** Once a path is absent, every extension of it is absent too. */
  lemma AbsentPrefixAbsent(obj: map<string, Value>, p: seq<string>, q: seq<string>)
    requires NestedField(obj, p).None?
    ensures NestedField(obj, p + q).None?
  {
    LookupAppend(Obj(obj), p, q);
  }

  /** Round trip: a successful set is read back by a lookup at the same path. */
  lemma {:induction false} SetThenLookup(obj: map<string, Value>, value: Value, path: seq<string>)
    requires |path| > 0
    requires SetNestedField(obj, value, path).Ok?
    ensures NestedField(SetNestedField(obj, value, path).value, path) == Some(value)
    decreases |path|
  {
    if |path| == 1 {
      var m := SetNestedField(obj, value, path).value;
      assert Lookup(m[path[0]], path[1..]) == Some(value) by { assert path[1..] == []; }
    } else {
      var child := ChildMap(obj, path[0]);
      SetThenLookup(child, value, path[1..]);
    }
  }

  /** A successful set leaves a map at every proper prefix of the path. */
  lemma {:induction false} SetCreatesIntermediateMaps(obj: map<string, Value>, value: Value, path: seq<string>, k: nat)
    requires |path| > 0 && k < |path|
    requires SetNestedField(obj, value, path).Ok?
    ensures NestedField(SetNestedField(obj, value, path).value, path[..k]).Some?
    ensures NestedField(SetNestedField(obj, value, path).value, path[..k]).value.Obj?
    decreases |path|
  {
    if k > 0 {
      var child := ChildMap(obj, path[0]);
      assert path[..k][0] == path[0];
      assert path[..k][1..] == path[1..][..k - 1];
      SetCreatesIntermediateMaps(child, value, path[1..], k - 1);
    }
  }

  /** A successful set changes nothing at a path that branches off `path`. */
  lemma {:induction false} SetPreservesOtherPaths(obj: map<string, Value>, value: Value, path: seq<string>, q: seq<string>)
    requires |path| > 0
    requires SetNestedField(obj, value, path).Ok?
    requires !IsPrefix(q, path) && !IsPrefix(path, q)
    ensures NestedField(SetNestedField(obj, value, path).value, q) == NestedField(obj, q)
    decreases |path|
  {
    assert IsPrefix([], path);
    if q[0] == path[0] {
      PrefixCons(q, path);
      PrefixCons(path, q);
      assert IsPrefix([], q[1..]) && IsPrefix([], path[1..]);
      var child := ChildMap(obj, path[0]);
      SetPreservesOtherPaths(child, value, path[1..], q[1..]);
      if path[0] in obj && obj[path[0]] == Null {
        assert Lookup(Null, q[1..]) == None;
      }
    }
  }

  /** Two non-empty paths with the same first segment: prefix order is decided by their tails. */
  lemma PrefixCons(a: seq<string>, b: seq<string>)
    requires |a| > 0 && |b| > 0 && a[0] == b[0]
    ensures IsPrefix(a, b) <==> IsPrefix(a[1..], b[1..])
  {
  }

  /** A successful set places `value` so that paths below `path` are looked up inside it. */
  lemma SetThenLookupBelow(obj: map<string, Value>, value: Value, path: seq<string>, rest: seq<string>)
    requires |path| > 0
    requires SetNestedField(obj, value, path).Ok?
    ensures NestedField(SetNestedField(obj, value, path).value, path + rest) == Lookup(value, rest)
  {
    SetThenLookup(obj, value, path);
    LookupAppend(Obj(SetNestedField(obj, value, path).value), path, rest);
  }

  /** A set on an empty object always succeeds. */
  lemma {:induction false} SetOnEmptySucceeds(value: Value, path: seq<string>)
    requires |path| > 0
    ensures SetNestedField(map[], value, path).Ok?
    decreases |path|
  {
    if |path| > 1 {
      SetOnEmptySucceeds(value, path[1..]);
    }
  }

  /** A failed set names a proper prefix of the path that holds a value that is neither a map nor nil. */
  lemma {:induction false} SetFailsOnlyAtNonMap(obj: map<string, Value>, value: Value, path: seq<string>)
    requires |path| > 0
    requires SetNestedField(obj, value, path).Err?
    ensures var p := SetNestedField(obj, value, path).error.prefix;
      0 < |p| < |path| && IsPrefix(p, path) && Blocks(NestedField(obj, p))
    decreases |path|
  {
    if path[0] in obj && IsScalar(obj[path[0]]) {
      assert path[..1] == [path[0]];
      assert Lookup(obj[path[0]], [path[0]][1..]) == Some(obj[path[0]]) by { assert [path[0]][1..] == []; }
    } else if path[0] !in obj || obj[path[0]] == Null {
      SetOnEmptySucceeds(value, path[1..]);
      assert false;
    } else {
      var child := obj[path[0]].fields;
      SetFailsOnlyAtNonMap(child, value, path[1..]);
      var e := SetNestedField(child, value, path[1..]).error.prefix;
      assert ([path[0]] + e)[0] == path[0];
      assert ([path[0]] + e)[1..] == e;
    }
  }

  /** A successful set walked through maps, nils and absent keys only: no proper prefix of the path blocked it. */
  lemma {:induction false} SetSucceedsOnlyThroughMaps(obj: map<string, Value>, value: Value, path: seq<string>, k: nat)
    requires |path| > 0 && 0 < k < |path|
    requires SetNestedField(obj, value, path).Ok?
    ensures !Blocks(NestedField(obj, path[..k]))
    decreases |path|
  {
    assert path[..k][0] == path[0];
    assert path[..k][1..] == path[1..][..k - 1];
    if path[0] in obj {
      if k == 1 {
        assert Lookup(obj[path[0]], path[..k][1..]) == Some(obj[path[0]]) by { assert path[..k][1..] == []; }
      } else if obj[path[0]].Obj? {
        SetSucceedsOnlyThroughMaps(obj[path[0]].fields, value, path[1..], k - 1);
      } else {
        assert obj[path[0]] == Null;
        assert Lookup(Null, path[..k][1..]) == None;
      }
    }
  }

  /** A nested set succeeds exactly when no proper prefix of the path holds a value that is neither a map nor nil. */
  lemma SetSucceedsIff(obj: map<string, Value>, value: Value, path: seq<string>)
    requires |path| > 0
    ensures SetNestedField(obj, value, path).Ok?
        <==> forall k :: 0 < k < |path| ==> !Blocks(NestedField(obj, path[..k]))
  {
    if SetNestedField(obj, value, path).Ok? {
      forall k | 0 < k < |path| ensures !Blocks(NestedField(obj, path[..k])) {
        SetSucceedsOnlyThroughMaps(obj, value, path, k);
      }
    } else {
      SetFailsOnlyAtNonMap(obj, value, path);
      var p := SetNestedField(obj, value, path).error.prefix;
      assert path[..|p|] == p;
    }
  }

  /** Setting a field to the value it already holds after a set changes nothing. */
  lemma {:induction false} SetIdempotent(obj: map<string, Value>, value: Value, path: seq<string>)
    requires |path| > 0
    requires SetNestedField(obj, value, path).Ok?
    ensures SetNestedField(SetNestedField(obj, value, path).value, value, path)
         == SetNestedField(obj, value, path)
    decreases |path|
  {
    var m := SetNestedField(obj, value, path).value;
    if |path| == 1 {
      assert m[path[0] := value] == m;
    } else {
      var child := ChildMap(obj, path[0]);
      SetIdempotent(child, value, path[1..]);
      var c := SetNestedField(child, value, path[1..]).value;
      assert m[path[0] := Obj(c)] == m;
    }
  }

  /** Round trip of the string accessor: a string stored by a nested set is read back as that string. */
  lemma NestedStringAfterSet(obj: map<string, Value>, str: string, path: seq<string>)
    requires |path| > 0
    requires SetNestedField(obj, Str(str), path).Ok?
    ensures NestedString(SetNestedField(obj, Str(str), path).value, path) == Some(str)
  {
    SetThenLookup(obj, Str(str), path);
  }

  /** A value other than a string stored by a nested set is read by the string accessor as absent. */
  lemma NestedStringOfOtherKind(obj: map<string, Value>, value: Value, path: seq<string>)
    requires |path| > 0 && !value.Str?
    requires SetNestedField(obj, value, path).Ok?
    ensures NestedString(SetNestedField(obj, value, path).value, path) == None
  {
    SetThenLookup(obj, value, path);
  }

  /** Round trip of the int64 accessor: an integer stored by a nested set is read back as that integer. */
  lemma NestedInt64AfterSet(obj: map<string, Value>, n: int64, path: seq<string>)
    requires |path| > 0
    requires SetNestedField(obj, Int(n), path).Ok?
    ensures NestedInt64(SetNestedField(obj, Int(n), path).value, path) == Some(n)
  {
    SetThenLookup(obj, Int(n), path);
  }

  /** A value other than an integer stored by a nested set is read by the int64 accessor as absent. */
  lemma NestedInt64OfOtherKind(obj: map<string, Value>, value: Value, path: seq<string>)
    requires |path| > 0 && !value.Int?
    requires SetNestedField(obj, value, path).Ok?
    ensures NestedInt64(SetNestedField(obj, value, path).value, path) == None
  {
    SetThenLookup(obj, value, path);
  }

  /** A nil on the way is replaced by a new map, as a missing key is: the set succeeds and is read back. */
  lemma NilOnTheWayIsReplaced(obj: map<string, Value>, value: Value, field: string, rest: seq<string>)
    requires field in obj && obj[field] == Null && |rest| > 0
    ensures SetNestedField(obj, value, [field] + rest).Ok?
    ensures NestedField(SetNestedField(obj, value, [field] + rest).value, [field] + rest) == Some(value)
  {
    assert ([field] + rest)[1..] == rest;
    SetOnEmptySucceeds(value, rest);
    SetThenLookup(obj, value, [field] + rest);
  }
}
