/**
 * JavaScript values as the route renderer sees a parsed optimisation
 * response, and the few language operations the renderer applies to them:
 * truthiness, property access, `Object.keys` enumeration, the spread
 * operator `...` and `Array.prototype.flat()`.
 */
module Json {

  datatype Option<T> = None | Some(value: T)

  /** A JavaScript value. Object fields are listed in the order `Object.keys`
      enumerates them; a parsed object never repeats a field name. */
  datatype Value =
    | Undefined
    | Null
    | Bool(b: bool)
    | Num(x: real)
    | Str(s: string)
    | Arr(items: seq<Value>)
    | Obj(fields: seq<(string, Value)>)

  /** JavaScript truthiness (`if (v)`, `v && …`). NaN is not modelled. */
  predicate Truthy(v: Value)
  {
    match v
    case Undefined => false
    case Null => false
    case Bool(b) => b
    case Num(x) => x != 0.0
    case Str(s) => s != ""
    case Arr(_) => true
    case Obj(_) => true
  }

  /** The first field named `key`, or `Undefined`. */
  function Lookup(fields: seq<(string, Value)>, key: string): (r: Value)
    ensures r != Undefined ==> exists i :: 0 <= i < |fields| && fields[i] == (key, r)
    ensures (forall i :: 0 <= i < |fields| ==> fields[i].0 != key) ==> r == Undefined
  {
    if |fields| == 0 then Undefined
    else if fields[0].0 == key then fields[0].1
    else
      var r := Lookup(fields[1..], key);
      assert forall i :: 0 <= i < |fields| - 1 ==> fields[1..][i] == fields[i + 1];
      r
  }

  /** Property access `v.key` (and `v?.key`): only objects carry named
      fields; on any other value the access yields `undefined`. */
  function Field(v: Value, key: string): Value
  {
    if v.Obj? then Lookup(v.fields, key) else Undefined
  }

  /** `Object.keys(v).map(k => v[k])` for a truthy `v`: the elements of an
      array, the field values of an object, the one-character strings of a
      string, and nothing for a number or `true`. */
  function Entries(v: Value): (r: seq<Value>)
    ensures v.Arr? ==> r == v.items
    ensures v.Obj? ==> |r| == |v.fields| && forall i :: 0 <= i < |r| ==> r[i] == v.fields[i].1
    ensures v.Str? ==> |r| == |v.s| && forall i :: 0 <= i < |r| ==> r[i] == Str([v.s[i]])
    ensures !v.Arr? && !v.Obj? && !v.Str? ==> r == []
  {
    match v
    case Arr(items) => items
    case Obj(fields) => seq(|fields|, i requires 0 <= i < |fields| => fields[i].1)
    case Str(s) => seq(|s|, i requires 0 <= i < |s| => Str([s[i]]))
    case _ => []
  }

  /** The comparison `v > 0`. JavaScript converts `true` to 1 and `null`,
      `false` to 0; `undefined` becomes NaN. Strings, arrays and objects are
      taken as not positive. */
  predicate Positive(v: Value)
  {
    match v
    case Num(x) => x > 0.0
    case Bool(b) => b
    case _ => false
  }

  /** The elements the spread operator `...v` produces, or `None` when `v`
      is not iterable and the spread throws a TypeError. */
  function Spread(v: Value): (r: Option<seq<Value>>)
    ensures v.Arr? ==> r == Some(v.items)
    ensures v.Str? ==> r == Some(Entries(v))
    ensures (v.Num? || v.Bool? || v.Obj? || v.Null? || v.Undefined?) <==> r.None?
  {
    match v
    case Arr(items) => Some(items)
    case Str(_) => Some(Entries(v))
    case _ => None
  }

  /** `Array.prototype.flat()` with depth 1: every element that is an array
      is replaced by its elements, every other element is kept. */
  function FlatOnce(s: seq<Value>): (r: seq<Value>)
    ensures (forall i :: 0 <= i < |s| ==> !s[i].Arr?) ==> r == s
  {
    if |s| == 0 then []
    else FlatOnce(s[..|s| - 1]) + (if s[|s| - 1].Arr? then s[|s| - 1].items else [s[|s| - 1]])
  }

  /** `flat()` distributes over concatenation. */
  lemma {:induction false} FlatOnceAppend(a: seq<Value>, b: seq<Value>)
    ensures FlatOnce(a + b) == FlatOnce(a) + FlatOnce(b)
  {
    if |b| == 0 {
      assert a + b == a;
    } else {
      var b' := b[..|b| - 1];
      assert (a + b)[..|a + b| - 1] == a + b';
      FlatOnceAppend(a, b');
    }
  }

  /** A `[lng, lat]` position as JavaScript holds it. */
  predicate IsPair(v: Value)
  {
    v.Arr? && |v.items| == 2 && v.items[0].Num? && v.items[1].Num?
  }

  /** Flattening a line of `[lng, lat]` positions leaves the bare numbers
      `lng0, lat0, lng1, lat1, …` and no position. */
  lemma {:induction false} FlatOnceOfPositions(s: seq<Value>)
    requires forall i :: 0 <= i < |s| ==> IsPair(s[i])
    ensures |FlatOnce(s)| == 2 * |s|
    ensures forall k :: 0 <= k < |s| && IsPair(s[k]) ==>
      FlatOnce(s)[2 * k] == s[k].items[0] && FlatOnce(s)[2 * k + 1] == s[k].items[1]
    ensures forall j :: 0 <= j < |FlatOnce(s)| ==> FlatOnce(s)[j].Num?
  {
    if |s| > 0 {
      var p := s[..|s| - 1];
      FlatOnceOfPositions(p);
      var last := s[|s| - 1];
      assert FlatOnce(s) == FlatOnce(p) + last.items;
      forall k | 0 <= k < |s|
        ensures FlatOnce(s)[2 * k] == s[k].items[0] && FlatOnce(s)[2 * k + 1] == s[k].items[1]
      {
        if k < |p| {
          assert s[k] == p[k];
        }
      }
    }
  }
}
