/** JSON values (RFC 8259) as the route handlers see them after `request.json()`, with the object
    operations the handlers use: property lookup, object spread and property assignment. Parsing and
    serialisation are runtime services, so the model takes them as given functions (`Codec`). */
module Json {
  import opened Wrappers
  import opened JsText

  datatype Json =
    | Null
    | Bool(b: bool)
    | Num(n: real)
    | Str(s: string)
    | Arr(items: seq<Json>)
    | Obj(fields: seq<(string, Json)>)

  /** JavaScript truthiness of a property that may be `undefined` (None). NaN is not modelled. */
  predicate Truthy(v: Option<Json>) {
    match v
    case None => false
    case Some(Null) => false
    case Some(Bool(b)) => b
    case Some(Num(n)) => n != 0.0
    case Some(Str(s)) => s != ""
    case Some(_) => true
  }

  /** `v.length > 0`: arrays and strings have a length; an object may carry a `length` property,
      compared as a number (`true` as 1); other values have none, and the comparison with
      `undefined` is false. */
  predicate LengthPositive(v: Json) {
    match v
    case Arr(items) => |items| > 0
    case Str(s) => |s| > 0
    case Obj(fields) =>
      (match Get(fields, "length")
       case Some(Num(n)) => n > 0.0
       case Some(Bool(b)) => b
       case _ => false)
    case _ => false
  }

  /** Property lookup `obj[key]` on an object given by its fields; the first field wins. */
  function Get(fields: seq<(string, Json)>, key: string): (r: Option<Json>)
  {
    if |fields| == 0 then None
    else if fields[0].0 == key then Some(fields[0].1)
    else Get(fields[1..], key)
  }

  /** A lookup finds nothing exactly when no field has the key, and what it finds is the value of
      a field with the key. */
  lemma {:induction false} GetSpec(fields: seq<(string, Json)>, key: string)
    ensures Get(fields, key).None? <==> forall i | 0 <= i < |fields| :: fields[i].0 != key
    ensures Get(fields, key).Some? ==> exists i | 0 <= i < |fields| :: fields[i] == (key, Get(fields, key).value)
  {
    if |fields| > 0 && fields[0].0 != key {
      GetSpec(fields[1..], key);
      assert forall i | 1 <= i < |fields| :: fields[i] == fields[1..][i - 1];
      if Get(fields, key).Some? {
        var i :| 0 <= i < |fields[1..]| && fields[1..][i] == (key, Get(fields, key).value);
        assert fields[i + 1] == (key, Get(fields, key).value);
      }
    } else if |fields| > 0 {
      assert fields[0] == (key, Get(fields, key).value);
    }
  }

  /** A lookup in an object literal checks its first field, then the rest. */
  lemma GetCons(k: string, v: Json, rest: seq<(string, Json)>, key: string)
    ensures Get([(k, v)] + rest, key) == if key == k then Some(v) else Get(rest, key)
  {
    assert ([(k, v)] + rest)[1..] == rest;
  }

  /** A lookup in an object literal of one field. */
  lemma GetOfOne(k0: string, v0: Json, key: string)
    ensures Get([(k0, v0)], key) == if key == k0 then Some(v0) else None
  {
    GetCons(k0, v0, [], key);
    assert [(k0, v0)] == [(k0, v0)] + [];
  }

  /** A lookup in the fields of two objects written one after the other. */
  lemma {:induction false} GetAppend(a: seq<(string, Json)>, b: seq<(string, Json)>, key: string)
    ensures Get(a + b, key) == if Get(a, key).Some? then Get(a, key) else Get(b, key)
  {
    if |a| > 0 {
      assert (a + b)[1..] == a[1..] + b;
      GetAppend(a[1..], b, key);
    } else {
      assert a + b == b;
    }
  }

  /** The field `key: v` of an object literal as it is serialised: absent when `v` is undefined. */
  function Defined(key: string, v: Option<Json>): (r: seq<(string, Json)>)
    ensures forall k :: Get(r, k) == if k == key then v else None
  {
    match v
    case None => []
    case Some(x) => [(key, x)]
  }

  /** A lookup in an object literal of three fields finds the first field with the key. */
  lemma GetOfThree(k0: string, v0: Json, k1: string, v1: Json, k2: string, v2: Json, key: string)
    ensures Get([(k0, v0), (k1, v1), (k2, v2)], key)
         == if key == k0 then Some(v0) else if key == k1 then Some(v1) else if key == k2 then Some(v2) else None
  {
    GetCons(k2, v2, [], key);
    GetCons(k1, v1, [(k2, v2)], key);
    GetCons(k0, v0, [(k1, v1), (k2, v2)], key);
    assert [(k2, v2)] == [(k2, v2)] + [];
    assert [(k0, v0), (k1, v1), (k2, v2)] == [(k0, v0)] + [(k1, v1), (k2, v2)];
  }

  /** A lookup in an object literal of four fields finds the first field with the key. */
  lemma GetOfFour(k0: string, v0: Json, k1: string, v1: Json, k2: string, v2: Json, k3: string, v3: Json,
                  key: string)
    ensures Get([(k0, v0), (k1, v1), (k2, v2), (k3, v3)], key)
         == if key == k0 then Some(v0) else if key == k1 then Some(v1) else if key == k2 then Some(v2)
            else if key == k3 then Some(v3) else None
  {
    GetOfThree(k1, v1, k2, v2, k3, v3, key);
    GetCons(k0, v0, [(k1, v1), (k2, v2), (k3, v3)], key);
    assert [(k0, v0), (k1, v1), (k2, v2), (k3, v3)] == [(k0, v0)] + [(k1, v1), (k2, v2), (k3, v3)];
  }

  /** A lookup in an object literal of five fields finds the first field with the key. */
  lemma GetOfFive(k0: string, v0: Json, k1: string, v1: Json, k2: string, v2: Json, k3: string, v3: Json,
                  k4: string, v4: Json, key: string)
    ensures Get([(k0, v0), (k1, v1), (k2, v2), (k3, v3), (k4, v4)], key)
         == if key == k0 then Some(v0) else if key == k1 then Some(v1) else if key == k2 then Some(v2)
            else if key == k3 then Some(v3) else if key == k4 then Some(v4) else None
  {
    GetCons(k4, v4, [], key);
    GetCons(k3, v3, [(k4, v4)], key);
    GetCons(k2, v2, [(k3, v3), (k4, v4)], key);
    GetCons(k1, v1, [(k2, v2), (k3, v3), (k4, v4)], key);
    GetCons(k0, v0, [(k1, v1), (k2, v2), (k3, v3), (k4, v4)], key);
    assert [(k4, v4)] == [(k4, v4)] + [];
    assert [(k0, v0), (k1, v1), (k2, v2), (k3, v3), (k4, v4)] == [(k0, v0)] + [(k1, v1), (k2, v2), (k3, v3), (k4, v4)];
  }

  /** Property assignment `obj[key] = v` (also what `{...obj, key: v}` does): an existing property keeps
      its place and takes the new value, a new one is added at the end. */
  function Put(fields: seq<(string, Json)>, key: string, v: Json): (r: seq<(string, Json)>)
    ensures Get(r, key) == Some(v)
    ensures forall k | k != key :: Get(r, k) == Get(fields, k)
  {
    if |fields| == 0 then [(key, v)]
    else if fields[0].0 == key then [(key, v)] + fields[1..]
    else [fields[0]] + Put(fields[1..], key, v)
  }

  /** Assigning `undefined`: the property disappears from the serialised object. */
  function Remove(fields: seq<(string, Json)>, key: string): (r: seq<(string, Json)>)
    ensures Get(r, key) == None
    ensures forall k | k != key :: Get(r, k) == Get(fields, k)
  {
    if |fields| == 0 then []
    else if fields[0].0 == key then Remove(fields[1..], key)
    else [fields[0]] + Remove(fields[1..], key)
  }

  /** `{ ...obj, key: v }` where `v` may be `undefined`. */
  function Assign(fields: seq<(string, Json)>, key: string, v: Option<Json>): (r: seq<(string, Json)>)
    ensures Get(r, key) == v
    ensures forall k | k != key :: Get(r, k) == Get(fields, k)
  {
    match v
    case Some(x) => Put(fields, key, x)
    case None => Remove(fields, key)
  }

  /** Three assignments to distinct keys: each key has its value, every other key keeps the
      object's. */
  lemma AssignedThree(fields: seq<(string, Json)>, k0: string, v0: Json, k1: string, v1: Json,
                      k2: string, v2: Option<Json>)
    requires k0 != k1 && k0 != k2 && k1 != k2
    ensures var r := Assign(Put(Put(fields, k0, v0), k1, v1), k2, v2);
            && Get(r, k0) == Some(v0) && Get(r, k1) == Some(v1) && Get(r, k2) == v2
            && forall k | k != k0 && k != k1 && k != k2 :: Get(r, k) == Get(fields, k)
  {
  }

  /** Assigning the value a property already has changes nothing. */
  lemma {:induction false} PutSame(fields: seq<(string, Json)>, key: string, v: Json)
    requires Get(fields, key) == Some(v)
    ensures Put(fields, key, v) == fields
  {
    if fields[0].0 != key {
      PutSame(fields[1..], key, v);
    }
  }

  /** Removing a property the object does not have changes nothing. */
  lemma {:induction false} RemoveAbsent(fields: seq<(string, Json)>, key: string)
    requires Get(fields, key) == None
    ensures Remove(fields, key) == fields
  {
    if |fields| > 0 {
      RemoveAbsent(fields[1..], key);
    }
  }

  /** The value the last of `pairs` with `key` gives, or `dflt` when none has it. */
  function Binding(pairs: seq<(string, Option<Json>)>, key: string, dflt: Option<Json>): Option<Json> {
    if |pairs| == 0 then dflt
    else if pairs[|pairs| - 1].0 == key then pairs[|pairs| - 1].1
    else Binding(pairs[..|pairs| - 1], key, dflt)
  }

  /** With pairwise distinct keys, the pair holding a key gives its value. */
  lemma {:induction false} BindingAt(pairs: seq<(string, Option<Json>)>, i: nat, dflt: Option<Json>)
    requires i < |pairs|
    requires forall j | i < j < |pairs| :: pairs[j].0 != pairs[i].0
    ensures Binding(pairs, pairs[i].0, dflt) == pairs[i].1
  {
    if i < |pairs| - 1 {
      BindingAt(pairs[..|pairs| - 1], i, dflt);
    }
  }

  /** A key that no pair holds gives the default. */
  lemma {:induction false} BindingMissing(pairs: seq<(string, Option<Json>)>, key: string, dflt: Option<Json>)
    requires forall j | 0 <= j < |pairs| :: pairs[j].0 != key
    ensures Binding(pairs, key, dflt) == dflt
  {
    if |pairs| > 0 {
      BindingMissing(pairs[..|pairs| - 1], key, dflt);
    }
  }

  /** `{ ...obj, k1: v1, ..., kn: vn }`, which is also `{ ...obj, ...form }` for a form object with
      these properties: a key the pairs hold takes the last such value, any other keeps the object's. */
  function Overlay(fields: seq<(string, Json)>, pairs: seq<(string, Option<Json>)>): (r: seq<(string, Json)>)
    ensures forall k :: Get(r, k) == Binding(pairs, k, Get(fields, k))
  {
    if |pairs| == 0 then fields
    else Assign(Overlay(fields, pairs[..|pairs| - 1]), pairs[|pairs| - 1].0, pairs[|pairs| - 1].1)
  }

  /** The keys of the pairs, in order. */
  function KeysOf(pairs: seq<(string, Option<Json>)>): (r: seq<string>)
    ensures |r| == |pairs|
    ensures forall j | 0 <= j < |pairs| :: r[j] == pairs[j].0
  {
    seq(|pairs|, j requires 0 <= j < |pairs| => pairs[j].0)
  }

  /** The object has every value of the pairs under its key (undefined meaning absent). */
  predicate Carries(fields: seq<(string, Json)>, pairs: seq<(string, Option<Json>)>) {
    forall j | 0 <= j < |pairs| :: Get(fields, pairs[j].0) == pairs[j].1
  }

  /** Spreading pairs with distinct keys: each key takes its pair's value, every other key keeps
      the object's. */
  lemma OverlayDistinct(fields: seq<(string, Json)>, pairs: seq<(string, Option<Json>)>)
    requires forall i, j | 0 <= i < j < |pairs| :: pairs[i].0 != pairs[j].0
    ensures Carries(Overlay(fields, pairs), pairs)
    ensures forall k | k !in KeysOf(pairs) :: Get(Overlay(fields, pairs), k) == Get(fields, k)
  {
    forall j | 0 <= j < |pairs|
      ensures Get(Overlay(fields, pairs), pairs[j].0) == pairs[j].1
    {
      BindingAt(pairs, j, Get(fields, pairs[j].0));
    }
    forall k | k !in KeysOf(pairs)
      ensures Get(Overlay(fields, pairs), k) == Get(fields, k)
    {
      BindingMissing(pairs, k, Get(fields, k));
    }
  }

  /** Spreading pairs that repeat the object's own values gives back the same object, fields and
      order included. */
  lemma {:induction false} OverlayKeeps(fields: seq<(string, Json)>, pairs: seq<(string, Option<Json>)>)
    requires forall j | 0 <= j < |pairs| :: Get(fields, pairs[j].0) == pairs[j].1
    ensures Overlay(fields, pairs) == fields
  {
    if |pairs| > 0 {
      var n := |pairs| - 1;
      OverlayKeeps(fields, pairs[..n]);
      match pairs[n].1
      case Some(v) => PutSame(fields, pairs[n].0, v);
      case None => RemoveAbsent(fields, pairs[n].0);
    }
  }

  /** The own enumerable properties that `{ ...v }` copies: an object's fields, an array's or a
      string's indexed elements, and nothing for null, booleans and numbers. */
  function Spread(v: Json): (r: seq<(string, Json)>)
    ensures v.Obj? ==> r == v.fields
    ensures v.Null? || v.Bool? || v.Num? ==> r == []
  {
    match v
    case Obj(fields) => fields
    case Arr(items) => seq(|items|, i requires 0 <= i < |items| => (NatText(i), items[i]))
    case Str(s) => seq(|s|, i requires 0 <= i < |s| => (NatText(i), Str([s[i]])))
    case _ => []
  }

  /** String conversion of a possibly undefined value, as template literals and `String(v)` do it
      (ToString of ECMAScript, section 7.1.17): arrays print their elements separated by commas with
      null shown as the empty string, objects print as `[object Object]`. */
  function Text(v: Option<Json>, fmt: NumberFormat): string {
    match v
    case None => "undefined"
    case Some(x) => ValueText(x, fmt)
  }

  function ValueText(v: Json, fmt: NumberFormat): string
    decreases v, 0
  {
    match v
    case Null => "null"
    case Bool(b) => if b then "true" else "false"
    case Num(n) => fmt.show(n)
    case Str(s) => s
    case Arr(items) => Join(seq(|items|, i requires 0 <= i < |items| => ElementText(items[i], fmt)), ",")
    case Obj(_) => "[object Object]"
  }

  function ElementText(v: Json, fmt: NumberFormat): string
    decreases v, 1
  {
    if v.Null? then "" else ValueText(v, fmt)
  }

  /** The JSON runtime: `JSON.stringify(v)`, `JSON.stringify(v, null, 2)` and `JSON.parse(text)`, the
      last returning None where it throws. */
  datatype Codec = Codec(
    stringify: Json -> string,
    stringifyIndented: Json -> string,
    parse: string -> Option<Json>)

  /** `JSON.parse("")` throws: by RFC 8259, section 2, a JSON text holds a value. */
  predicate RejectsEmpty(codec: Codec) {
    codec.parse("") == None
  }
}
