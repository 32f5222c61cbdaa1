/** Lookup in a fixed table written as a JavaScript object literal (`TABLE[key]`). Besides its own
    keys, such an object answers for the members it inherits from `Object.prototype`: `TABLE["toString"]`
    is a function, not `undefined`. The prompt builder and the report routes all index such tables with
    text that comes from outside. */
module Registry {

  /** The properties every object literal inherits from `Object.prototype` (ECMAScript, section 20.1.3,
      and the legacy accessors of Annex B.2.2). */
  const ObjectPrototypeMembers: set<string> := {
    "constructor", "hasOwnProperty", "isPrototypeOf", "propertyIsEnumerable", "toLocaleString",
    "toString", "valueOf", "__proto__", "__defineGetter__", "__defineSetter__",
    "__lookupGetter__", "__lookupSetter__"
  }

  datatype Found<+V> =
    | Own(value: V)       // one of the table's keys
    | Inherited(name: string)  // a member of Object.prototype
    | Absent              // undefined

  /** `table[key]`. */
  function Find<V>(table: seq<(string, V)>, key: string): Found<V> {
    if |table| == 0 then (if key in ObjectPrototypeMembers then Inherited(key) else Absent)
    else if table[0].0 == key then Own(table[0].1)
    else Find(table[1..], key)
  }

  /** A lookup finds the table's value for a key it has (the first such entry), a member of
      `Object.prototype` for a name the table lacks, and nothing otherwise. */
  lemma {:induction false} FindSpec<V>(table: seq<(string, V)>, key: string)
    ensures Find(table, key).Own? ==> exists i | 0 <= i < |table| :: table[i] == (key, Find(table, key).value)
    ensures Find(table, key).Own? <==> exists i | 0 <= i < |table| :: table[i].0 == key
    ensures Find(table, key).Inherited? <==>
              (forall i | 0 <= i < |table| :: table[i].0 != key) && key in ObjectPrototypeMembers
    ensures Find(table, key).Inherited? ==> Find(table, key).name == key
  {
    if |table| > 0 && table[0].0 != key {
      FindSpec(table[1..], key);
      if Find(table, key).Own? {
        var i :| 0 <= i < |table[1..]| && table[1..][i] == (key, Find(table, key).value);
        assert table[i + 1] == (key, Find(table, key).value);
      }
      if exists i | 0 <= i < |table| :: table[i].0 == key {
        var i :| 0 <= i < |table| && table[i].0 == key;
        assert table[1..][i - 1].0 == key;
      }
      if forall i | 0 <= i < |table[1..]| :: table[1..][i].0 != key {
        forall i | 0 <= i < |table| ensures table[i].0 != key {
          if i > 0 { assert table[i] == table[1..][i - 1]; }
        }
      }
    }
  }

  /** A lookup checks the first key, then the rest of the table. */
  lemma FindCons<V>(k: string, v: V, rest: seq<(string, V)>, key: string)
    ensures Find([(k, v)] + rest, key) == if key == k then Own(v) else Find(rest, key)
  {
    assert ([(k, v)] + rest)[1..] == rest;
  }

  /** A lookup in a table of six entries checks the keys in order, then the inherited members. */
  lemma FindSix<V>(k0: string, v0: V, k1: string, v1: V, k2: string, v2: V,
                   k3: string, v3: V, k4: string, v4: V, k5: string, v5: V, key: string)
    ensures Find([(k0, v0), (k1, v1), (k2, v2), (k3, v3), (k4, v4), (k5, v5)], key)
         == if key == k0 then Own(v0) else if key == k1 then Own(v1) else if key == k2 then Own(v2)
            else if key == k3 then Own(v3) else if key == k4 then Own(v4) else if key == k5 then Own(v5)
            else Find([], key)
  {
    var r5 := [(k5, v5)];
    var r4 := [(k4, v4)] + r5;
    var r3 := [(k3, v3)] + r4;
    var r2 := [(k2, v2)] + r3;
    var r1 := [(k1, v1)] + r2;
    FindCons(k5, v5, [], key);
    assert r5 == r5 + [];
    FindCons(k4, v4, r5, key);
    FindCons(k3, v3, r4, key);
    FindCons(k2, v2, r3, key);
    FindCons(k1, v1, r2, key);
    FindCons(k0, v0, r1, key);
    assert [(k0, v0), (k1, v1), (k2, v2), (k3, v3), (k4, v4), (k5, v5)] == [(k0, v0)] + r1;
  }

  /** `String(table[key])` for an inherited member: `Object.prototype` itself prints as
      `[object Object]`, `constructor` is the `Object` function, and the other built-in methods
      print as native function source under their own names. */
  function InheritedText(name: string): string {
    if name == "__proto__" then "[object Object]"
    else if name == "constructor" then "function Object() { [native code] }"
    else "function " + name + "() { [native code] }"
  }
}
