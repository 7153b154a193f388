/**
 * The small part of JavaScript's value semantics the frontend relies on:
 * nested plain objects of strings, truthiness, property access and
 * `String.prototype.split` with a one-character separator.
 */
module Js {

  /** A value reached while walking a plain object: missing, a string, or a nested object. */
  datatype JsValue = Undefined | Str(s: string) | Obj(fields: map<string, JsValue>)

  /** JavaScript truthiness: objects are truthy, strings unless empty, `undefined` never. */
  predicate Truthy(v: JsValue) {
    match v
    case Undefined => false
    case Str(s) => s != ""
    case Obj(_) => true
  }

  /** `v[key]` on a plain object: the stored value, or `undefined` when the key is absent. */
  function Property(v: JsValue, key: string): (r: JsValue)
    requires v.Obj?
    ensures key !in v.fields ==> r == Undefined
  {
    if key in v.fields then v.fields[key] else Undefined
  }

  /** The keys of an object literal's properties, in source order. */
  function KeyList<V>(props: seq<(string, V)>): seq<string> {
    seq(|props|, i requires 0 <= i < |props| => props[i].0)
  }

  predicate DistinctKeys<V>(props: seq<(string, V)>) {
    forall i, j | 0 <= i < j < |props| :: props[i].0 != props[j].0
  }

  /**
   * The object an object literal `{k1: v1, k2: v2, ...}` denotes: properties are
   * added left to right, so a repeated key keeps its last value.
   */
  function ObjectOf<V>(props: seq<(string, V)>): map<string, V>
    decreases |props|
  {
    if props == [] then map[]
    else ObjectOf(props[..|props| - 1])[props[|props| - 1].0 := props[|props| - 1].1]
  }

  /** An object literal defines exactly the keys it lists. */
  lemma {:induction false} ObjectOfKeys<V>(props: seq<(string, V)>, k: string)
    ensures k in ObjectOf(props) <==> k in KeyList(props)
    decreases |props|
  {
    if props != [] {
      var init := props[..|props| - 1];
      ObjectOfKeys(init, k);
      assert KeyList(props) == KeyList(init) + [props[|props| - 1].0];
    }
  }

  /** With distinct keys, each listed key maps to the value written beside it. */
  lemma {:induction false} ObjectOfLookup<V>(props: seq<(string, V)>, i: nat)
    requires DistinctKeys(props) && i < |props|
    ensures props[i].0 in ObjectOf(props) && ObjectOf(props)[props[i].0] == props[i].1
    decreases |props|
  {
    var last := |props| - 1;
    if i < last {
      var init := props[..last];
      assert init[i] == props[i];
      ObjectOfLookup(init, i);
      assert props[i].0 != props[last].0;
    }
  }

  /** The pieces joined back with the separator between consecutive ones. */
  function Join(parts: seq<string>, sep: char): string
    requires |parts| >= 1
    decreases |parts|
  {
    if |parts| == 1 then parts[0] else parts[0] + [sep] + Join(parts[1..], sep)
  }

  predicate NoSeparator(parts: seq<string>, sep: char) {
    forall i | 0 <= i < |parts| :: sep !in parts[i]
  }

  /**
   * `s.split(sep)`: the maximal separator-free pieces, in order. There is always
   * at least one piece (`"".split('.')` is `[""]`), and joining them gives `s` back.
   */
  function Split(s: string, sep: char): (parts: seq<string>)
    ensures |parts| >= 1
    ensures NoSeparator(parts, sep)
    ensures Join(parts, sep) == s
    decreases |s|
  {
    if s == [] then [""]
    else
      var rest := Split(s[1..], sep);
      if s[0] == sep then [""] + rest
      else [[s[0]] + rest[0]] + rest[1..]
  }

  lemma {:induction false} SplitWithoutSeparator(a: string, sep: char)
    requires sep !in a
    ensures Split(a, sep) == [a]
    decreases |a|
  {
    if a != [] {
      assert sep !in a[1..] by {
        forall i | 0 <= i < |a[1..]| ensures a[1..][i] != sep { assert a[1..][i] == a[i + 1]; }
      }
      SplitWithoutSeparator(a[1..], sep);
      assert [a[0]] + a[1..] == a;
    }
  }

  lemma {:induction false} SplitAfterPiece(a: string, b: string, sep: char)
    requires sep !in a
    ensures Split(a + [sep] + b, sep) == [a] + Split(b, sep)
    decreases |a|
  {
    if a == [] {
      assert a + [sep] + b == [sep] + b;
      assert ([sep] + b)[1..] == b;
    } else {
      var s := a + [sep] + b;
      assert s[0] == a[0];
      assert s[1..] == a[1..] + [sep] + b;
      assert sep !in a[1..] by {
        forall i | 0 <= i < |a[1..]| ensures a[1..][i] != sep { assert a[1..][i] == a[i + 1]; }
      }
      SplitAfterPiece(a[1..], b, sep);
      assert [a[0]] + a[1..] == a;
    }
  }

  /** Splitting the join of separator-free pieces recovers exactly those pieces. */
  lemma {:induction false} SplitJoin(parts: seq<string>, sep: char)
    requires |parts| >= 1 && NoSeparator(parts, sep)
    ensures Split(Join(parts, sep), sep) == parts
    decreases |parts|
  {
    if |parts| == 1 {
      SplitWithoutSeparator(parts[0], sep);
    } else {
      SplitJoin(parts[1..], sep);
      SplitAfterPiece(parts[0], Join(parts[1..], sep), sep);
      assert [parts[0]] + parts[1..] == parts;
    }
  }
}
