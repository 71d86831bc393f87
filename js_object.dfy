/**
 * Plain JavaScript objects and values, as the data service reads and
 * writes them: an object is its own enumerable keys in insertion order
 * together with the value of each key.
 */
module JsObject {
  import opened JsArray

  /** A plain object: `keys` in insertion order, `vals` the value of each. */
  datatype Obj<+V> = Obj(keys: seq<string>, vals: map<string, V>) {

    /** Every key is listed once, and exactly the keys of `vals` are listed. */
    ghost predicate Valid() {
      && Distinct(keys)
      && (forall k :: k in vals <==> k in keys)
    }
  }

  /** A JavaScript value (numbers are integers here). */
  datatype Value =
    | Undefined
    | Null
    | Bool(b: bool)
    | Num(n: int)
    | Str(s: string)
    | Arr(items: seq<Value>)
    | Object(fields: Obj<Value>)

  /** A stored document or a request payload. */
  type Doc = Obj<Value>

  /** `o[k]`: the value under `k`, `undefined` when there is none. */
  function Get(o: Doc, k: string): Value {
    if k in o.vals then o.vals[k] else Undefined
  }

  /** Every object a document holds at its top level is a well-formed object too. */
  ghost predicate NestedValid(d: Doc) {
    forall k :: k in d.vals && d.vals[k].Object? ==> d.vals[k].fields.Valid()
  }

  /** JavaScript truthiness: `undefined`, `null`, `false`, `0` and `""` are falsy. */
  predicate Truthy(v: Value) {
    match v
    case Undefined => false
    case Null => false
    case Bool(b) => b
    case Num(n) => n != 0
    case Str(s) => s != ""
    case Arr(_) => true
    case Object(_) => true
  }

  /** `{}` */
  function Empty<V>(): (o: Obj<V>)
    ensures o.Valid() && o.vals == map[]
  {
    Obj([], map[])
  }

  /**
   * `o[k] = v`: an existing key keeps its position and gets the new value,
   * a new key is appended.
   */
  function Put<V>(o: Obj<V>, k: string, v: V): (r: Obj<V>)
    requires o.Valid()
    ensures r.Valid()
    ensures r.vals == o.vals[k := v]
    ensures r.keys == if k in o.vals then o.keys else o.keys + [k]
  {
    if k in o.vals then Obj(o.keys, o.vals[k := v])
    else
      DistinctPush(o.keys, k);
      Obj(o.keys + [k], o.vals[k := v])
  }

  /**
   * Writes `source[k]` into `target` for every `k` of `ks`, one after the
   * other (the loop inside `_.assign`).
   */
  function PutAll<V>(target: Obj<V>, source: Obj<V>, ks: seq<string>): (r: Obj<V>)
    requires target.Valid()
    requires forall k :: k in ks ==> k in source.vals
    ensures r.Valid()
    ensures forall k :: k in r.vals <==> k in target.vals || k in ks
    ensures forall k :: k in ks ==> r.vals[k] == source.vals[k]
    ensures forall k :: k in target.vals && k !in ks ==> r.vals[k] == target.vals[k]
    decreases |ks|
  {
    if ks == [] then target
    else
      var next := Put(target, ks[0], source.vals[ks[0]]);
      var r := PutAll(next, source, ks[1..]);
      assert forall k :: k in ks <==> k == ks[0] || k in ks[1..];
      r
  }

  /** Writing one more key after a run of writes. */
  lemma {:induction false} PutAllSnoc<V>(target: Obj<V>, source: Obj<V>, ks: seq<string>, k: string)
    requires target.Valid()
    requires forall x :: x in ks ==> x in source.vals
    requires k in source.vals
    ensures PutAll(target, source, ks + [k]) == Put(PutAll(target, source, ks), k, source.vals[k])
    decreases |ks|
  {
    if ks != [] {
      assert (ks + [k])[0] == ks[0];
      assert (ks + [k])[1..] == ks[1..] + [k];
      PutAllSnoc(Put(target, ks[0], source.vals[ks[0]]), source, ks[1..], k);
    }
  }

  /**
   * `_.assign(target, source)`: copies every own key of `source` into
   * `target`; on a key both have, the source's value wins.
   */
  function Assign<V>(target: Obj<V>, source: Obj<V>): (r: Obj<V>)
    requires target.Valid() && source.Valid()
    ensures r.Valid()
    ensures r.vals == target.vals + source.vals
  {
    var r := PutAll(target, source, source.keys);
    assert forall k :: k in r.vals <==> k in (target.vals + source.vals);
    r
  }

  /**
   * `_.pick(o, names)`: the keys of `names` that `o` has, with their values,
   * in the order of `names`.
   */
  function Pick<V>(o: Obj<V>, names: seq<string>): (r: Obj<V>)
    requires o.Valid()
    ensures r.Valid()
    ensures forall k :: k in r.vals <==> k in names && k in o.vals
    ensures forall k :: k in r.vals ==> r.vals[k] == o.vals[k]
    decreases |names|
  {
    if names == [] then Empty()
    else
      var front := Pick(o, names[..|names| - 1]);
      var k := names[|names| - 1];
      if k in o.vals then Put(front, k, o.vals[k]) else front
  }

  /** Picking distinct keys that are all present lists them in the order given. */
  lemma {:induction false} PickKeys<V>(o: Obj<V>, names: seq<string>)
    requires o.Valid() && Distinct(names)
    requires forall k :: k in names ==> k in o.vals
    ensures Pick(o, names).keys == names
    decreases |names|
  {
    if names != [] {
      var front := names[..|names| - 1];
      var last := names[|names| - 1];
      DistinctPrefix(names, |names| - 1);
      DistinctBefore(names, |names| - 1);
      PickKeys(o, front);
      assert last !in Pick(o, front).vals;
      FrontAndLast(names);
    }
  }

  /** A non-empty sequence is its front followed by its last element. */
  lemma FrontAndLast<T>(s: seq<T>)
    requires s != []
    ensures s[..|s| - 1] + [s[|s| - 1]] == s
  {
  }

  /** `_.pick(o, _.keys(o))` is a copy of `o`: same keys, same order, same values. */
  lemma PickAll<V>(o: Obj<V>)
    requires o.Valid()
    ensures Pick(o, o.keys) == o
  {
    var p := Pick(o, o.keys);
    PickKeys(o, o.keys);
    assert p.keys == o.keys;
    assert forall k :: k in p.vals <==> k in o.vals;
    SameMap(p.vals, o.vals);
  }

  /** Two maps with the same keys and the same value under each key are equal. */
  lemma SameMap<V>(a: map<string, V>, b: map<string, V>)
    requires forall k :: k in a <==> k in b
    requires forall k :: k in a ==> a[k] == b[k]
    ensures a == b
  {
  }
}
