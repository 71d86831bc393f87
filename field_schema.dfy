/**
 * The field schema of a data service and its normalisation
 * (`DataService._normalizeFields`): a list whose entries are field names or
 * field descriptor objects, nested to any depth, becomes a map from field
 * name to descriptor.
 */
module FieldSchema {
  import opened Wrappers
  import opened JsArray
  import opened JsObject

  /** One entry of a configured field list. */
  datatype FieldEntry =
    | NameEntry(name: string)                                    // a string
    | DescriptorEntry(name: string, fields: Option<FieldList>)  // an object `{name, fields?}`
    | OtherEntry                                                 // a number, a boolean, `undefined`, ...

  /**
   * A JavaScript array of field entries. A nested `fields` that is truthy
   * (an array, even an empty one) is `Some`; an absent one is `None`.
   */
  datatype FieldList = FieldList(entries: seq<FieldEntry>)

  /** A normalised field: its name and, for an object field, its sub-fields. */
  datatype FieldDescriptor = FieldDescriptor(name: string, fields: Option<FieldMap>)

  /** Field name to descriptor, in the order the names were first met. */
  type FieldMap = Obj<FieldDescriptor>

  /** The error thrown for an entry that is neither a string nor an object. */
  datatype SchemaError = WrongFieldType

  /** The key an entry is stored under (an entry of another type is never stored). */
  function EntryName(e: FieldEntry): string {
    match e
    case NameEntry(n) => n
    case DescriptorEntry(n, _) => n
    case OtherEntry => ""
  }

  /** The names of a list of entries, in order. */
  function Names(es: seq<FieldEntry>): (r: seq<string>)
    ensures |r| == |es| && forall j :: 0 <= j < |es| ==> r[j] == EntryName(es[j])
  {
    if es == [] then [] else [EntryName(es[0])] + Names(es[1..])
  }

  /** No entry after the `j`-th has the same name. */
  predicate LastWithName(list: FieldList, j: int)
    requires 0 <= j < |list.entries|
  {
    forall j' :: j < j' < |list.entries| ==> EntryName(list.entries[j']) != EntryName(list.entries[j])
  }

  /** The descriptor one entry yields, normalising its nested fields. */
  function Describe(e: FieldEntry): (r: Result<FieldDescriptor, SchemaError>)
    ensures r.Ok? ==> r.value.name == EntryName(e)
    decreases e, 0
  {
    match e
    case NameEntry(n) => Ok(FieldDescriptor(n, None))
    case DescriptorEntry(n, None) => Ok(FieldDescriptor(n, None))
    case DescriptorEntry(n, Some(sub)) =>
      (match Normalize(sub)
       case Ok(m) => Ok(FieldDescriptor(n, Some(m)))
       case Err(err) => Err(err))
    case OtherEntry => Err(WrongFieldType)
  }

  /** `_normalizeFields(fields)` as a fold over the entries. */
  function Normalize(list: FieldList): (r: Result<FieldMap, SchemaError>)
    ensures r.Ok? ==> r.value.Valid()
    decreases list, 2
  {
    NormalizeFrom(Empty(), list, 0)
  }

  /** Stores the entries from the `i`-th on into `acc`, each under its name. */
  function NormalizeFrom(acc: FieldMap, list: FieldList, i: nat): (r: Result<FieldMap, SchemaError>)
    requires acc.Valid() && i <= |list.entries|
    ensures r.Ok? ==> r.value.Valid()
    decreases list, 1, |list.entries| - i
  {
    if i == |list.entries| then Ok(acc)
    else
      match Describe(list.entries[i])
      case Err(err) => Err(err)
      case Ok(d) => NormalizeFrom(Put(acc, d.name, d), list, i + 1)
  }

  /**
   * `_normalizeFields`: walks the entries in order, turns a string into
   * `{name}`, keeps an object and normalises its nested `fields`, throws on
   * any other entry, and stores each descriptor under its name.
   */
  method NormalizeFields(fields: FieldList) returns (r: Result<FieldMap, SchemaError>)
    ensures r == Normalize(fields)
    decreases fields
  {
    var fieldMap: FieldMap := Empty();
    var i := 0;
    while i < |fields.entries|
      invariant i <= |fields.entries|
      invariant fieldMap.Valid()
      invariant NormalizeFrom(fieldMap, fields, i) == Normalize(fields)
    {
      var result: FieldDescriptor;
      match fields.entries[i] {
        case NameEntry(name) =>
          result := FieldDescriptor(name, None);
        case DescriptorEntry(name, nested) =>
          result := FieldDescriptor(name, None);
          if nested.Some? {
            var sub := NormalizeFields(nested.value);
            if sub.Err? {
              return Err(sub.error);
            }
            result := result.(fields := Some(sub.value));
          }
        case OtherEntry =>
          return Err(WrongFieldType);
      }
      fieldMap := Put(fieldMap, result.name, result);
      i := i + 1;
    }
    return Ok(fieldMap);
  }

  // ---------------------------------------------------------------------
  // Which lists normalise, and to what

  /** Every entry, at every depth, is a string or an object. */
  predicate WellTyped(list: FieldList)
    decreases list, 1
  {
    forall j :: 0 <= j < |list.entries| ==> EntryWellTyped(list.entries[j])
  }

  predicate EntryWellTyped(e: FieldEntry)
    decreases e, 0
  {
    match e
    case NameEntry(_) => true
    case DescriptorEntry(_, None) => true
    case DescriptorEntry(_, Some(sub)) => WellTyped(sub)
    case OtherEntry => false
  }

  lemma {:induction false} DescribeOkIff(e: FieldEntry)
    ensures Describe(e).Ok? <==> EntryWellTyped(e)
    decreases e, 0
  {
    match e
    case DescriptorEntry(_, Some(sub)) => NormalizeOkIff(sub);
    case _ =>
  }

  /** One step of the fold: the `i`-th entry is described, then stored. */
  lemma NormalizeFromUnfold(acc: FieldMap, list: FieldList, i: nat)
    requires acc.Valid() && i < |list.entries|
    ensures Describe(list.entries[i]).Err? ==>
              NormalizeFrom(acc, list, i) == Err(Describe(list.entries[i]).error)
    ensures Describe(list.entries[i]).Ok? ==>
              var d := Describe(list.entries[i]).value;
              NormalizeFrom(acc, list, i) == NormalizeFrom(Put(acc, d.name, d), list, i + 1)
  {
  }

  /** A step of a fold that succeeds: the `i`-th entry describes as `d`, stored under its name. */
  lemma NormalizeFromOkStep(acc: FieldMap, list: FieldList, i: nat) returns (d: FieldDescriptor)
    requires acc.Valid() && i < |list.entries| && NormalizeFrom(acc, list, i).Ok?
    ensures Describe(list.entries[i]) == Ok(d) && d.name == EntryName(list.entries[i])
    ensures NormalizeFrom(acc, list, i) == NormalizeFrom(Put(acc, d.name, d), list, i + 1)
  {
    d := Describe(list.entries[i]).value;
  }

  lemma WellTypedFromStep(list: FieldList, i: nat)
    requires i < |list.entries| && EntryWellTyped(list.entries[i])
    ensures (forall j :: i <= j < |list.entries| ==> EntryWellTyped(list.entries[j]))
        <==> (forall j :: i + 1 <= j < |list.entries| ==> EntryWellTyped(list.entries[j]))
  {
  }

  lemma {:induction false} NormalizeFromOkIff(acc: FieldMap, list: FieldList, i: nat)
    requires acc.Valid() && i <= |list.entries|
    ensures NormalizeFrom(acc, list, i).Ok?
        <==> forall j :: i <= j < |list.entries| ==> EntryWellTyped(list.entries[j])
    decreases list, 1, |list.entries| - i
  {
    if i < |list.entries| {
      var e := list.entries[i];
      DescribeOkIff(e);
      NormalizeFromUnfold(acc, list, i);
      if Describe(e).Ok? {
        var d := Describe(e).value;
        NormalizeFromOkIff(Put(acc, d.name, d), list, i + 1);
        WellTypedFromStep(list, i);
      } else {
        assert !EntryWellTyped(list.entries[i]);
      }
    }
  }

  /**
   * Normalisation fails (with the wrong-field-type error) exactly when some
   * entry, at some depth, is neither a string nor an object.
   */
  lemma NormalizeOkIff(list: FieldList)
    ensures Normalize(list).Ok? <==> WellTyped(list)
    ensures Normalize(list).Err? ==> Normalize(list).error == WrongFieldType
    decreases list, 2
  {
    NormalizeFromOkIff(Empty(), list, 0);
  }

  lemma {:induction false} NormalizeFromKeys(acc: FieldMap, list: FieldList, i: nat, pre: seq<string>)
    requires acc.Valid() && i <= |list.entries| && acc.keys == Uniq(pre)
    requires NormalizeFrom(acc, list, i).Ok?
    ensures NormalizeFrom(acc, list, i).value.keys == Uniq(pre + Names(list.entries)[i..])
    decreases |list.entries| - i
  {
    var names := Names(list.entries);
    if i == |list.entries| {
      assert pre + names[i..] == pre;
    } else {
      var d := Describe(list.entries[i]).value;
      var acc' := Put(acc, d.name, d);
      assert NormalizeFrom(acc, list, i) == NormalizeFrom(acc', list, i + 1);
      UniqPush(pre, d.name);
      NormalizeFromKeys(acc', list, i + 1, pre + [d.name]);
      assert names[i] == d.name;
      SliceFront(pre, names, i);
    }
  }

  lemma SliceFront(pre: seq<string>, s: seq<string>, i: nat)
    requires i < |s|
    ensures s[i..] == [s[i]] + s[i + 1..]
    ensures (pre + [s[i]]) + s[i + 1..] == pre + s[i..]
  {
    assert s[i..] == [s[i]] + s[i + 1..];
  }

  /** A key already stored stays stored. */
  lemma {:induction false} NormalizeFromKeeps(acc: FieldMap, list: FieldList, i: nat, k: string)
    requires acc.Valid() && i <= |list.entries|
    requires NormalizeFrom(acc, list, i).Ok? && k in acc.vals
    ensures k in NormalizeFrom(acc, list, i).value.vals
    decreases |list.entries| - i
  {
    if i < |list.entries| {
      NormalizeFromUnfold(acc, list, i);
      var d := Describe(list.entries[i]).value;
      NormalizeFromKeeps(Put(acc, d.name, d), list, i + 1, k);
    }
  }

  /** A stored key that no remaining entry names keeps its value. */
  lemma {:induction false} NormalizeFromUnnamed(acc: FieldMap, list: FieldList, i: nat, k: string)
    requires acc.Valid() && i <= |list.entries|
    requires NormalizeFrom(acc, list, i).Ok? && k in acc.vals
    requires forall j :: i <= j < |list.entries| ==> EntryName(list.entries[j]) != k
    ensures k in NormalizeFrom(acc, list, i).value.vals
    ensures NormalizeFrom(acc, list, i).value.vals[k] == acc.vals[k]
    decreases |list.entries| - i
  {
    if i < |list.entries| {
      NormalizeFromUnfold(acc, list, i);
      var d := Describe(list.entries[i]).value;
      assert d.name != k;
      var acc' := Put(acc, d.name, d);
      assert acc'.vals[k] == acc.vals[k];
      NormalizeFromUnnamed(acc', list, i + 1, k);
    }
  }

  /** Every remaining entry describes successfully and is stored under its name. */
  lemma {:induction false} NormalizeFromStores(acc: FieldMap, list: FieldList, i: nat, j: nat)
    requires acc.Valid() && i <= j < |list.entries|
    requires NormalizeFrom(acc, list, i).Ok?
    ensures Describe(list.entries[j]).Ok?
    ensures EntryName(list.entries[j]) in NormalizeFrom(acc, list, i).value.vals
    decreases |list.entries| - i
  {
    NormalizeFromUnfold(acc, list, i);
    var d := Describe(list.entries[i]).value;
    var acc' := Put(acc, d.name, d);
    if j == i {
      NormalizeFromKeeps(acc', list, i + 1, d.name);
    } else {
      NormalizeFromStores(acc', list, i + 1, j);
    }
  }

  /** The next entry, when no later entry shares its name, decides its descriptor. */
  lemma NormalizeFromLastHere(acc: FieldMap, list: FieldList, i: nat)
    requires acc.Valid() && i < |list.entries| && LastWithName(list, i)
    requires NormalizeFrom(acc, list, i).Ok? && Describe(list.entries[i]).Ok?
    requires EntryName(list.entries[i]) in NormalizeFrom(acc, list, i).value.vals
    ensures NormalizeFrom(acc, list, i).value.vals[EntryName(list.entries[i])]
         == Describe(list.entries[i]).value
  {
    var d := NormalizeFromOkStep(acc, list, i);
    var acc' := Put(acc, d.name, d);
    assert acc'.vals[d.name] == d;
    NormalizeFromUnnamed(acc', list, i + 1, d.name);
    assert NormalizeFrom(acc, list, i) == NormalizeFrom(acc', list, i + 1);
  }

  /**
   * The last remaining entry with a given name decides its descriptor
   * (that it describes and is stored is `NormalizeFromStores`).
   */
  lemma {:induction false} NormalizeFromLast(acc: FieldMap, list: FieldList, i: nat, j: nat)
    requires acc.Valid() && i <= j < |list.entries| && LastWithName(list, j)
    requires NormalizeFrom(acc, list, i).Ok? && Describe(list.entries[j]).Ok?
    requires EntryName(list.entries[j]) in NormalizeFrom(acc, list, i).value.vals
    ensures NormalizeFrom(acc, list, i).value.vals[EntryName(list.entries[j])]
         == Describe(list.entries[j]).value
    decreases |list.entries| - i
  {
    if j == i {
      NormalizeFromLastHere(acc, list, i);
    } else {
      var d := NormalizeFromOkStep(acc, list, i);
      var acc' := Put(acc, d.name, d);
      assert NormalizeFrom(acc, list, i) == NormalizeFrom(acc', list, i + 1);
      NormalizeFromLast(acc', list, i + 1, j);
    }
  }

  /**
   * The keys of a normalised field map are the names of the entries, each
   * once, in the order of their first occurrence.
   */
  lemma NormalizeKeys(list: FieldList)
    requires Normalize(list).Ok?
    ensures Normalize(list).value.keys == Uniq(Names(list.entries))
    ensures forall k :: k in Normalize(list).value.vals <==> k in Names(list.entries)
  {
    var names := Names(list.entries);
    var m := Normalize(list).value;
    var all: seq<string> := [] + names[0..];
    NormalizeFromKeys(Empty(), list, 0, []);
    assert m.keys == Uniq(all);
    assert all == names;
    forall k
      ensures k in m.vals <==> k in names
    {
      assert k in m.vals <==> k in m.keys;
      assert k in Uniq(names) <==> k in names;
    }
  }

  /**
   * When two entries share a name the later one wins: the last entry named
   * `k` decides `fieldMap[k]`. A string `s` gives `{name: s}`; an object
   * keeps its name and has its nested fields normalised in turn.
   */
  lemma NormalizeLastWins(list: FieldList, j: nat)
    requires Normalize(list).Ok?
    requires j < |list.entries| && LastWithName(list, j)
    ensures var m := Normalize(list).value;
            var k := EntryName(list.entries[j]);
      && k in m.vals
      && (list.entries[j].NameEntry? ==> m.vals[k] == FieldDescriptor(k, None))
      && (list.entries[j].DescriptorEntry? && list.entries[j].fields.None? ==>
            m.vals[k] == FieldDescriptor(k, None))
      && (list.entries[j].DescriptorEntry? && list.entries[j].fields.Some? ==>
            Normalize(list.entries[j].fields.value).Ok? &&
            m.vals[k] == FieldDescriptor(k, Some(Normalize(list.entries[j].fields.value).value)))
  {
    NormalizeFromStores(Empty(), list, 0, j);
    NormalizeFromLast(Empty(), list, 0, j);
    NormalizeKeys(list);
    assert EntryName(list.entries[j]) == Names(list.entries)[j];
  }

  // ---------------------------------------------------------------------
  // Well-keyed maps, and normalising a map that is already normalised

  /** Every descriptor, at every depth, is stored under its own name. */
  ghost predicate WellKeyed(m: FieldMap)
    decreases m
  {
    && m.Valid()
    && forall k :: k in m.vals ==>
         && m.vals[k].name == k
         && (m.vals[k].fields.Some? ==> WellKeyed(m.vals[k].fields.value))
  }

  lemma {:induction false} DescribeWellKeyed(e: FieldEntry)
    requires Describe(e).Ok? && Describe(e).value.fields.Some?
    ensures WellKeyed(Describe(e).value.fields.value)
    decreases e, 0
  {
    match e
    case DescriptorEntry(_, Some(sub)) => NormalizeWellKeyed(sub);
  }

  lemma PutWellKeyed(acc: FieldMap, d: FieldDescriptor)
    requires WellKeyed(acc)
    requires d.fields.Some? ==> WellKeyed(d.fields.value)
    ensures WellKeyed(Put(acc, d.name, d))
  {
  }

  lemma {:induction false} NormalizeFromWellKeyed(acc: FieldMap, list: FieldList, i: nat)
    requires acc.Valid() && i <= |list.entries| && WellKeyed(acc)
    requires NormalizeFrom(acc, list, i).Ok?
    ensures WellKeyed(NormalizeFrom(acc, list, i).value)
    decreases list, 1, |list.entries| - i
  {
    if i < |list.entries| {
      NormalizeFromUnfold(acc, list, i);
      var d := Describe(list.entries[i]).value;
      if d.fields.Some? {
        DescribeWellKeyed(list.entries[i]);
      }
      PutWellKeyed(acc, d);
      NormalizeFromWellKeyed(Put(acc, d.name, d), list, i + 1);
    }
  }

  /** A normalised map stores every descriptor, at every depth, under its own name. */
  lemma NormalizeWellKeyed(list: FieldList)
    requires Normalize(list).Ok?
    ensures WellKeyed(Normalize(list).value)
    decreases list, 2
  {
    NormalizeFromWellKeyed(Empty(), list, 0);
  }

  /**
   * The entries `_.each` visits when it walks an already normalised map: its
   * descriptors, in key order, each an object with a name and, for an object
   * field, its nested map walked the same way.
   */
  function Denormalize(m: FieldMap): (list: FieldList)
    ensures |list.entries| == |m.keys|
    decreases m, 1
  {
    FieldList(seq(|m.keys|, i requires 0 <= i < |m.keys| =>
      if m.keys[i] in m.vals then EntryOf(m.vals[m.keys[i]]) else OtherEntry))
  }

  function EntryOf(d: FieldDescriptor): FieldEntry
    decreases d, 0
  {
    DescriptorEntry(d.name, if d.fields.Some? then Some(Denormalize(d.fields.value)) else None)
  }

  /** The first `i` keys of `m` with their values, stored one after the other. */
  function Prefix(m: FieldMap, i: nat): (r: FieldMap)
    requires m.Valid() && i <= |m.keys|
    ensures r.Valid() && r.keys == m.keys[..i]
    ensures forall k :: k in r.vals ==> k in m.vals && r.vals[k] == m.vals[k]
    decreases i
  {
    if i == 0 then Empty()
    else
      var front := Prefix(m, i - 1);
      var k := m.keys[i - 1];
      DistinctBefore(m.keys, i - 1);
      PrefixGrows(m.keys, i);
      Put(front, k, m.vals[k])
  }

  /** The prefix of length `i` is the one of length `i - 1` and the element at `i - 1`. */
  lemma PrefixGrows<T>(s: seq<T>, i: nat)
    requires 0 < i <= |s|
    ensures s[..i - 1] + [s[i - 1]] == s[..i]
  {
  }

  /** All the keys of `m` with their values are `m`. */
  lemma PrefixAll(m: FieldMap)
    requires m.Valid()
    ensures Prefix(m, |m.keys|) == m
  {
    var p := Prefix(m, |m.keys|);
    assert p.keys == m.keys;
    assert forall k :: k in p.vals <==> k in m.vals;
    SameMap(p.vals, m.vals);
  }

  lemma {:induction false} NormalizeFromPrefix(m: FieldMap, i: nat)
    requires WellKeyed(m) && i <= |m.keys|
    ensures NormalizeFrom(Prefix(m, i), Denormalize(m), i) == Ok(m)
    decreases m, 0, |m.keys| - i
  {
    var list := Denormalize(m);
    if i == |m.keys| {
      PrefixAll(m);
    } else {
      var k := m.keys[i];
      var d := m.vals[k];
      assert list.entries[i] == EntryOf(d);
      if d.fields.Some? {
        NormalizeDenormalize(d.fields.value);
      }
      assert Describe(list.entries[i]) == Ok(d);
      assert d.name == k;
      NormalizeFromPrefix(m, i + 1);
    }
  }

  /**
   * Normalisation is idempotent: normalising the descriptors of a
   * normalised map gives that map back.
   */
  lemma {:induction false} NormalizeDenormalize(m: FieldMap)
    requires WellKeyed(m)
    ensures Normalize(Denormalize(m)) == Ok(m)
    decreases m, 1
  {
    NormalizeFromPrefix(m, 0);
    assert Prefix(m, 0) == Empty();
  }
}
