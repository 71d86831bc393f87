/**
 * The data service of a REST resource (`DataService`): its configuration,
 * the field map it builds once, the steps its pipelines share, and the
 * pipelines of the seven verbs.
 */
module Service {
  import opened Wrappers
  import opened JsArray
  import opened JsObject
  import opened JsString
  import opened FieldSchema
  import opened Query
  import opened Links
  import opened Store
  import opened RequestScope

  /** `config`: the paging settings. */
  datatype Config = Config(defaultPerPage: int, maxPerPage: int, firstPageIndex: int)

  /** The options a data service is made with (absent ones are `None`). */
  datatype Options = Options(
    idField: Option<string>,
    fields: Option<FieldList>,
    defaultFields: Option<seq<string>>,
    readOnlyFields: seq<string>,
    arrayMethods: Option<seq<string>>,
    smartPut: bool,
    defaultFilter: Option<Doc>,
    orderBy: Value,
    qFields: seq<string>,
    config: Config)

  /** Why a pipeline fails. */
  datatype Failure =
    | NotFound      // the 404 error of a single-document pipeline
    | InvalidJson   // `JSON.parse` threw on `filter` or `orderBy`
    | NotAFunction  // a `TypeError`: a call of something that is not a function

  // ---------------------------------------------------------------------
  // The configuration the constructor settles

  /** `this.idField || this.dataSource.defaultIdField` */
  function ResolveIdField(configured: Option<string>, adapterDefault: string): (r: string)
    ensures configured.Some? && configured.value != "" ==> r == configured.value
    ensures !(configured.Some? && configured.value != "") ==> r == adapterDefault
    ensures r == "" ==> adapterDefault == ""
  {
    if configured.Some? && configured.value != "" then configured.value else adapterDefault
  }

  /** One string entry per name: what `getModelFieldNames()` gives `_normalizeFields`. */
  function NameEntries(names: seq<string>): (r: seq<FieldEntry>)
    ensures |r| == |names|
    ensures forall i :: 0 <= i < |names| ==> r[i] == NameEntry(names[i])
    decreases |names|
  {
    if names == [] then [] else NameEntries(names[..|names| - 1]) + [NameEntry(names[|names| - 1])]
  }

  /** `this.fields || this.dataSource.getModelFieldNames()` */
  function ConfiguredFields(fields: Option<FieldList>, modelFieldNames: seq<string>): FieldList {
    if fields.Some? then fields.value else FieldList(NameEntries(modelFieldNames))
  }

  /** Field names alone always normalise: the adapter's names never fail. */
  lemma AdapterNamesWellTyped(names: seq<string>)
    ensures Normalize(ConfiguredFields(None, names)).Ok?
  {
    var list := ConfiguredFields(None, names);
    forall j | 0 <= j < |list.entries|
      ensures EntryWellTyped(list.entries[j])
    {
      assert list.entries[j] == NameEntry(names[j]);
    }
    NormalizeOkIff(list);
  }

  /** Every descriptor of a map is stored under its own name. */
  ghost predicate NamedByKey(m: FieldMap) {
    forall k :: k in m.vals ==> m.vals[k].name == k
  }

  /** The field map with `{name: idField}` added when the id field is missing. */
  function WithIdField(m: FieldMap, idField: string): (r: FieldMap)
    requires m.Valid()
    ensures r.Valid()
  {
    if idField in m.vals then m else Put(m, idField, FieldDescriptor(idField, None))
  }

  /**
   * Adding the id field: afterwards it is present, every field already
   * there is kept as it was, nothing else is added, and every descriptor is
   * still stored under its own name.
   */
  lemma WithIdFieldFacts(m: FieldMap, idField: string)
    requires m.Valid() && NamedByKey(m)
    ensures idField in WithIdField(m, idField).vals
    ensures forall k :: k in WithIdField(m, idField).vals <==> k in m.vals || k == idField
    ensures forall k :: k in m.vals ==> WithIdField(m, idField).vals[k] == m.vals[k]
    ensures NamedByKey(WithIdField(m, idField))
  {
  }

  /** `names.push(idField); names = _.uniq(names)` */
  function ListWithId(names: seq<string>, idField: string): (r: seq<string>)
    ensures idField in r && Distinct(r)
  {
    Uniq(names + [idField])
  }

  /**
   * After the push and `_.uniq`, the id field is listed exactly once, no
   * name twice, and the names are those of the list plus the id field.
   */
  lemma {:induction false} ListWithIdOnce(names: seq<string>, idField: string)
    ensures Distinct(ListWithId(names, idField))
    ensures multiset(ListWithId(names, idField))[idField] == 1
    ensures forall x :: x in ListWithId(names, idField) <==> x in names || x == idField
  {
    DistinctOnce(ListWithId(names, idField), idField);
  }

  /** When the id field is already a key, pushing it and `_.uniq` give back the keys. */
  lemma {:induction false} ModelFieldNamesAreKeys(m: FieldMap, idField: string)
    requires m.Valid() && idField in m.vals
    ensures ListWithId(m.keys, idField) == m.keys
  {
    UniqAfterPushPresent(m.keys, idField);
  }

  /**
   * The default field map as written: with `defaultFields` configured it is
   * picked from the configured names (line 50) before line 57 adds the id
   * field to them; otherwise it is the whole field map.
   */
  function DefaultFieldMapAsWritten(fieldMap: FieldMap, requested: Option<seq<string>>): (r: FieldMap)
    requires fieldMap.Valid()
    ensures r.Valid()
  {
    if requested.Some? then Pick(fieldMap, requested.value) else fieldMap
  }

  /**
   * As written, configured default fields that do not name the id field
   * give a default field map without it, although the default field names
   * hold it: a request without `fields` gets no id back.
   */
  lemma DefaultFieldsLackIdAsWritten(fieldMap: FieldMap, requested: seq<string>, id: string)
    requires fieldMap.Valid() && id !in requested
    ensures id in ListWithId(requested, id)
    ensures id !in DefaultFieldMapAsWritten(fieldMap, Some(requested)).vals
  {
  }

  /**
   * The default field map as intended: picked from the default field names
   * once the id field is among them, so it always holds the id field.
   */
  function DefaultFieldMap(fieldMap: FieldMap, requested: Option<seq<string>>, id: string): (r: FieldMap)
    requires fieldMap.Valid()
    ensures r.Valid()
    ensures id in fieldMap.vals ==> id in r.vals
    ensures forall k :: k in r.vals ==> k in fieldMap.vals && r.vals[k] == fieldMap.vals[k]
  {
    if requested.Some? then Pick(fieldMap, ListWithId(requested.value, id)) else fieldMap
  }

  /** The intended and the written default field maps differ in the id field only. */
  lemma {:induction false} DefaultFieldMapsAgree(fieldMap: FieldMap, requested: Option<seq<string>>, id: string)
    requires fieldMap.Valid()
    ensures forall k :: k != id ==>
      (k in DefaultFieldMap(fieldMap, requested, id).vals <==> k in DefaultFieldMapAsWritten(fieldMap, requested).vals)
  {
    if requested.Some? {
      ListWithIdOnce(requested.value, id);
    }
  }

  /**
   * The field part of the constructor: the id field is added to the field
   * map if missing, the model field names are the map's keys with the id
   * field pushed and `_.uniq`-ed, the default field names get the id field
   * pushed and `_.uniq`-ed, and the default fields are picked from the map
   * with those names (or are the whole map).
   */
  method SettleFields(normalized: FieldMap, id: string, requested: Option<seq<string>>)
    returns (fieldMap: FieldMap, modelFieldNames: seq<string>, defaultFields: FieldMap, defaultFieldNames: seq<string>)
    requires normalized.Valid() && NamedByKey(normalized)
    ensures fieldMap == WithIdField(normalized, id)
    ensures modelFieldNames == ListWithId(fieldMap.keys, id) == fieldMap.keys
    ensures defaultFields == DefaultFieldMap(fieldMap, requested, id)
    ensures requested.Some? ==> defaultFieldNames == ListWithId(requested.value, id)
    ensures requested.None? ==> defaultFieldNames == ListWithId(fieldMap.keys, id)
    ensures fieldMap.Valid() && NamedByKey(fieldMap) && id in fieldMap.vals
    ensures defaultFields.Valid() && id in defaultFields.vals
    ensures Distinct(defaultFieldNames) && id in defaultFieldNames
  {
    fieldMap := normalized;
    if id !in fieldMap.vals {
      fieldMap := Put(fieldMap, id, FieldDescriptor(id, None));
    }
    WithIdFieldFacts(normalized, id);
    var names := fieldMap.keys;
    names := names + [id];
    ModelFieldNamesAreKeys(fieldMap, id);
    modelFieldNames := Uniq(names);
    var defaultNames := if requested.Some? then requested.value else fieldMap.keys;
    ListWithIdOnce(defaultNames, id);
    defaultFieldNames := Uniq(defaultNames + [id]);
    if requested.Some? {
      defaultFields := Pick(fieldMap, defaultFieldNames);
    } else {
      defaultFields := fieldMap;
    }
  }

  /** Logging calls in two steps is logging them in one. */
  lemma AppendAssoc(a: seq<Call>, b: seq<Call>, c: seq<Call>)
    ensures a + b + c == a + (b + c)
  {
  }

  /**
   * What `replace` does when no document is found, as written: with
   * `smartPut` the handler calls `Bb.then`, which Bluebird does not have,
   * so it throws a `TypeError` before anything is inserted; without
   * `smartPut` it throws the 404 error.
   */
  function MissingDocumentAsWritten(smartPut: bool): Result<bool, Failure> {
    if smartPut then Err(NotAFunction) else Err(NotFound)
  }

  /** As written, a missing document is never inserted, not even with `smartPut`. */
  lemma SmartPutNeverInsertsAsWritten(smartPut: bool)
    ensures MissingDocumentAsWritten(smartPut).Err?
    ensures smartPut ==> MissingDocumentAsWritten(smartPut).error == NotAFunction
  {
  }

  /**
   * What `replace` evidently means to do when no document is found: with
   * `smartPut`, go on as an insert (the result is the new
   * `scope.inserting`); without it, fail with a 404.
   */
  function MissingDocument(smartPut: bool): (r: Result<bool, Failure>)
    ensures r.Ok? <==> smartPut
    ensures r.Ok? ==> r.value
    ensures r.Err? ==> r.error == NotFound
  {
    if smartPut then Ok(true) else Err(NotFound)
  }

  /** The two differ only with `smartPut`: without it both fail with the 404 error. */
  lemma MissingDocumentAgrees(smartPut: bool)
    ensures !smartPut ==> MissingDocument(smartPut) == MissingDocumentAsWritten(smartPut)
    ensures smartPut ==> MissingDocument(smartPut).Ok? && MissingDocumentAsWritten(smartPut).Err?
  {
  }

  /** A record of `count` */
  function CountDoc(n: int): (r: Doc)
    ensures r.Valid() && r.vals == map["count" := Num(n)]
  {
    Put(Empty(), "count", Num(n))
  }

  class DataService {
    const dataSource: DataSource
    const idField: string
    const fieldMap: FieldMap
    const modelFieldNames: seq<string>
    const defaultFields: FieldMap
    const defaultFieldNames: seq<string>
    const readOnlyFields: seq<string>
    const arrayMethods: seq<string>
    const smartPut: bool
    const orderBy: Value
    const qFields: seq<string>
    const config: Config
    /** Written into by `getFilter` (see `GetFilter`). */
    var defaultFilter: Option<Doc>

    /**
     * The configuration settled by the constructor: every field is stored
     * under its own name, the id field is a field, the model field names are
     * the keys of the field map, and the default field names hold the id
     * field once.
     */
    ghost predicate Settled() {
      && fieldMap.Valid()
      && NamedByKey(fieldMap)
      && idField in fieldMap.vals
      && modelFieldNames == fieldMap.keys
      && defaultFields.Valid()
      && idField in defaultFields.vals
      && Distinct(defaultFieldNames)
      && idField in defaultFieldNames
    }

    ghost predicate Valid()
      reads this
    {
      && Settled()
      && (defaultFilter.Some? ==> defaultFilter.value.Valid())
    }

    /**
     * The constructor after `_normalizeFields` has succeeded: the id field
     * is settled and added to the field map if missing, the model field
     * names are the keys of the map, the default field names get the id
     * field, and the default fields are picked with those names (or are the
     * whole map). The pick after the push is the intended order, not the
     * order of the code (see `DefaultFieldMapAsWritten`).
     */
    constructor(options: Options, dataSource: DataSource, normalized: FieldMap)
      requires normalized.Valid() && NamedByKey(normalized)
      requires options.defaultFilter.Some? ==> options.defaultFilter.value.Valid()
      ensures Valid()
      ensures this.dataSource == dataSource
      ensures idField == ResolveIdField(options.idField, dataSource.defaultIdField)
      ensures fieldMap == WithIdField(normalized, idField)
      ensures modelFieldNames == ListWithId(fieldMap.keys, idField)
      ensures defaultFields == DefaultFieldMap(fieldMap, options.defaultFields, idField)
      ensures options.defaultFields.Some? ==> defaultFieldNames == ListWithId(options.defaultFields.value, idField)
      ensures options.defaultFields.None? ==> defaultFieldNames == ListWithId(fieldMap.keys, idField)
      ensures readOnlyFields == options.readOnlyFields
      ensures arrayMethods == options.arrayMethods.GetOr(dataSource.defaultArrayMethods)
      ensures smartPut == options.smartPut && orderBy == options.orderBy
      ensures qFields == options.qFields && config == options.config
      ensures defaultFilter == options.defaultFilter
    {
      var id := ResolveIdField(options.idField, dataSource.defaultIdField);
      var map0, names, defaults, defaultNames := SettleFields(normalized, id, options.defaultFields);
      this.dataSource := dataSource;
      idField := id;
      fieldMap := map0;
      modelFieldNames := names;
      defaultFields := defaults;
      defaultFieldNames := defaultNames;
      readOnlyFields := options.readOnlyFields;
      arrayMethods := options.arrayMethods.GetOr(dataSource.defaultArrayMethods);
      smartPut := options.smartPut;
      orderBy := options.orderBy;
      qFields := options.qFields;
      config := options.config;
      defaultFilter := options.defaultFilter;
    }

    // -------------------------------------------------------------------
    // Field list

    /** `getField(name)`: the descriptor of a field, which carries that name. */
    function GetField(name: string): (r: Option<FieldDescriptor>)
      requires Settled()
      ensures r.Some? <==> name in fieldMap.vals
      ensures r.Some? ==> r.value.name == name
    {
      if name in fieldMap.vals then Some(fieldMap.vals[name]) else None
    }

    /** The field list a query asks for (what `extractFieldList` returns). */
    function FieldListFor(query: QueryParams): (fields: FieldMap)
      requires Settled()
      ensures fields.Valid() && idField in fields.vals
      ensures query.fields.Some? && query.fields.value != "" ==>
        var requested := Split(query.fields.value, ',');
        && (forall k :: k in fields.vals <==> k in fieldMap.vals && (k in requested || k == idField))
        && (forall k :: k in fields.vals ==> fields.vals[k] == fieldMap.vals[k])
      ensures (query.fields.None? || query.fields.value == "") ==> fields == defaultFields
    {
      if query.fields.Some? && query.fields.value != "" then
        var picked := Pick(fieldMap, Intersection(Split(query.fields.value, ','), modelFieldNames));
        if idField in picked.vals then picked else Put(picked, idField, fieldMap.vals[idField])
      else defaultFields
    }

    /**
     * `extractFieldList(scope)`: the requested fields that the model has,
     * always with the id field; without a `fields` parameter, the default
     * fields.
     */
    method ExtractFieldList(scope: Scope) returns (fields: FieldMap)
      requires Settled()
      ensures fields == FieldListFor(scope.req.query)
    {
      var requested := scope.req.query.fields;
      if requested.Some? && requested.value != "" {
        var names := Split(requested.value, ',');
        fields := Pick(fieldMap, Intersection(names, modelFieldNames));
        if idField !in fields.vals {
          var id := GetField(idField);
          fields := Put(fields, idField, id.value);
        }
      } else {
        fields := defaultFields;
      }
    }

    // -------------------------------------------------------------------
    // Conditions and filter

    /**
     * `buildConditions(scope)`: a copy of the path parameters, which also
     * becomes `scope.source`.
     */
    method BuildConditions(scope: Scope) returns (conditions: Doc)
      requires scope.Valid()
      modifies scope`source
      ensures scope.Valid()
      ensures conditions == scope.req.params && scope.source == conditions
    {
      var params := scope.req.params;
      PickAll(params);
      conditions := Pick(params, params.keys);
      scope.source := conditions;
    }

    /**
     * `getFilter(scope)`: the conditions written over the parsed `filter`
     * parameter, else over the default filter, else over `{}`. `_.assign`
     * writes into its first argument, so when the default filter is used
     * the conditions stay in it for the requests that follow.
     */
    method GetFilter(scope: Scope) returns (r: Result<Doc, ParseFailure>)
      requires Valid() && scope.Valid()
      modifies this`defaultFilter, scope`source
      ensures Valid() && scope.Valid()
      ensures scope.source == scope.req.params
      ensures r == MergeFilter(scope.req.query.filter, old(defaultFilter), scope.req.params)
      ensures defaultFilter == DefaultFilterAfter(scope.req.query.filter, old(defaultFilter), scope.req.params)
    {
      var conditions := BuildConditions(scope);
      var queryFilter := scope.req.query.filter;
      match queryFilter {
        case Some(SyntaxError) =>
          r := Err(BadJson);
        case Some(Parsed(parsed)) =>
          r := Ok(Assign(parsed, conditions));
        case None =>
          if defaultFilter.Some? {
            var merged := Assign(defaultFilter.value, conditions);
            defaultFilter := Some(merged);
            r := Ok(merged);
          } else {
            r := Ok(Assign(Empty(), conditions));
          }
      }
    }

    // -------------------------------------------------------------------
    // Assigning fields

    /**
     * `assignFilter(queryParams, fieldName, scope)`: a model field that is
     * not read-only, and on an update one the payload actually carries.
     */
    predicate AssignFilter(queryParams: Doc, fieldName: string, action: Action): (ok: bool)
      ensures ok ==> fieldName in modelFieldNames && fieldName !in readOnlyFields
      ensures ok && action == Action.Update ==> fieldName in queryParams.vals
    {
      && fieldName in modelFieldNames
      && fieldName !in readOnlyFields
      && (action != Action.Update || Get(queryParams, fieldName) != Undefined)
    }

    /** `_.filter(keys, (field) => this.assignFilter(queryParams, field, scope))` */
    function Assignable(queryParams: Doc, keys: seq<string>, action: Action): seq<string>
      decreases |keys|
    {
      if keys == [] then []
      else
        var front := Assignable(queryParams, keys[..|keys| - 1], action);
        var k := keys[|keys| - 1];
        if AssignFilter(queryParams, k, action) then front + [k] else front
    }

    /** The filtered keys are the keys that pass the assign filter. */
    lemma {:induction false} AssignableMembers(queryParams: Doc, keys: seq<string>, action: Action)
      ensures forall k :: k in Assignable(queryParams, keys, action) <==> k in keys && AssignFilter(queryParams, k, action)
      decreases |keys|
    {
      if keys != [] {
        var front := keys[..|keys| - 1];
        AssignableMembers(queryParams, front, action);
        assert keys == front + [keys[|keys| - 1]];
      }
    }

    /** The fields `assignFields` assigns from a payload. */
    function AssignableFields(source: Doc, action: Action): seq<string> {
      Assignable(source, source.keys, action)
    }

    /** The fields written from a payload are its keys that pass the assign filter. */
    lemma AssignableFieldsMembers(source: Doc, action: Action)
      requires source.Valid()
      ensures forall k :: k in AssignableFields(source, action) <==> k in source.vals && AssignFilter(source, k, action)
    {
      AssignableMembers(source, source.keys, action);
    }

    /**
     * Only an update looks at the payload: a field an update assigns is
     * written by every other verb, and outside updates the payload plays
     * no part.
     */
    lemma UpdateIsStrictest(queryParams: Doc, other: Doc, fieldName: string, action: Action)
      ensures AssignFilter(queryParams, fieldName, Action.Update) ==> AssignFilter(queryParams, fieldName, action)
      ensures action != Action.Update ==>
        (AssignFilter(queryParams, fieldName, action) <==> AssignFilter(other, fieldName, action))
      ensures AssignFilter(queryParams, fieldName, Action.Update) ==> fieldName in queryParams.vals
    {
    }

    /**
     * What assigning one field leaves in `target`: the payload's value under
     * that name with the generic setter, the adapter's answer when it
     * assigns fields itself.
     */
    function AssignOne(target: Doc, source: Doc, fieldName: string): (r: Doc)
      requires target.Valid()
      ensures r.Valid()
    {
      if dataSource.hasAssignField then dataSource.setFieldOf(target, source, fieldName)
      else Put(target, fieldName, Get(source, fieldName))
    }

    /** What assigning `fields` of `source` one after the other leaves in `target`. */
    function AssignedDoc(target: Doc, source: Doc, fields: seq<string>): (r: Doc)
      requires target.Valid()
      ensures r.Valid()
      decreases |fields|
    {
      if fields == [] then target
      else AssignOne(AssignedDoc(target, source, fields[..|fields| - 1]), source, fields[|fields| - 1])
    }

    /** The adapter calls assigning `fields` makes: one `assignField` per field, if the adapter has it. */
    function AssignCalls(fields: seq<string>): (r: seq<Call>)
      ensures !dataSource.hasAssignField ==> r == []
      decreases |fields|
    {
      if fields == [] || !dataSource.hasAssignField then []
      else AssignCalls(fields[..|fields| - 1]) + [AssignFieldCall(fields[|fields| - 1])]
    }

    /** An adapter with its own setter is called once per field, in the order of the fields. */
    lemma {:induction false} AssignCallsAt(fields: seq<string>)
      requires dataSource.hasAssignField
      ensures |AssignCalls(fields)| == |fields|
      ensures forall i :: 0 <= i < |fields| ==> AssignCalls(fields)[i] == AssignFieldCall(fields[i])
      decreases |fields|
    {
      if fields != [] {
        AssignCallsAt(fields[..|fields| - 1]);
      }
    }

    /**
     * With the generic setter, assigning `fields` writes exactly those
     * fields, each with the payload's value (`undefined` for one it lacks),
     * and keeps every other field of the target as it was.
     */
    lemma {:induction false} AssignedDocContents(target: Doc, source: Doc, fields: seq<string>)
      requires target.Valid()
      ensures !dataSource.hasAssignField ==>
        var r := AssignedDoc(target, source, fields);
        && (forall k :: k in r.vals <==> k in target.vals || k in fields)
        && (forall k :: k in fields ==> r.vals[k] == Get(source, k))
        && (forall k :: k in target.vals && k !in fields ==> r.vals[k] == target.vals[k])
      decreases |fields|
    {
      if fields != [] {
        var front := fields[..|fields| - 1];
        AssignedDocContents(target, source, front);
        assert fields == front + [fields[|fields| - 1]];
      }
    }

    /**
     * With the generic setter, assigning the payload writes exactly its
     * assignable fields, with the payload's values, and keeps every other
     * field of the target as it was.
     */
    lemma AssignedPayload(target: Doc, source: Doc, action: Action)
      requires target.Valid() && source.Valid() && !dataSource.hasAssignField
      ensures var r := AssignPayload(target, source, action);
        && (forall k :: k in r.vals <==> k in target.vals || (k in source.vals && AssignFilter(source, k, action)))
        && (forall k :: k in source.vals && AssignFilter(source, k, action) ==> r.vals[k] == source.vals[k])
        && (forall k :: k in target.vals && !(k in source.vals && AssignFilter(source, k, action)) ==>
              r.vals[k] == target.vals[k])
    {
      AssignedDocContents(target, source, AssignableFields(source, action));
      AssignableFieldsMembers(source, action);
    }

    /** What `assignFields` leaves in `target`: the assignable fields of the payload written over it. */
    function AssignPayload(target: Doc, source: Doc, action: Action): (r: Doc)
      requires target.Valid()
      ensures r.Valid()
    {
      AssignedDoc(target, source, AssignableFields(source, action))
    }

    /** Where `assignField` writes: the destination on an insert, else the model. */
    predicate WritesDest(scope: Scope)
      reads scope
    {
      scope.IsInsert() || scope.inserting
    }

    /**
     * `assignField(fieldName, scope)`: the adapter's own `assignField` when
     * it has one, else `setProp` of `source[fieldName]` on the destination
     * (insert) or the model.
     */
    method AssignField(fieldName: string, scope: Scope)
      requires scope.Valid()
      requires !WritesDest(scope) ==> scope.model.Some?
      modifies scope`dest, scope`model, dataSource`calls
      ensures scope.Valid()
      ensures dataSource.calls == old(dataSource.calls) + AssignCalls([fieldName])
      ensures WritesDest(scope) ==>
        scope.dest == AssignOne(old(scope.dest), scope.source, fieldName) && scope.model == old(scope.model)
      ensures !WritesDest(scope) ==>
        scope.model == Some(AssignOne(old(scope.model).value, scope.source, fieldName)) && scope.dest == old(scope.dest)
    {
      var target := if WritesDest(scope) then scope.dest else scope.model.value;
      var written;
      if dataSource.hasAssignField {
        written := dataSource.AssignField(fieldName, target, scope.source);
      } else {
        written := Put(target, fieldName, Get(scope.source, fieldName));
      }
      if WritesDest(scope) {
        scope.dest := written;
      } else {
        scope.model := Some(written);
      }
    }

    /** One more field written: the target and the calls grow by that field. */
    lemma AssignStep(toDest: bool, dest: Doc, model: Option<Doc>, source: Doc, fields: seq<string>, i: nat)
      requires i < |fields| && dest.Valid() && (!toDest ==> model.Some? && model.value.Valid())
      ensures AssignCalls(fields[..i + 1]) == AssignCalls(fields[..i]) + AssignCalls([fields[i]])
      ensures toDest ==>
        AssignedDoc(dest, source, fields[..i + 1]) == AssignOne(AssignedDoc(dest, source, fields[..i]), source, fields[i])
      ensures !toDest ==>
        AssignedDoc(model.value, source, fields[..i + 1]) == AssignOne(AssignedDoc(model.value, source, fields[..i]), source, fields[i])
    {
      assert fields[..i + 1][..i] == fields[..i];
    }

    /**
     * `assignFields(scope)`: every key of `scope.source` that passes the
     * assign filter is written, in key order.
     */
    method AssignFields(scope: Scope)
      requires scope.Valid()
      requires !WritesDest(scope) ==> scope.model.Some?
      modifies scope`dest, scope`model, dataSource`calls
      ensures scope.Valid()
      ensures dataSource.calls == old(dataSource.calls) + AssignCalls(AssignableFields(scope.source, scope.action))
      ensures WritesDest(scope) ==>
        scope.dest == AssignPayload(old(scope.dest), scope.source, scope.action) && scope.model == old(scope.model)
      ensures !WritesDest(scope) ==>
        && scope.model == Some(AssignPayload(old(scope.model).value, scope.source, scope.action))
        && scope.dest == old(scope.dest)
    {
      var fields := AssignableFields(scope.source, scope.action);
      ghost var source := scope.source;
      ghost var dest0 := scope.dest;
      ghost var model0 := scope.model;
      ghost var calls0 := dataSource.calls;
      ghost var toDest := WritesDest(scope);
      var i := 0;
      while i < |fields|
        invariant i <= |fields|
        invariant scope.source == source && scope.Valid()
        invariant !toDest ==> scope.model.Some?
        invariant dataSource.calls == calls0 + AssignCalls(fields[..i])
        invariant toDest ==> scope.dest == AssignedDoc(dest0, source, fields[..i]) && scope.model == model0
        invariant !toDest ==> scope.model == Some(AssignedDoc(model0.value, source, fields[..i])) && scope.dest == dest0
      {
        var name := fields[i];
        AssignField(name, scope);
        AssignStep(toDest, dest0, model0, source, fields, i);
        AppendAssoc(calls0, AssignCalls(fields[..i]), AssignCalls([name]));
        i := i + 1;
      }
      assert fields[..i] == fields;
    }

    // -------------------------------------------------------------------
    // Array methods

    /** A truthy object under an array method's name in the payload. */
    function MethodBody(source: Doc, methodName: string): Option<Doc> {
      match Get(source, methodName)
      case Object(body) => Some(body)
      case _ => None
    }

    /** The adapter calls for one array method, one per assignable field of its body. */
    function FieldCalls(body: Doc, methodName: string, fields: seq<string>): (r: seq<Call>)
      decreases |fields|
    {
      if fields == [] then []
      else
        var f := fields[|fields| - 1];
        FieldCalls(body, methodName, fields[..|fields| - 1]) + [ArrayMethodCall(Get(body, f), methodName, f)]
    }

    /** The `i`-th call for an array method is for its `i`-th field, with that field's value. */
    lemma {:induction false} FieldCallsAt(body: Doc, methodName: string, fields: seq<string>)
      ensures |FieldCalls(body, methodName, fields)| == |fields|
      ensures forall i :: 0 <= i < |fields| ==>
        FieldCalls(body, methodName, fields)[i] == ArrayMethodCall(Get(body, fields[i]), methodName, fields[i])
      decreases |fields|
    {
      if fields != [] {
        FieldCallsAt(body, methodName, fields[..|fields| - 1]);
      }
    }

    /** The adapter calls `proceedArrayMethods` makes for the given methods. */
    ghost function ArrayCalls(methods: seq<string>, source: Doc, action: Action): seq<Call>
      requires NestedValid(source)
      decreases |methods|
    {
      if methods == [] then []
      else
        var front := ArrayCalls(methods[..|methods| - 1], source, action);
        var m := methods[|methods| - 1];
        match MethodBody(source, m)
        case None => front
        case Some(body) => front + FieldCalls(body, m, AssignableFields(body, action))
    }

    /**
     * Every array-method call goes to a configured method whose body is in
     * the payload, for a field of that body that passes the assign filter,
     * with that field's value.
     */
    lemma {:induction false} ArrayCallsSound(methods: seq<string>, source: Doc, action: Action)
      requires NestedValid(source)
      ensures forall c :: c in ArrayCalls(methods, source, action) ==>
        && c.ArrayMethodCall?
        && c.methodName in methods
        && MethodBody(source, c.methodName).Some?
        && var body := MethodBody(source, c.methodName).value;
           && c.fieldName in body.vals
           && AssignFilter(body, c.fieldName, action)
           && c.value == body.vals[c.fieldName]
      decreases |methods|
    {
      if methods != [] {
        var front := methods[..|methods| - 1];
        var m := methods[|methods| - 1];
        ArrayCallsSound(front, source, action);
        match MethodBody(source, m)
        case None =>
        case Some(body) =>
          var calls := FieldCalls(body, m, AssignableFields(body, action));
          FieldCallsAt(body, m, AssignableFields(body, action));
          AssignableFieldsMembers(body, action);
          forall c | c in calls
            ensures c.ArrayMethodCall? && c.methodName == m && c.fieldName in body.vals
            ensures AssignFilter(body, c.fieldName, action) && c.value == body.vals[c.fieldName]
          {
            var i :| 0 <= i < |calls| && calls[i] == c;
            assert AssignableFields(body, action)[i] in AssignableFields(body, action);
          }
      }
    }

    /** Filtering a list of distinct keys keeps them distinct. */
    lemma {:induction false} AssignableDistinct(queryParams: Doc, keys: seq<string>, action: Action)
      requires Distinct(keys)
      ensures Distinct(Assignable(queryParams, keys, action))
      decreases |keys|
    {
      if keys != [] {
        var n := |keys| - 1;
        var front := keys[..n];
        DistinctPrefix(keys, n);
        AssignableDistinct(queryParams, front, action);
        AssignableMembers(queryParams, front, action);
        if AssignFilter(queryParams, keys[n], action) {
          DistinctBefore(keys, n);
          DistinctPush(Assignable(queryParams, front, action), keys[n]);
        }
      }
    }

    /** Over distinct fields, the call for one of them is made exactly once. */
    lemma {:induction false} FieldCallsOnce(body: Doc, methodName: string, fields: seq<string>, f: string)
      requires Distinct(fields) && f in fields
      ensures multiset(FieldCalls(body, methodName, fields))[ArrayMethodCall(Get(body, f), methodName, f)] == 1
      decreases |fields|
    {
      var n := |fields| - 1;
      var front := fields[..n];
      var c := ArrayMethodCall(Get(body, f), methodName, f);
      assert fields == front + [fields[n]];
      DistinctPrefix(fields, n);
      if fields[n] == f {
        DistinctBefore(fields, n);
        FieldCallsAt(body, methodName, front);
        assert c !in FieldCalls(body, methodName, front);
      } else {
        FieldCallsOnce(body, methodName, front, f);
      }
    }

    /**
     * Every field of a configured method's body that passes the assign
     * filter is handed to the adapter, with its value.
     */
    lemma {:induction false} ArrayCallsComplete(methods: seq<string>, source: Doc, action: Action, m: string, f: string)
      requires NestedValid(source) && m in methods && MethodBody(source, m).Some?
      requires var body := MethodBody(source, m).value; f in body.vals && AssignFilter(body, f, action)
      ensures ArrayMethodCall(MethodBody(source, m).value.vals[f], m, f) in ArrayCalls(methods, source, action)
      decreases |methods|
    {
      var n := |methods| - 1;
      var front := methods[..n];
      assert methods == front + [methods[n]];
      if methods[n] == m {
        var body := MethodBody(source, m).value;
        var fields := AssignableFields(body, action);
        AssignableFieldsMembers(body, action);
        var i :| 0 <= i < |fields| && fields[i] == f;
        FieldCallsAt(body, m, fields);
        assert FieldCalls(body, m, fields)[i] == ArrayMethodCall(body.vals[f], m, f);
      } else {
        ArrayCallsComplete(front, source, action, m, f);
      }
    }

    /**
     * With no method configured twice, each such field is handed to the
     * adapter exactly once.
     */
    lemma {:induction false} ArrayCallsOnce(methods: seq<string>, source: Doc, action: Action, m: string, f: string)
      requires NestedValid(source) && Distinct(methods) && m in methods && MethodBody(source, m).Some?
      requires var body := MethodBody(source, m).value; f in body.vals && AssignFilter(body, f, action)
      ensures multiset(ArrayCalls(methods, source, action))[ArrayMethodCall(MethodBody(source, m).value.vals[f], m, f)] == 1
      decreases |methods|
    {
      var n := |methods| - 1;
      var front := methods[..n];
      var body := MethodBody(source, m).value;
      var c := ArrayMethodCall(body.vals[f], m, f);
      assert methods == front + [methods[n]];
      DistinctPrefix(methods, n);
      if methods[n] == m {
        DistinctBefore(methods, n);
        ArrayCallsSound(front, source, action);
        assert c !in ArrayCalls(front, source, action);
        AssignableDistinct(body, body.keys, action);
        AssignableFieldsMembers(body, action);
        FieldCallsOnce(body, m, AssignableFields(body, action), f);
      } else {
        ArrayCallsOnce(front, source, action, m, f);
        match MethodBody(source, methods[n])
        case None =>
        case Some(other) =>
          var calls := FieldCalls(other, methods[n], AssignableFields(other, action));
          FieldCallsAt(other, methods[n], AssignableFields(other, action));
          assert c !in calls;
      }
    }

    /**
     * The inner loop of `proceedArrayMethods`: for each field, the before
     * hook (a no-op) and the adapter's `proceedArrayMethod` with the field's
     * value in the body.
     */
    method ProceedFields(body: Doc, methodName: string, fields: seq<string>)
      modifies dataSource`calls
      ensures dataSource.calls == old(dataSource.calls) + FieldCalls(body, methodName, fields)
    {
      var j := 0;
      while j < |fields|
        invariant j <= |fields|
        invariant dataSource.calls == old(dataSource.calls) + FieldCalls(body, methodName, fields[..j])
      {
        dataSource.ProceedArrayMethod(Get(body, fields[j]), methodName, fields[j]);
        assert fields[..j + 1][..j] == fields[..j];
        j := j + 1;
      }
      assert fields[..j] == fields;
    }

    /**
     * `proceedArrayMethods(scope)`: for each configured array method with an
     * object body in the payload, the before hook (a no-op) and the
     * adapter's `proceedArrayMethod` for every assignable field of the body.
     */
    method ProceedArrayMethods(scope: Scope)
      requires NestedValid(scope.source)
      modifies dataSource`calls
      ensures dataSource.calls == old(dataSource.calls) + ArrayCalls(arrayMethods, scope.source, scope.action)
    {
      var i := 0;
      while i < |arrayMethods|
        invariant i <= |arrayMethods|
        invariant dataSource.calls == old(dataSource.calls) + ArrayCalls(arrayMethods[..i], scope.source, scope.action)
      {
        var methodName := arrayMethods[i];
        assert arrayMethods[..i + 1][..i] == arrayMethods[..i];
        var methodBody := MethodBody(scope.source, methodName);
        ghost var front := ArrayCalls(arrayMethods[..i], scope.source, scope.action);
        if methodBody.Some? {
          var body := methodBody.value;
          var fields := AssignableFields(body, scope.action);
          ProceedFields(body, methodName, fields);
          assert ArrayCalls(arrayMethods[..i + 1], scope.source, scope.action) == front + FieldCalls(body, methodName, fields);
          AppendAssoc(old(dataSource.calls), front, FieldCalls(body, methodName, fields));
        } else {
          assert ArrayCalls(arrayMethods[..i + 1], scope.source, scope.action) == front;
        }
        i := i + 1;
      }
      assert arrayMethods[..i] == arrayMethods;
    }

    // -------------------------------------------------------------------
    // Locating the document

    /**
     * `locateModel(withQueryPipe, scope)`: the conditions and the field list
     * of the request go to `findOne`.
     */
    method LocateModel(withQueryPipe: bool, scope: Scope) returns (found: Option<Doc>)
      requires Settled() && scope.Valid()
      modifies scope`source, scope`fieldList, dataSource`calls
      ensures scope.Valid()
      ensures scope.source == scope.req.params && scope.fieldList == FieldListFor(scope.req.query)
      ensures dataSource.calls == old(dataSource.calls) + [FindOneCall(scope.req.params, FieldListFor(scope.req.query))]
      ensures found == dataSource.foundOne
    {
      var filter := BuildConditions(scope);
      scope.fieldList := ExtractFieldList(scope);
      found := dataSource.FindOne(filter, scope.fieldList);
    }

    // -------------------------------------------------------------------
    // Creating and saving

    /** `createDocument(scope)`: the adapter creates a document from the destination; it becomes the model. */
    method CreateDocument(scope: Scope)
      requires scope.Valid()
      modifies scope`model, dataSource`calls
      ensures scope.Valid()
      ensures scope.model == Some(dataSource.createOf(scope.dest))
      ensures dataSource.calls == old(dataSource.calls) + [CreateCall(scope.dest)]
    {
      var created := dataSource.Create(scope.dest);
      scope.model := Some(created);
    }

    /** `saveDocument(scope)`: the adapter saves the model; the saved document becomes the model. */
    method SaveDocument(scope: Scope)
      requires scope.Valid() && scope.model.Some?
      modifies scope`model, dataSource`calls
      ensures scope.Valid()
      ensures scope.model == Some(dataSource.saveOf(old(scope.model).value))
      ensures dataSource.calls == old(dataSource.calls) + [SaveCall(old(scope.model).value)]
    {
      var saved := dataSource.Save(scope.model.value);
      scope.model := Some(saved);
    }

    // -------------------------------------------------------------------
    // Pipelines (the hooks `pre`, `prepareData`, `beforeAssignFields`,
    // `beforeSave`, `afterSave`, `afterChange`, `beforeDelete`,
    // `collectionPost` and `post` do nothing and are left out)

    /**
     * `select(scope)`: the filter, the field list, the search, the sort, the
     * page size and the documents to skip go to `find`, and the collection
     * comes back with `Link` headers. The `limit` the headers get is a
     * second variable the inner `var limit` shadows, so it is absent:
     * the links carry `perPage=undefined` and there is never a `next` link.
     */
    method Select(scope: Scope) returns (r: Result<seq<Doc>, Failure>)
      requires Valid() && scope.Valid() && scope.action == Action.Select
      modifies this`defaultFilter, scope`source, scope`fieldList, scope`links, dataSource`calls
      ensures Valid() && scope.Valid()
      ensures scope.source == scope.req.params
      ensures defaultFilter == DefaultFilterAfter(scope.req.query.filter, old(defaultFilter), scope.req.params)
      ensures var query := scope.req.query;
        var filter := MergeFilter(query.filter, old(defaultFilter), scope.req.params);
        var sort := GetOrderBy(query.orderBy, orderBy);
        var limit := GetLimit(config.defaultPerPage, config.maxPerPage, query.perPage, query.perPageAlt);
        var page := GetPage(query.page, config.firstPageIndex);
        && (r.Err? <==> filter.Err? || sort.Err?)
        && (r.Err? ==> r.error == InvalidJson && dataSource.calls == old(dataSource.calls) && scope.links == old(scope.links))
        && (filter.Err? ==> scope.fieldList == old(scope.fieldList))
        && (filter.Ok? ==> scope.fieldList == FieldListFor(query))
        && (r.Ok? ==>
          && r.value == dataSource.collection
          && dataSource.calls == old(dataSource.calls)
               + [FindCall(FindQuery(filter.value, FieldListFor(query), query.q, qFields, sort.value, limit, Skip(page, limit)))]
          && scope.links == Some(LinkHeaders(page, None, |r.value|, scope.req.url, scope.req.protocol, scope.req.host)))
    {
      var _ := BuildConditions(scope);
      var filter := GetFilter(scope);
      if filter.Err? {
        return Err(InvalidJson);
      }
      var page;
      r, page := FindPage(scope, filter.value);
      if r.Err? {
        return;
      }
      AddLinkHeaders(page, None, |r.value|, scope);
    }

    /** `addLinkHeaders(page, limit, currentLength, scope)`: the links of the request's URL go to `res.links`. */
    method AddLinkHeaders(page: int, limit: Option<int>, currentLength: nat, scope: Scope)
      requires scope.Valid()
      modifies scope`links
      ensures scope.Valid()
      ensures scope.links == Some(LinkHeaders(page, limit, currentLength, scope.req.url, scope.req.protocol, scope.req.host))
    {
      var links := BuildLinks(page, limit, currentLength, scope.req.url, scope.req.protocol, scope.req.host);
      scope.links := Some(links);
    }

    /**
     * The step of `select` that queries the adapter: the field list, the
     * search, the sort, the page size and the page of the request, and the
     * documents to skip, go to `find` with the filter.
     */
    method FindPage(scope: Scope, filter: Doc) returns (r: Result<seq<Doc>, Failure>, page: int)
      requires Settled() && scope.Valid()
      modifies scope`fieldList, dataSource`calls
      ensures scope.Valid() && scope.fieldList == FieldListFor(scope.req.query)
      ensures var query := scope.req.query;
        var sort := GetOrderBy(query.orderBy, orderBy);
        var limit := GetLimit(config.defaultPerPage, config.maxPerPage, query.perPage, query.perPageAlt);
        && (r.Err? <==> sort.Err?)
        && (r.Err? ==> r.error == InvalidJson && dataSource.calls == old(dataSource.calls))
        && (r.Ok? ==>
          && page == GetPage(query.page, config.firstPageIndex) && r.value == dataSource.collection
          && dataSource.calls == old(dataSource.calls)
               + [FindCall(FindQuery(filter, FieldListFor(query), query.q, qFields, sort.value, limit, Skip(page, limit)))])
    {
      scope.fieldList := ExtractFieldList(scope);
      var q := scope.req.query.q;
      var sort := GetOrderBy(scope.req.query.orderBy, orderBy);
      if sort.Err? {
        return Err(InvalidJson), 0;
      }
      var limit := GetLimit(config.defaultPerPage, config.maxPerPage, scope.req.query.perPage, scope.req.query.perPageAlt);
      page := GetPage(scope.req.query.page, config.firstPageIndex);
      var collection := dataSource.Find(FindQuery(filter, scope.fieldList, q, qFields, sort.value, limit, Skip(page, limit)));
      r := Ok(collection);
    }

    /** `selectOne(scope)`: the located document, or a 404 error when there is none. */
    method SelectOne(scope: Scope) returns (r: Result<Doc, Failure>)
      requires Settled() && scope.Valid() && scope.action == Action.SelectOne
      modifies scope`source, scope`fieldList, dataSource`calls
      ensures scope.Valid()
      ensures scope.source == scope.req.params && scope.fieldList == FieldListFor(scope.req.query)
      ensures r.Err? <==> dataSource.foundOne.None?
      ensures r.Err? ==> r.error == NotFound
      ensures r.Ok? ==> r.value == dataSource.foundOne.value
      ensures dataSource.calls == old(dataSource.calls) + [FindOneCall(scope.req.params, FieldListFor(scope.req.query))]
    {
      var _ := BuildConditions(scope);
      var found := LocateModel(true, scope);
      if found.None? {
        return Err(NotFound);
      }
      r := Ok(found.value);
    }

    /**
     * `insert(scope)`: the path parameters are written over the body, the
     * assignable fields of the result are written to the destination, the
     * adapter creates and saves the document, and the response is a 201
     * with the default fields of the document.
     */
    method Insert(scope: Scope) returns (r: Doc)
      requires Settled() && scope.Valid() && scope.action == Action.Insert
      modifies scope`source, scope`dest, scope`model, scope`statusCode, dataSource`calls
      ensures scope.Valid()
      ensures scope.source == Assign(scope.req.body, scope.req.params)
      ensures var written := AssignPayload(old(scope.dest), scope.source, Action.Insert);
        var created := dataSource.createOf(written);
        var saved := dataSource.saveOf(created);
        && scope.dest == written && scope.model == Some(saved)
        && dataSource.calls == old(dataSource.calls) + AssignCalls(AssignableFields(scope.source, Action.Insert))
             + [CreateCall(written), SaveCall(created)]
        && r == Pick(saved, defaultFieldNames)
      ensures scope.statusCode == 201
    {
      var _ := BuildConditions(scope);
      scope.source := Assign(scope.req.body, scope.source);
      AssignFields(scope);
      CreateDocument(scope);
      SaveDocument(scope);
      scope.statusCode := 201;
      r := Pick(scope.model.value, defaultFieldNames);
    }

    /**
     * `replace(scope)`: the assignable fields of the body are written to
     * the located document, which is saved. With `smartPut` a missing
     * document is inserted instead (a 201), from the path parameters
     * written over the body; without it, a 404 error. The missing-document
     * step is the intended one, `MissingDocument`, not the one the code
     * spells out (`MissingDocumentAsWritten`). The response holds the
     * default fields of the saved document.
     */
    method Replace(scope: Scope) returns (r: Result<Doc, Failure>)
      requires Settled() && dataSource.Valid() && scope.Valid()
      requires scope.action == Action.Replace && !scope.inserting
      modifies scope`source, scope`dest, scope`model, scope`inserting, scope`fieldList, scope`statusCode, dataSource`calls
      ensures scope.Valid()
      ensures scope.fieldList == FieldListFor(scope.req.query)
      ensures var found := dataSource.foundOne;
        var located := old(dataSource.calls) + [FindOneCall(scope.req.params, FieldListFor(scope.req.query))];
        && (found.None? && !smartPut ==>
          && r == Err(NotFound) && dataSource.calls == located && !scope.inserting
          && scope.source == scope.req.params && scope.dest == old(scope.dest) && scope.model == old(scope.model)
          && scope.statusCode == old(scope.statusCode))
        && (found.Some? ==>
          var written := AssignPayload(found.value, scope.req.body, Action.Replace);
          var saved := dataSource.saveOf(written);
          && !scope.inserting && scope.source == scope.req.body && scope.dest == old(scope.dest)
          && scope.model == Some(saved)
          && dataSource.calls == located + AssignCalls(AssignableFields(scope.req.body, Action.Replace)) + [SaveCall(written)]
          && r == Ok(Pick(saved, defaultFieldNames))
          && scope.statusCode == old(scope.statusCode))
        && (found.None? && smartPut ==>
          var source := Assign(scope.req.body, scope.req.params);
          var written := AssignPayload(old(scope.dest), source, Action.Replace);
          var created := dataSource.createOf(written);
          var saved := dataSource.saveOf(created);
          && scope.inserting && scope.source == source && scope.dest == written && scope.model == Some(saved)
          && dataSource.calls == located + AssignCalls(AssignableFields(source, Action.Replace))
               + [CreateCall(written), SaveCall(created)]
          && r == Ok(Pick(saved, defaultFieldNames))
          && scope.statusCode == 201)
    {
      var _ := BuildConditions(scope);
      var found := LocateModel(false, scope);
      ghost var fields := scope.fieldList;
      assert fields == FieldListFor(scope.req.query);
      if found.None? {
        var missing := MissingDocument(smartPut);
        if missing.Err? {
          return Err(missing.error);
        }
        var created := ReplaceByInsert(scope);
        r := Ok(created);
      } else {
        var saved := ReplaceLocated(scope, found.value);
        r := Ok(saved);
      }
    }

    /** `replace` on a located document: the body is written to it and it is saved. */
    method ReplaceLocated(scope: Scope, located: Doc) returns (r: Doc)
      requires Settled() && scope.Valid() && located.Valid()
      requires scope.action == Action.Replace && !scope.inserting
      modifies scope`source, scope`dest, scope`model, scope`statusCode, dataSource`calls
      ensures scope.Valid()
      ensures var written := AssignPayload(located, scope.req.body, Action.Replace);
        var saved := dataSource.saveOf(written);
        && !scope.inserting && scope.source == scope.req.body && scope.dest == old(scope.dest)
        && scope.model == Some(saved)
        && dataSource.calls == old(dataSource.calls) + AssignCalls(AssignableFields(scope.req.body, Action.Replace))
             + [SaveCall(written)]
        && r == Pick(saved, defaultFieldNames) && scope.statusCode == old(scope.statusCode)
    {
      scope.source := scope.req.body;
      scope.model := Some(located);
      r := SaveReplacement(scope);
    }

    /**
     * `replace` with `smartPut` and no document: the path parameters are
     * written over the body and the result is inserted.
     */
    method ReplaceByInsert(scope: Scope) returns (r: Doc)
      requires Settled() && scope.Valid() && scope.source == scope.req.params
      requires scope.action == Action.Replace && !scope.inserting
      modifies scope`source, scope`dest, scope`model, scope`inserting, scope`statusCode, dataSource`calls
      ensures scope.Valid()
      ensures var source := Assign(scope.req.body, scope.req.params);
        var written := AssignPayload(old(scope.dest), source, Action.Replace);
        var created := dataSource.createOf(written);
        var saved := dataSource.saveOf(created);
        && scope.inserting && scope.source == source && scope.dest == written && scope.model == Some(saved)
        && dataSource.calls == old(dataSource.calls) + AssignCalls(AssignableFields(source, Action.Replace))
             + [CreateCall(written), SaveCall(created)]
        && r == Pick(saved, defaultFieldNames) && scope.statusCode == 201
    {
      scope.inserting := true;
      scope.source := Assign(scope.req.body, scope.source);
      r := SaveReplacement(scope);
    }

    /**
     * The steps of `replace` once the document is located or the insert is
     * decided: the assignable fields of the source are written, an insert
     * creates the document, the model is saved, and an insert answers 201.
     * The result holds the default fields of the saved document.
     */
    method SaveReplacement(scope: Scope) returns (r: Doc)
      requires Settled() && scope.Valid() && scope.action == Action.Replace
      requires !scope.inserting ==> scope.model.Some?
      modifies scope`dest, scope`model, scope`statusCode, dataSource`calls
      ensures scope.Valid()
      ensures scope.inserting ==>
        var written := AssignPayload(old(scope.dest), scope.source, Action.Replace);
        var created := dataSource.createOf(written);
        var saved := dataSource.saveOf(created);
        && scope.dest == written && scope.model == Some(saved)
        && dataSource.calls == old(dataSource.calls) + AssignCalls(AssignableFields(scope.source, Action.Replace))
             + [CreateCall(written), SaveCall(created)]
        && scope.statusCode == 201 && r == Pick(saved, defaultFieldNames)
      ensures !scope.inserting ==>
        var written := AssignPayload(old(scope.model).value, scope.source, Action.Replace);
        var saved := dataSource.saveOf(written);
        && scope.dest == old(scope.dest) && scope.model == Some(saved)
        && dataSource.calls == old(dataSource.calls) + AssignCalls(AssignableFields(scope.source, Action.Replace))
             + [SaveCall(written)]
        && scope.statusCode == old(scope.statusCode) && r == Pick(saved, defaultFieldNames)
    {
      AssignFields(scope);
      ghost var assignCalls := dataSource.calls;
      if scope.inserting {
        CreateDocument(scope);
        assert dataSource.calls == assignCalls + [CreateCall(scope.dest)];
      }
      SaveDocument(scope);
      if scope.inserting {
        scope.statusCode := 201;
      }
      r := Pick(scope.model.value, defaultFieldNames);
    }

    /**
     * `update(scope)`: the fields the body carries are written to the
     * located document, the array methods of the body are handed to the
     * adapter, and the saved document is the response; a 404 error when
     * there is no document.
     */
    method Update(scope: Scope) returns (r: Result<Doc, Failure>)
      requires Settled() && dataSource.Valid() && scope.Valid()
      requires scope.action == Action.Update && !scope.inserting
      modifies scope`source, scope`dest, scope`model, scope`fieldList, dataSource`calls
      ensures scope.Valid()
      ensures scope.fieldList == FieldListFor(scope.req.query) && scope.dest == old(scope.dest)
      ensures var found := dataSource.foundOne;
        var located := old(dataSource.calls) + [FindOneCall(scope.req.params, FieldListFor(scope.req.query))];
        && (found.None? ==>
          && r == Err(NotFound) && dataSource.calls == located
          && scope.source == scope.req.params && scope.model == old(scope.model))
        && (found.Some? ==>
          var written := AssignPayload(found.value, scope.req.body, Action.Update);
          var saved := dataSource.saveOf(written);
          && scope.source == scope.req.body && scope.model == Some(saved) && r == Ok(saved)
          && dataSource.calls == located + AssignCalls(AssignableFields(scope.req.body, Action.Update))
               + ArrayCalls(arrayMethods, scope.req.body, Action.Update) + [SaveCall(written)])
    {
      var _ := BuildConditions(scope);
      var found := LocateModel(false, scope);
      if found.None? {
        return Err(NotFound);
      }
      ApplyUpdate(scope, found.value);
      r := Ok(scope.model.value);
    }

    /** The steps of `update` after the document is located: assign, array methods, save. */
    method ApplyUpdate(scope: Scope, located: Doc)
      requires scope.Valid() && located.Valid()
      requires scope.action == Action.Update && !scope.inserting
      modifies scope`source, scope`dest, scope`model, dataSource`calls
      ensures scope.Valid()
      ensures var written := AssignPayload(located, scope.req.body, Action.Update);
        && scope.source == scope.req.body && scope.dest == old(scope.dest)
        && scope.model == Some(dataSource.saveOf(written))
        && dataSource.calls == old(dataSource.calls) + AssignCalls(AssignableFields(scope.req.body, Action.Update))
             + ArrayCalls(arrayMethods, scope.req.body, Action.Update) + [SaveCall(written)]
    {
      scope.source := scope.req.body;
      scope.model := Some(located);
      AssignFields(scope);
      ProceedArrayMethods(scope);
      SaveDocument(scope);
    }

    /**
     * `delete(scope)`: the located document is removed and the response is
     * a 204 without a body; a 404 error when there is no document. What
     * `remove` answers is stored in `scope.mode`, a field nothing reads, so
     * the model stays the located document.
     */
    method Delete(scope: Scope) returns (r: Result<(), Failure>)
      requires Settled() && dataSource.Valid() && scope.Valid() && scope.action == Action.Delete
      modifies scope`source, scope`model, scope`fieldList, scope`statusCode, dataSource`calls
      ensures scope.Valid()
      ensures scope.source == scope.req.params && scope.fieldList == FieldListFor(scope.req.query)
      ensures var found := dataSource.foundOne;
        var located := old(dataSource.calls) + [FindOneCall(scope.req.params, FieldListFor(scope.req.query))];
        && (found.None? ==>
          && r == Err(NotFound) && dataSource.calls == located
          && scope.model == old(scope.model) && scope.statusCode == old(scope.statusCode))
        && (found.Some? ==>
          && r == Ok(()) && scope.model == found && scope.statusCode == 204
          && dataSource.calls == located + [RemoveCall(found.value)])
    {
      var _ := BuildConditions(scope);
      var found := LocateModel(false, scope);
      if found.None? {
        return Err(NotFound);
      }
      scope.model := found;
      var removed := dataSource.Remove(scope.model.value);
      scope.statusCode := 204;
      r := Ok(());
    }

    /** `count(scope)`: the adapter counts the documents the filter and the search select; the response is `{count}`. */
    method Count(scope: Scope) returns (r: Result<Doc, Failure>)
      requires Valid() && scope.Valid() && scope.action == Action.Count
      modifies this`defaultFilter, scope`source, scope`model, dataSource`calls
      ensures Valid() && scope.Valid()
      ensures scope.source == scope.req.params
      ensures defaultFilter == DefaultFilterAfter(scope.req.query.filter, old(defaultFilter), scope.req.params)
      ensures var query := scope.req.query;
        var filter := MergeFilter(query.filter, old(defaultFilter), scope.req.params);
        && (r.Err? <==> filter.Err?)
        && (r.Err? ==> r.error == InvalidJson && dataSource.calls == old(dataSource.calls) && scope.model == old(scope.model))
        && (r.Ok? ==>
          && r.value == CountDoc(dataSource.total) && scope.model == Some(r.value)
          && dataSource.calls == old(dataSource.calls) + [CountCall(filter.value, query.q, qFields)])
    {
      var _ := BuildConditions(scope);
      var filter := GetFilter(scope);
      if filter.Err? {
        return Err(InvalidJson);
      }
      var n := dataSource.Count(filter.value, scope.req.query.q, qFields);
      scope.model := Some(CountDoc(n));
      r := Ok(scope.model.value);
    }
  }

  /**
   * `new DataService(options)`: normalises the configured fields (or the
   * adapter's field names), which throws on an entry of the wrong type,
   * and then settles the rest of the configuration.
   */
  method Construct(options: Options, dataSource: DataSource) returns (r: Result<DataService, SchemaError>)
    requires options.defaultFilter.Some? ==> options.defaultFilter.value.Valid()
    ensures r.Err? <==> !WellTyped(ConfiguredFields(options.fields, dataSource.modelFieldNames))
    ensures r.Err? ==> r.error == WrongFieldType
    ensures r.Ok? ==>
      && Normalize(ConfiguredFields(options.fields, dataSource.modelFieldNames)).Ok?
      && fresh(r.value) && r.value.Valid() && r.value.dataSource == dataSource
      && r.value.idField == ResolveIdField(options.idField, dataSource.defaultIdField)
      && r.value.fieldMap == WithIdField(Normalize(ConfiguredFields(options.fields, dataSource.modelFieldNames)).value, r.value.idField)
      && r.value.modelFieldNames == ListWithId(r.value.fieldMap.keys, r.value.idField)
      && r.value.defaultFields == DefaultFieldMap(r.value.fieldMap, options.defaultFields, r.value.idField)
      && (options.defaultFields.Some? ==> r.value.defaultFieldNames == ListWithId(options.defaultFields.value, r.value.idField))
      && (options.defaultFields.None? ==> r.value.defaultFieldNames == ListWithId(r.value.fieldMap.keys, r.value.idField))
      && r.value.readOnlyFields == options.readOnlyFields
      && r.value.arrayMethods == options.arrayMethods.GetOr(dataSource.defaultArrayMethods)
      && r.value.smartPut == options.smartPut && r.value.orderBy == options.orderBy
      && r.value.qFields == options.qFields && r.value.config == options.config
      && r.value.defaultFilter == options.defaultFilter
  {
    var fields := ConfiguredFields(options.fields, dataSource.modelFieldNames);
    var normalized := NormalizeFields(fields);
    NormalizeOkIff(fields);
    if normalized.Err? {
      return Err(normalized.error);
    }
    NormalizeWellKeyed(fields);
    var service := new DataService(options, dataSource, normalized.value);
    return Ok(service);
  }
}
