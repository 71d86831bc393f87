/**
 * The data source adapter as the data service sees it. What it answers
 * belongs to the adapter, so its answers are fixed when it is made: the
 * document `findOne` finds, the collection `find` returns and the number
 * `count` returns, and, as functions the model does not look into, the
 * document `create` makes, the document `save` hands back and what the
 * adapter's own `assignField` leaves in a document. Every call the service
 * makes is recorded, in order, so the pipelines can be specified by the
 * calls they make.
 */
module Store {
  import opened Wrappers
  import opened JsObject
  import opened FieldSchema

  /** A well-formed document: what the adapter hands back. */
  type ValidDoc = d: Doc | d.Valid() witness Obj([], map[])

  /** The query `select` hands to `find`. */
  datatype FindQuery = FindQuery(
    filter: Doc,
    fields: FieldMap,
    q: Value,
    qFields: seq<string>,
    sort: Value,
    limit: int,
    skip: int)

  /** A call the data service made on its data source. */
  datatype Call =
    | FindOneCall(filter: Doc, fields: FieldMap)
    | FindCall(query: FindQuery)
    | CountCall(filter: Doc, q: Value, qFields: seq<string>)
    | CreateCall(doc: Doc)
    | SaveCall(doc: Doc)
    | RemoveCall(doc: Doc)
    | AssignFieldCall(fieldName: string)
    | ArrayMethodCall(value: Value, methodName: string, fieldName: string)

  class DataSource {
    /** `defaultIdField` */
    const defaultIdField: string
    /** What `getModelFieldNames()` returns. */
    const modelFieldNames: seq<string>
    /** `defaultArrayMethods` */
    const defaultArrayMethods: seq<string>
    /** Whether the adapter brings its own `assignField`. */
    const hasAssignField: bool
    /** The answer of `findOne` (`None` for no document). */
    const foundOne: Option<Doc>
    /** The answer of `find`. */
    const collection: seq<Doc>
    /** The answer of `count`. */
    const total: int
    /** What `create(doc)` answers: the new document made from `doc`. */
    const createOf: Doc -> ValidDoc
    /** What `save(doc)` answers: the document as saved. */
    const saveOf: Doc -> ValidDoc
    /**
     * What the adapter's own `assignField` leaves in the document being
     * written, given that document, the payload and the field name.
     */
    const setFieldOf: (Doc, Doc, string) -> ValidDoc
    /** The calls made so far, oldest first. */
    var calls: seq<Call>

    /** The document the adapter finds is a well-formed object. */
    ghost predicate Valid() {
      foundOne.Some? ==> foundOne.value.Valid()
    }

    constructor(defaultIdField: string, modelFieldNames: seq<string>, defaultArrayMethods: seq<string>,
                hasAssignField: bool, foundOne: Option<Doc>, collection: seq<Doc>, total: int,
                createOf: Doc -> ValidDoc, saveOf: Doc -> ValidDoc, setFieldOf: (Doc, Doc, string) -> ValidDoc)
      ensures this.defaultIdField == defaultIdField && this.modelFieldNames == modelFieldNames
      ensures this.defaultArrayMethods == defaultArrayMethods && this.hasAssignField == hasAssignField
      ensures this.foundOne == foundOne && this.collection == collection && this.total == total
      ensures this.createOf == createOf && this.saveOf == saveOf && this.setFieldOf == setFieldOf
      ensures calls == []
    {
      this.defaultIdField := defaultIdField;
      this.modelFieldNames := modelFieldNames;
      this.defaultArrayMethods := defaultArrayMethods;
      this.hasAssignField := hasAssignField;
      this.foundOne := foundOne;
      this.collection := collection;
      this.total := total;
      this.createOf := createOf;
      this.saveOf := saveOf;
      this.setFieldOf := setFieldOf;
      calls := [];
    }

    method FindOne(filter: Doc, fields: FieldMap) returns (r: Option<Doc>)
      modifies this`calls
      ensures r == foundOne
      ensures calls == old(calls) + [FindOneCall(filter, fields)]
    {
      calls := calls + [FindOneCall(filter, fields)];
      r := foundOne;
    }

    method Find(query: FindQuery) returns (r: seq<Doc>)
      modifies this`calls
      ensures r == collection
      ensures calls == old(calls) + [FindCall(query)]
    {
      calls := calls + [FindCall(query)];
      r := collection;
    }

    method Count(filter: Doc, q: Value, qFields: seq<string>) returns (n: int)
      modifies this`calls
      ensures n == total
      ensures calls == old(calls) + [CountCall(filter, q, qFields)]
    {
      calls := calls + [CountCall(filter, q, qFields)];
      n := total;
    }

    /** `create(dest)`: the new document. */
    method Create(doc: Doc) returns (r: Doc)
      modifies this`calls
      ensures r == createOf(doc) && r.Valid()
      ensures calls == old(calls) + [CreateCall(doc)]
    {
      calls := calls + [CreateCall(doc)];
      r := createOf(doc);
    }

    /** `save(model)`: the saved document. */
    method Save(doc: Doc) returns (r: Doc)
      modifies this`calls
      ensures r == saveOf(doc) && r.Valid()
      ensures calls == old(calls) + [SaveCall(doc)]
    {
      calls := calls + [SaveCall(doc)];
      r := saveOf(doc);
    }

    /** `remove(model)`: the removed document. */
    method Remove(doc: Doc) returns (r: Doc)
      modifies this`calls
      ensures r == doc
      ensures calls == old(calls) + [RemoveCall(doc)]
    {
      calls := calls + [RemoveCall(doc)];
      r := doc;
    }

    /**
     * The adapter's own `assignField(fieldName, scope)`, on the document
     * `target` the generic setter would write: what it leaves there.
     */
    method AssignField(fieldName: string, target: Doc, source: Doc) returns (r: Doc)
      modifies this`calls
      ensures r == setFieldOf(target, source, fieldName) && r.Valid()
      ensures calls == old(calls) + [AssignFieldCall(fieldName)]
    {
      calls := calls + [AssignFieldCall(fieldName)];
      r := setFieldOf(target, source, fieldName);
    }

    /** `proceedArrayMethod(value, methodName, fieldName, scope)`, with the value of one field of a method's body */
    method ProceedArrayMethod(value: Value, methodName: string, fieldName: string)
      modifies this`calls
      ensures calls == old(calls) + [ArrayMethodCall(value, methodName, fieldName)]
    {
      calls := calls + [ArrayMethodCall(value, methodName, fieldName)];
    }
  }
}
