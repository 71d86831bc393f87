/**
 * The per-request scope the pipelines thread through their steps: the
 * request, the conditions and payload being worked on, the destination of
 * an insert, the document being worked on, the field list and what goes
 * back in the response.
 */
module RequestScope {
  import opened Wrappers
  import opened JsObject
  import opened FieldSchema
  import opened Query
  import opened Links

  /** The verb a scope was made for. */
  datatype Action = Select | SelectOne | Insert | Replace | Update | Delete | Count

  /**
   * The query string. A parameter that is absent or empty is `None`;
   * `perPage` and `per_page` (`perPageAlt`) hold the number their text
   * reads, and `filter` and `orderBy` the outcome of `JSON.parse`.
   */
  datatype QueryParams = QueryParams(
    fields: Option<string>,
    filter: Option<Json<Doc>>,
    orderBy: Option<Json<Value>>,
    page: Option<string>,
    perPage: Option<int>,
    perPageAlt: Option<int>,
    q: Value)

  /** `req`: the path parameters, the query, the body and the URL parts links are made of. */
  datatype Request = Request(
    params: Doc,
    query: QueryParams,
    body: Doc,
    url: string,
    protocol: string,
    host: string)

  class Scope {
    const action: Action
    const req: Request
    var source: Doc
    var dest: Doc
    var model: Option<Doc>
    var inserting: bool
    var fieldList: FieldMap
    /** `res.statusCode` */
    var statusCode: int
    /** What was handed to `res.links`, if anything. */
    var links: Option<LinkSet>

    /** Every object the request carries is a well-formed plain object. */
    ghost predicate WellFormedRequest() {
      && req.params.Valid()
      && req.body.Valid() && NestedValid(req.body)
      && (req.query.filter.Some? && req.query.filter.value.Parsed? ==> req.query.filter.value.value.Valid())
    }

    /** Every object in the scope is a well-formed plain object. */
    ghost predicate Valid()
      reads this
    {
      && WellFormedRequest()
      && source.Valid()
      && dest.Valid()
      && (model.Some? ==> model.value.Valid())
      && fieldList.Valid()
    }

    /** `scope.isInsert()` */
    predicate IsInsert() {
      action == Insert
    }

    constructor(action: Action, req: Request)
      requires req.params.Valid() && req.body.Valid() && NestedValid(req.body)
      requires req.query.filter.Some? && req.query.filter.value.Parsed? ==> req.query.filter.value.value.Valid()
      ensures Valid()
      ensures this.action == action && this.req == req
      ensures source == Empty() && dest == Empty() && model == None && !inserting
      ensures fieldList == Empty() && statusCode == 200 && links == None
    {
      this.action := action;
      this.req := req;
      source := Empty();
      dest := Empty();
      model := None;
      inserting := false;
      fieldList := Empty();
      statusCode := 200;
      links := None;
    }
  }
}
