/**
  The list route handler of lib/query-handler.js: the request-query schema it
  installs on the route, the where clause with wildcard search, the sort
  coercion, the findAndCountAll options and the handler's reply.
 */
module ListHandler {
  import opened Shared
  import opened Scopes
  import opened Expansions

  /** The validated request query of a list route. */
  datatype ListQuery = ListQuery(start: int, limit: int, sort: seq<string>, q: Option<string>, expand: seq<string>)

  /** The request query as it arrives (a single value already wrapped in a list); None is an absent key. */
  datatype RawListQuery = RawListQuery(
    start: Option<int>,
    limit: Option<int>,
    sort: Option<seq<string>>,
    q: Option<string>,
    expand: Option<seq<string>>)

  /** A hapi request whose query the where builder rewrites in place. */
  class HttpRequest {
    const params: map<string, Value>
    var query: ListQuery

    constructor (params: map<string, Value>, query: ListQuery)
      ensures this.params == params && this.query == query
    {
      this.params := params;
      this.query := query;
    }

    /** The request as the route callbacks see it at this moment. */
    function Snapshot(): Request<ListQuery>
      reads this
    {
      Request(params, query)
    }
  }

  /** The collection object built from a findAndCountAll result. */
  datatype Collection = Collection(items: seq<Value>, start: int, total: int)

  /** The validated route options of a list route. */
  datatype ListRoute = ListRoute(
    model: string,
    sort: seq<string>,
    query: seq<string>,
    where: Request<ListQuery> -> Option<Where>,
    limit: int,
    expand: ExpandOptions<ListQuery>,
    scope: Option<ScopeSetting<ListQuery>>,
    options: Options,
    queryOptions: Options,
    preQuery: (Request<ListQuery>, Options) -> Result<Options, Error>,
    postQuery: (Request<ListQuery>, Collection) -> Result<Collection, Error>)

  // ---------------------------------------------------------------------------
  // The request-query schema (routeQuerySchema)

  /** The legal sort keys: each attribute followed by its `-`-prefixed form, in attribute order. */
  function SortKeys(attributes: seq<string>): (keys: seq<string>)
    ensures |keys| == 2 * |attributes|
    ensures forall i :: 0 <= i < |attributes| ==>
      keys[2 * i] == attributes[i] && keys[2 * i + 1] == "-" + attributes[i]
  {
    if attributes == [] then []
    else
      var last := attributes[|attributes| - 1];
      SortKeys(attributes[..|attributes| - 1]) + [last, "-" + last]
  }

  /** The `reduce` that pushes `field` and `-field` into an accumulator. */
  method BuildSortKeys(attributes: seq<string>) returns (sorts: seq<string>)
    ensures sorts == SortKeys(attributes)
  {
    sorts := [];
    for i := 0 to |attributes|
      invariant sorts == SortKeys(attributes[..i])
    {
      assert attributes[..i + 1][..i] == attributes[..i];
      sorts := sorts + [attributes[i], "-" + attributes[i]];
    }
    assert attributes[..|attributes|] == attributes;
  }

  /** The compiled schema for the request query. */
  datatype QuerySchema = QuerySchema(
    sorts: seq<string>,
    defaultLimit: int,
    defaultSort: seq<string>,
    acceptsQ: bool,
    expansions: seq<string>)

  /** routeQuerySchema: legal sorts, defaults from the route, `q` only with query fields, allowed expansions. */
  method RouteQuerySchema(model: SequelizeModel, route: ListRoute) returns (schema: QuerySchema)
    ensures schema.sorts == SortKeys(model.attributes)
    ensures schema.defaultLimit == route.limit && schema.defaultSort == route.sort
    ensures schema.acceptsQ <==> |route.query| > 0
    ensures schema.expansions == AllowedExpansions(route.expand.valid, route.expand.invalid, model)
  {
    var sorts := BuildSortKeys(model.attributes);
    var acceptsQ := false;
    if |route.query| > 0 {
      acceptsQ := true;
    }
    var associations := AllowedExpansions(route.expand.valid, route.expand.invalid, model);
    schema := QuerySchema(sorts, route.limit, route.sort, acceptsQ, associations);
  }

  /** The value `q` takes after `joi.string().empty('')`: the empty string is dropped. */
  function EmptyToNone(q: Option<string>): Option<string> {
    if q == Some("") then None else q
  }

  /**
    Validation of the request query against the schema: defaults for missing
    keys, every sort key legal, every expansion allowed, and `q` refused
    outright when the route has no query fields.
   */
  function ValidateQuery(schema: QuerySchema, raw: RawListQuery): (r: Result<ListQuery, QueryError>)
    ensures r.Ok? <==>
      ValidateList("sort", raw.sort, schema.sorts).Ok?
      && ValidateList("expand", raw.expand, schema.expansions).Ok?
      && (raw.q.Some? ==> schema.acceptsQ)
    ensures r.Ok? ==> r.value == ListQuery(
      raw.start.GetOr(0),
      raw.limit.GetOr(schema.defaultLimit),
      raw.sort.GetOr(schema.defaultSort),
      EmptyToNone(raw.q),
      raw.expand.GetOr([]))
    ensures r.Ok? && r.value.q.Some? ==> schema.acceptsQ && r.value.q.value != ""
  {
    var sort := if raw.sort.None? then Ok(schema.defaultSort) else ValidateList("sort", raw.sort, schema.sorts);
    var expand := ValidateList("expand", raw.expand, schema.expansions);
    if sort.Err? then Err(sort.error)
    else if expand.Err? then Err(expand.error)
    else if raw.q.Some? && !schema.acceptsQ then Err(NotAllowed("q"))
    else Ok(ListQuery(raw.start.GetOr(0), raw.limit.GetOr(schema.defaultLimit), sort.value, EmptyToNone(raw.q), expand.value))
  }

  // ---------------------------------------------------------------------------
  // The where clause (where)

  predicate EndsWithStar(s: string) {
    |s| > 0 && s[|s| - 1] == '*'
  }

  /** The search term: `q` with a `*` appended unless it already ends with one. */
  function SearchTerm(q: string): (t: string)
    ensures EndsWithStar(t)
    ensures EndsWithStar(q) ==> t == q
    ensures !EndsWithStar(q) ==> t == q + "*"
  {
    if EndsWithStar(q) then q else q + "*"
  }

  /** `replace(/\*\/g, '%')`: every `*` becomes `%`, everything else is kept. */
  function LikePattern(t: string): (p: string)
    ensures |p| == |t|
    ensures forall i :: 0 <= i < |t| ==> p[i] == (if t[i] == '*' then '%' else t[i])
  {
    if t == [] then [] else [if t[0] == '*' then '%' else t[0]] + LikePattern(t[1..])
  }

  /** A search happens when the route has query fields and `q` is a non-empty string. */
  predicate Searching(fields: seq<string>, q: Option<string>) {
    |fields| > 0 && q.Some? && q.value != ""
  }

  /** `req.query.q` after the where builder has run. */
  function NormalisedQ(fields: seq<string>, q: Option<string>): Option<string> {
    if Searching(fields, q) then Some(SearchTerm(q.value)) else q
  }

  /** Sequelize.or of one ILIKE clause per query field, in configured order. */
  function SearchDisjunction(fields: seq<string>, term: string): (w: Where)
    ensures w.Or? && |w.clauses| == |fields|
    ensures forall i :: 0 <= i < |fields| ==> w.clauses[i] == ILike(fields[i], LikePattern(term))
  {
    Or(seq(|fields|, i requires 0 <= i < |fields| => ILike(fields[i], LikePattern(term))))
  }

  /**
    The where clause from the base criteria and the search: the base alone when
    there is nothing to search for, the disjunction alone when the base is null,
    and AND(base, disjunction) otherwise.
   */
  function Criteria(base: Option<Where>, fields: seq<string>, q: Option<string>): (r: Option<Where>)
    ensures !Searching(fields, q) ==> r == base
    ensures Searching(fields, q) ==> r.Some?
    ensures Searching(fields, q) && base.None? ==> r.value == SearchDisjunction(fields, SearchTerm(q.value))
    ensures Searching(fields, q) && base.Some? ==>
      r.value == And(base.value, SearchDisjunction(fields, SearchTerm(q.value)))
  {
    if Searching(fields, q) then
      var disjunction := SearchDisjunction(fields, SearchTerm(q.value));
      if base.Some? then Some(And(base.value, disjunction)) else Some(disjunction)
    else base
  }

  /** Every pattern ends with `%` and holds no `*`. */
  lemma {:induction false} PatternShape(q: string)
    ensures var p := LikePattern(SearchTerm(q));
      |p| > 0 && p[|p| - 1] == '%' && forall i :: 0 <= i < |p| ==> p[i] != '*'
  {
    var t := SearchTerm(q);
    var p := LikePattern(t);
    assert p[|p| - 1] == '%';
  }

  /** Rewriting `q` is idempotent: a second pass adds no second `*` and builds the same criteria. */
  lemma {:induction false} NormalisedQIdempotent(base: Option<Where>, fields: seq<string>, q: Option<string>)
    ensures NormalisedQ(fields, NormalisedQ(fields, q)) == NormalisedQ(fields, q)
    ensures Criteria(base, fields, NormalisedQ(fields, q)) == Criteria(base, fields, q)
  {
    if Searching(fields, q) {
      var t := SearchTerm(q.value);
      assert Searching(fields, Some(t));
      assert SearchTerm(t) == t;
    }
  }

  /** The request after the where builder has rewritten `q`. */
  function AfterWhere(req: Request<ListQuery>, route: ListRoute): (r: Request<ListQuery>)
    ensures r.params == req.params
    ensures r.query.start == req.query.start && r.query.limit == req.query.limit
    ensures r.query.sort == req.query.sort && r.query.expand == req.query.expand
    ensures r.query.q.Some? <==> req.query.q.Some?
    ensures Searching(route.query, req.query.q) ==> EndsWithStar(r.query.q.value)
  {
    req.(query := req.query.(q := NormalisedQ(route.query, req.query.q)))
  }

  /** internals.where: the route's where function, then the search rewriting `req.query.q` in place. */
  method ApplyWhere(req: HttpRequest, route: ListRoute) returns (where: Option<Where>)
    modifies req
    ensures where == Criteria(route.where(old(req.Snapshot())), route.query, old(req.query.q))
    ensures req.Snapshot() == AfterWhere(old(req.Snapshot()), route)
  {
    where := route.where(req.Snapshot());
    if |route.query| > 0 && req.query.q.Some? && req.query.q.value != "" {
      var q := SearchTerm(req.query.q.value);
      req.query := req.query.(q := Some(q));
      var subQuery := SearchDisjunction(route.query, q);
      where := if where.Some? then Some(And(where.value, subQuery)) else Some(subQuery);
    }
  }

  // ---------------------------------------------------------------------------
  // Sorting and the query options (queryOptions)

  predicate Descending(field: string) {
    |field| > 0 && field[0] == '-'
  }

  /** `-f` becomes `[[f, 'DESC']]`, anything else `[[f, 'ASC']]`. */
  function OrderOf(field: string): (term: seq<SortTerm>)
    ensures |term| == 1
    ensures Descending(field) ==> term[0] == SortTerm(field[1..], Desc)
    ensures !Descending(field) ==> term[0] == SortTerm(field, Asc)
  {
    if Descending(field) then [SortTerm(field[1..], Desc)] else [SortTerm(field, Asc)]
  }

  /** The sort coercion keeps the order of the sort keys, one order entry per key. */
  function Ordering(sort: seq<string>): (order: seq<seq<SortTerm>>)
    ensures |order| == |sort|
    ensures forall i :: 0 <= i < |sort| ==> order[i] == OrderOf(sort[i])
  {
    seq(|sort|, i requires 0 <= i < |sort| => OrderOf(sort[i]))
  }

  /**
    The legal sort keys and the sort coercion agree: for an attribute that does
    not itself start with `-`, its key orders ascending and its `-` key descending
    on that very attribute.
   */
  lemma {:induction false} SortKeysOrderAttributes(attributes: seq<string>, i: nat)
    requires i < |attributes| && !Descending(attributes[i])
    ensures Ordering(SortKeys(attributes))[2 * i] == [SortTerm(attributes[i], Asc)]
    ensures Ordering(SortKeys(attributes))[2 * i + 1] == [SortTerm(attributes[i], Desc)]
  {
    var keys := SortKeys(attributes);
    var minus := "-" + attributes[i];
    assert keys[2 * i + 1] == minus;
    assert Descending(minus);
    assert minus[1..] == attributes[i];
  }

  /** The required expansions as the options builder sees them (after `q` is rewritten). */
  function ListIncludes(req: Request<ListQuery>, model: SequelizeModel, route: ListRoute): seq<Option<Association>>
    reads route.expand
    requires route.expand.Processed()
  {
    var after := AfterWhere(req, route);
    Includes(route.expand.RequiredExpansions(after, model), after.query.expand, model)
  }

  /** The options the handler computes before the route's `options` are assigned over them. */
  function ComputedListOptions(req: Request<ListQuery>, model: SequelizeModel, route: ListRoute): (c: Options)
    reads route.expand
    requires route.expand.Processed()
    ensures c.Keys <= {"offset", "where", "order", "limit", "include"}
    ensures "offset" in c && c["offset"] == OInt(req.query.start)
    ensures var where := Criteria(route.where(req), route.query, req.query.q);
      && ("where" in c <==> where.Some?)
      && (where.Some? ==> c["where"] == OWhere(where.value))
    ensures "order" in c <==> |req.query.sort| > 0
    ensures |req.query.sort| > 0 ==> c["order"] == OOrder(Ordering(req.query.sort))
    ensures "limit" in c <==> req.query.limit > 0
    ensures req.query.limit > 0 ==> c["limit"] == OInt(req.query.limit)
    ensures var includes := ListIncludes(req, model, route);
      && ("include" in c <==> |includes| > 0)
      && (|includes| > 0 ==> c["include"] == OInclude(includes))
  {
    var opts := map["offset" := OInt(req.query.start)];
    var where := Criteria(route.where(req), route.query, req.query.q);
    var opts := if where.Some? then opts["where" := OWhere(where.value)] else opts;
    var order := Ordering(req.query.sort);
    var opts := if |order| > 0 then opts["order" := OOrder(order)] else opts;
    var opts := if req.query.limit > 0 then opts["limit" := OInt(req.query.limit)] else opts;
    var includes := ListIncludes(req, model, route);
    if |includes| > 0 then opts["include" := OInclude(includes)] else opts
  }

  /**
    The findAndCountAll options: `offset` always, `where`, `order`, `limit` and
    `include` only when non-null, non-empty or positive, and every key of the
    route's `options` overriding the computed one.
   */
  function ListOptions(req: Request<ListQuery>, model: SequelizeModel, route: ListRoute): (r: Options)
    reads route.expand
    requires route.expand.Processed()
    ensures forall k :: k in route.options ==> k in r && r[k] == route.options[k]
    ensures forall k :: k in r && k !in route.options ==>
      k in ComputedListOptions(req, model, route) && r[k] == ComputedListOptions(req, model, route)[k]
    ensures forall k :: k in r ==> k in route.options || k in {"offset", "where", "order", "limit", "include"}
    ensures "offset" in r && ("offset" !in route.options ==> r["offset"] == OInt(req.query.start))
    ensures "where" in r <==> Criteria(route.where(req), route.query, req.query.q).Some? || "where" in route.options
    ensures "order" in r <==> |req.query.sort| > 0 || "order" in route.options
    ensures "limit" in r <==> req.query.limit > 0 || "limit" in route.options
    ensures "include" in r <==> |ListIncludes(req, model, route)| > 0 || "include" in route.options
  {
    ComputedListOptions(req, model, route) + route.options
  }

  /** internals.queryOptions: fills the options object key by key, rewriting `req.query.q` on the way. */
  method BuildListOptions(req: HttpRequest, model: SequelizeModel, route: ListRoute) returns (opts: Options)
    requires route.expand.Processed()
    modifies req
    ensures opts == ListOptions(old(req.Snapshot()), model, route)
    ensures req.Snapshot() == AfterWhere(old(req.Snapshot()), route)
  {
    opts := map["offset" := OInt(req.query.start)];
    var where := ApplyWhere(req, route);
    if where.Some? {
      opts := opts["where" := OWhere(where.value)];
    }
    var order := Ordering(req.query.sort);
    if |order| > 0 {
      opts := opts["order" := OOrder(order)];
    }
    if req.query.limit > 0 {
      opts := opts["limit" := OInt(req.query.limit)];
    }
    var includes := Includes(route.expand.RequiredExpansions(req.Snapshot(), model), req.query.expand, model);
    if |includes| > 0 {
      opts := opts["include" := OInclude(includes)];
    }
    opts := opts + route.options;
  }

  // ---------------------------------------------------------------------------
  // The handler

  /** The call the handler makes: ScopedModel.findAndCountAll(options, routeOptions.queryOptions). */
  datatype FindAndCountAll = FindAndCountAll(scoping: Scoping, options: Options, queryOptions: Options)

  /** What the handler passes to `reply` (via nodeify). */
  datatype ListReply = Listed(collection: Collection) | ListFailed(error: Error)

  /**
    The handler: scope, options, preQuery, findAndCountAll (whose outcome `rows`,
    the rows and the count, is a parameter), the collection, postQuery and the
    reply. The first failure is the reply.
   */
  method HandleList(route: ListRoute, model: SequelizeModel, req: HttpRequest, rows: Result<(seq<Value>, int), Error>)
    returns (call: Option<FindAndCountAll>, reply: ListReply)
    requires route.expand.Processed()
    modifies req
    ensures req.Snapshot() == AfterWhere(old(req.Snapshot()), route)
    ensures var before := old(req.Snapshot());
      var after := AfterWhere(before, route);
      var pre := route.preQuery(after, ListOptions(before, model, route));
      && (call.Some? <==> pre.Ok?)
      && (call.Some? ==> call.value == FindAndCountAll(Resolve(route.scope, before), pre.value, route.queryOptions))
      && (pre.Err? ==> reply == ListFailed(pre.error))
      && (pre.Ok? && rows.Err? ==> reply == ListFailed(rows.error))
      && (pre.Ok? && rows.Ok? ==>
            var post := route.postQuery(after, Collection(rows.value.0, before.query.start, rows.value.1));
            reply == if post.Ok? then Listed(post.value) else ListFailed(post.error))
  {
    var scoping := Resolve(route.scope, req.Snapshot());
    var start := req.query.start;
    var opts := BuildListOptions(req, model, route);
    var pre := route.preQuery(req.Snapshot(), opts);
    if pre.Err? {
      call, reply := None, ListFailed(pre.error);
      return;
    }
    call := Some(FindAndCountAll(scoping, pre.value, route.queryOptions));
    if rows.Err? {
      reply := ListFailed(rows.error);
      return;
    }
    var collection := Collection(rows.value.0, start, rows.value.1);
    var post := route.postQuery(req.Snapshot(), collection);
    reply := if post.Ok? then Listed(post.value) else ListFailed(post.error);
  }
}
