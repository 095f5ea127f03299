/**
  The find-one route handler of lib/lookup-handler.js: the request-query schema
  (only `expand`), the find options, and the handler's 404 and reply logic.
 */
module LookupHandler {
  import opened Shared
  import opened Scopes
  import opened Expansions

  /** The validated request query of a lookup route: only `expand`. */
  datatype LookupQuery = LookupQuery(expand: seq<string>)

  /** A row found by Model.find. */
  datatype Instance = Instance(values: map<string, Value>)

  /** The validated route options of a lookup route. */
  datatype LookupRoute = LookupRoute(
    model: string,
    where: Request<LookupQuery> -> Option<Where>,
    expand: ExpandOptions<LookupQuery>,
    preLookup: (Request<LookupQuery>, Options) -> Result<Options, Error>,
    postLookup: (Request<LookupQuery>, Instance) -> Result<bool, Error>,
    scope: Option<ScopeSetting<LookupQuery>>,
    options: Options)

  /** The default where builder of a lookup route: the URL parameters, even when there are none. */
  function DefaultWhere(req: Request<LookupQuery>): (w: Option<Where>)
    ensures w.Some? && w.value.Fields? && w.value.criteria == req.params
  {
    Some(Fields(req.params))
  }

  /** Unlike the list and remove handlers, an empty parameter map still yields criteria. */
  lemma DefaultWhereDiffersOnEmptyParams(req: Request<LookupQuery>)
    requires req.params == map[]
    ensures DefaultWhere(req) == Some(Fields(map[]))
    ensures ParamsOrNull(req) == None
  {
  }

  /** routeQuerySchema: only `expand`, limited to the allowed expansions. */
  function RouteQuerySchema(model: SequelizeModel, route: LookupRoute): (allowed: seq<string>)
    ensures forall a :: a in allowed <==>
      (if route.expand.valid.Some? then a in route.expand.valid.value else a in model.associationNames)
      && !(route.expand.invalid.Some? && a in route.expand.invalid.value)
  {
    AllowedExpansions(route.expand.valid, route.expand.invalid, model)
  }

  /** Validation of the request query: a missing `expand` becomes [], each item must be allowed. */
  function ValidateQuery(allowed: seq<string>, expand: Option<seq<string>>): (r: Result<LookupQuery, QueryError>)
    ensures r.Ok? <==> expand.None? || forall i :: 0 <= i < |expand.value| ==> expand.value[i] in allowed
    ensures r.Ok? ==> r.value.expand == expand.GetOr([])
  {
    match ValidateList("expand", expand, allowed)
    case Ok(items) => Ok(LookupQuery(items))
    case Err(e) => Err(e)
  }

  /** getIncludes for a lookup: the required expansions, then the requested ones. */
  function LookupIncludes(req: Request<LookupQuery>, model: SequelizeModel, route: LookupRoute): seq<Option<Association>>
    reads route.expand
    requires route.expand.Processed()
  {
    Includes(route.expand.RequiredExpansions(req, model), req.query.expand, model)
  }

  /**
    The find options: `where` is always present, null included; `include` only
    when non-empty; every key of the route's `options` overrides.
   */
  function LookupOptions(req: Request<LookupQuery>, model: SequelizeModel, route: LookupRoute): (r: Options)
    reads route.expand
    requires route.expand.Processed()
    ensures forall k :: k in route.options ==> k in r && r[k] == route.options[k]
    ensures forall k :: k in r ==> k in route.options || k == "where" || k == "include"
    ensures "where" in r
    ensures "where" !in route.options ==>
      r["where"] == (var w := route.where(req); if w.Some? then OWhere(w.value) else ONull)
    ensures "include" in r <==> |LookupIncludes(req, model, route)| > 0 || "include" in route.options
    ensures "include" !in route.options && |LookupIncludes(req, model, route)| > 0 ==>
      r["include"] == OInclude(LookupIncludes(req, model, route))
  {
    var w := route.where(req);
    var opts := map["where" := if w.Some? then OWhere(w.value) else ONull];
    var includes := LookupIncludes(req, model, route);
    var opts := if |includes| > 0 then opts["include" := OInclude(includes)] else opts;
    opts + route.options
  }

  /** internals.queryOptions: `where` first, `include` added only when there is something to include. */
  method BuildLookupOptions(req: Request<LookupQuery>, model: SequelizeModel, route: LookupRoute) returns (opts: Options)
    requires route.expand.Processed()
    ensures opts == LookupOptions(req, model, route)
  {
    var w := route.where(req);
    opts := map["where" := if w.Some? then OWhere(w.value) else ONull];
    var includes := Includes(route.expand.RequiredExpansions(req, model), req.query.expand, model);
    if |includes| > 0 {
      opts := opts["include" := OInclude(includes)];
    }
    opts := opts + route.options;
  }

  /** The call the handler makes: ScopedModel.find(options). */
  datatype FindCall = FindCall(scoping: Scoping, options: Options)

  /**
    What reaches `reply`: the instance, an error (404 for a missing row), or
    nothing from the handler because postLookup has already responded.
   */
  datatype LookupReply = Found(instance: Instance) | LookupFailed(error: Error) | RepliedByHook

  /**
    The handler: scope, options, preLookup, find (whose outcome `found` is a
    parameter), 404 for a missing row, postLookup, then the instance unless
    postLookup has already set the response.
   */
  method HandleLookup(route: LookupRoute, model: SequelizeModel, req: Request<LookupQuery>, found: Result<Option<Instance>, Error>)
    returns (call: Option<FindCall>, reply: LookupReply)
    requires route.expand.Processed()
    ensures var pre := route.preLookup(req, LookupOptions(req, model, route));
      && (call.Some? <==> pre.Ok?)
      && (call.Some? ==> call.value == FindCall(Resolve(route.scope, req), pre.value))
      && (pre.Err? ==> reply == LookupFailed(pre.error))
      && (pre.Ok? && found.Err? ==> reply == LookupFailed(found.error))
    ensures call.Some? && found.Ok? && found.value.None? ==> reply == LookupFailed(NotFound)
    ensures reply.Found? <==>
      call.Some? && found.Ok? && found.value.Some?
      && route.postLookup(req, found.value.value) == Ok(false)
    ensures reply.Found? ==> reply.instance == found.value.value
    ensures call.Some? && found.Ok? && found.value.Some? && route.postLookup(req, found.value.value).Err? ==>
      reply == LookupFailed(route.postLookup(req, found.value.value).error)
    ensures reply.RepliedByHook? <==>
      call.Some? && found.Ok? && found.value.Some?
      && route.postLookup(req, found.value.value) == Ok(true)
  {
    var scoping := Resolve(route.scope, req);
    var opts := BuildLookupOptions(req, model, route);
    var pre := route.preLookup(req, opts);
    if pre.Err? {
      call, reply := None, LookupFailed(pre.error);
      return;
    }
    call := Some(FindCall(scoping, pre.value));
    if found.Err? {
      reply := LookupFailed(found.error);
      return;
    }
    if found.value.None? {
      reply := LookupFailed(NotFound);
      return;
    }
    var instance := found.value.value;
    var post := route.postLookup(req, instance);
    if post.Err? {
      reply := LookupFailed(post.error);
    } else if post.value {
      reply := RepliedByHook;
    } else {
      reply := Found(instance);
    }
  }
}
