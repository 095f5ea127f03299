/**
  The delete route handler of lib/remove-handler.js: the route-configuration
  rules, the destroy options, and the handler that stamps the transaction and
  replies with no value.
 */
module RemoveHandler {
  import opened Shared
  import opened Scopes

  /** A delete request: the URL parameters and the raw query. */
  type RemoveRequest = Request<map<string, Value>>

  /** A hook run on the destroy options; Ok carries the options after its side effects. */
  type PreRemove = (RemoveRequest, Options) -> Result<Options, Error>

  /** A hook run on the destroy result; Some is the error it fails with. */
  type PostRemove = (RemoveRequest, Value) -> Option<Error>

  /** A key of the route configuration: absent, given with an accepted kind of value, or given with another value. */
  datatype Field<T> = Absent | Given(value: T) | Mistyped(other: Value)

  /** The handler's configuration object as written in the route. */
  datatype RemoveConfig = RemoveConfig(
    model: Option<Value>,
    where: Field<RemoveRequest -> Option<Where>>,
    options: Field<Options>,
    preRemove: Field<PreRemove>,
    postRemove: Field<PostRemove>,
    scope: Field<ScopeSetting<map<string, Value>>>,
    unknownKeys: seq<string>)

  /** Why a route configuration is refused; the route then fails to register. */
  datatype ConfigError =
    | Required(key: string)
    | MustBeString(key: string)
    | EmptyString(key: string)
    | NotOneOf(key: string, allowed: seq<string>)
    | MustBeFunction(key: string)
    | MustBeObject(key: string)
    | NoAlternativeMatches(key: string)
    | NotAllowedKey(key: string)

  /** The validated route options. */
  datatype RemoveRoute = RemoveRoute(
    model: string,
    where: RemoveRequest -> Option<Where>,
    options: Options,
    preRemove: PreRemove,
    postRemove: PostRemove,
    scope: Option<ScopeSetting<map<string, Value>>>)

  /** The `model` key: required, a string, not empty, one of the registered model names. */
  function ModelError(model: Option<Value>, models: seq<string>): (e: Option<ConfigError>)
    ensures e.None? <==> model.Some? && model.value.Str? && model.value.s in models
  {
    match model
    case None => Some(Required("model"))
    case Some(Str(s)) =>
      if s in models then None
      else if s == "" then Some(EmptyString("model"))
      else Some(NotOneOf("model", models))
    case Some(_) => Some(MustBeString("model"))
  }

  /** The `scope` key: a non-empty string, an array of non-empty strings, a function or null. */
  predicate ScopeAccepted(scope: Field<ScopeSetting<map<string, Value>>>) {
    match scope
    case Absent => true
    case Mistyped(_) => false
    case Given(Computed(_)) => true
    case Given(Fixed(v)) =>
      match v
      case Name(n) => n != ""
      case Names(ns) => forall i :: 0 <= i < |ns| ==> ns[i] != ""
      case _ => true
  }

  /**
    optionsSchema: keys checked in schema order (model, where, options,
    preRemove, postRemove, scope), then unknown keys; absent keys take their
    defaults.
   */
  function Validate(config: RemoveConfig, models: seq<string>): (r: Result<RemoveRoute, ConfigError>)
    ensures r.Ok? <==>
      ModelError(config.model, models).None?
      && !config.where.Mistyped? && !config.options.Mistyped?
      && !config.preRemove.Mistyped? && !config.postRemove.Mistyped?
      && ScopeAccepted(config.scope) && config.unknownKeys == []
    ensures ModelError(config.model, models).Some? ==> r.Err? && r.error == ModelError(config.model, models).value
    ensures ModelError(config.model, models).None? && config.where.Mistyped? ==>
      r.Err? && r.error == MustBeFunction("where")
    ensures r.Ok? ==> r.value.model == config.model.value.s
    ensures r.Ok? ==> r.value.options == (if config.options.Given? then config.options.value else map[])
    ensures r.Ok? ==> (r.value.scope.Some? <==> config.scope.Given?)
    ensures r.Ok? && config.scope.Given? ==> r.value.scope == Some(config.scope.value)
    ensures r.Ok? && config.where.Given? ==> r.value.where == config.where.value
    ensures r.Ok? && config.where.Absent? ==> forall req :: r.value.where(req) == ParamsOrNull(req)
    ensures r.Ok? && config.preRemove.Given? ==> r.value.preRemove == config.preRemove.value
    ensures r.Ok? && config.preRemove.Absent? ==> forall req, opts :: r.value.preRemove(req, opts) == Ok(opts)
    ensures r.Ok? && config.postRemove.Given? ==> r.value.postRemove == config.postRemove.value
    ensures r.Ok? && config.postRemove.Absent? ==> forall req, v :: r.value.postRemove(req, v) == None
    ensures (ModelError(config.model, models).None? && !config.where.Mistyped? && config.options.Mistyped?) ==>
      r.Err? && r.error == MustBeObject("options")
    ensures (ModelError(config.model, models).None? && !config.where.Mistyped? && !config.options.Mistyped?
      && config.preRemove.Mistyped?) ==> r.Err? && r.error == MustBeFunction("preRemove")
    ensures (ModelError(config.model, models).None? && !config.where.Mistyped? && !config.options.Mistyped?
      && !config.preRemove.Mistyped? && config.postRemove.Mistyped?) ==> r.Err? && r.error == MustBeFunction("postRemove")
    ensures (ModelError(config.model, models).None? && !config.where.Mistyped? && !config.options.Mistyped?
      && !config.preRemove.Mistyped? && !config.postRemove.Mistyped? && !ScopeAccepted(config.scope)) ==>
      r.Err? && r.error == NoAlternativeMatches("scope")
    ensures (ModelError(config.model, models).None? && !config.where.Mistyped? && !config.options.Mistyped?
      && !config.preRemove.Mistyped? && !config.postRemove.Mistyped? && ScopeAccepted(config.scope)
      && config.unknownKeys != []) ==> r.Err? && r.error == NotAllowedKey(config.unknownKeys[0])
  {
    if ModelError(config.model, models).Some? then Err(ModelError(config.model, models).value)
    else if config.where.Mistyped? then Err(MustBeFunction("where"))
    else if config.options.Mistyped? then Err(MustBeObject("options"))
    else if config.preRemove.Mistyped? then Err(MustBeFunction("preRemove"))
    else if config.postRemove.Mistyped? then Err(MustBeFunction("postRemove"))
    else if !ScopeAccepted(config.scope) then Err(NoAlternativeMatches("scope"))
    else if config.unknownKeys != [] then Err(NotAllowedKey(config.unknownKeys[0]))
    else
      Ok(RemoveRoute(
        config.model.value.s,
        if config.where.Given? then config.where.value else ParamsOrNull,
        if config.options.Given? then config.options.value else map[],
        if config.preRemove.Given? then config.preRemove.value else (req: RemoveRequest, opts: Options) => Ok(opts),
        if config.postRemove.Given? then config.postRemove.value else (req: RemoveRequest, result: Value) => None,
        if config.scope.Given? then Some(config.scope.value) else None))
  }

  /** A configuration with only the given model name. */
  function ModelOnly(model: Option<Value>): RemoveConfig {
    RemoveConfig(model, Absent, Absent, Absent, Absent, Absent, [])
  }

  /** The registration cases of the remove handler's tests, with `Foo` the only model. */
  lemma RegistrationCases()
    ensures var r := Validate(ModelOnly(None), ["Foo"]); r.Err? && r.error == Required("model")
    ensures Validate(ModelOnly(Some(Str("Foo"))), ["Foo"]).Ok?
    ensures var r := Validate(ModelOnly(Some(Str("Bar"))), ["Foo"]); r.Err? && r.error == NotOneOf("model", ["Foo"])
    ensures var r := Validate(ModelOnly(Some(Str("Foo"))).(where := Mistyped(Obj(map["foo" := Str("bar")]))), ["Foo"]);
      r.Err? && r.error == MustBeFunction("where")
    ensures var r := Validate(ModelOnly(Some(Str("Foo"))).(preRemove := Mistyped(Str("bar"))), ["Foo"]);
      r.Err? && r.error == MustBeFunction("preRemove")
    ensures var r := Validate(ModelOnly(Some(Str("Foo"))).(postRemove := Mistyped(Str("bar"))), ["Foo"]);
      r.Err? && r.error == MustBeFunction("postRemove")
    ensures Validate(ModelOnly(Some(Str("Foo"))).(scope := Given(Fixed(NullScope))), ["Foo"]).Ok?
    ensures Validate(ModelOnly(Some(Str("Foo"))).(scope := Given(Fixed(Names(["scope_one", "scope_two"])))), ["Foo"]).Ok?
  {
  }

  /**
    The destroy options: `individualHooks: true` by default, `where` only when the
    where function yields criteria, and every key of the route's `options`
    overriding.
   */
  function DeleteOptions(req: RemoveRequest, route: RemoveRoute): (r: Options)
    ensures forall k :: k in route.options ==> k in r && r[k] == route.options[k]
    ensures forall k :: k in r ==> k in route.options || k == "individualHooks" || k == "where"
    ensures "individualHooks" in r
    ensures "individualHooks" !in route.options ==> r["individualHooks"] == OBool(true)
    ensures "where" in r <==> route.where(req).Some? || "where" in route.options
    ensures "where" !in route.options && route.where(req).Some? ==> r["where"] == OWhere(route.where(req).value)
  {
    var opts := map["individualHooks" := OBool(true)];
    var where := route.where(req);
    var opts := if where.Some? then opts["where" := OWhere(where.value)] else opts;
    opts + route.options
  }

  /** constructDeleteOptions: the object built key by key, then the route's options assigned over it. */
  method ConstructDeleteOptions(req: RemoveRequest, route: RemoveRoute) returns (opts: Options)
    ensures opts == DeleteOptions(req, route)
  {
    opts := map["individualHooks" := OBool(true)];
    var where := route.where(req);
    if where.Some? {
      opts := opts["where" := OWhere(where.value)];
    }
    opts := opts + route.options;
  }

  /**
    The options destroy receives: the delete options after preRemove, with the
    request's transaction stamped last, so neither the route's options nor
    preRemove can replace it.
   */
  function DestroyOptions(req: RemoveRequest, route: RemoveRoute, t: Transaction): (r: Result<Options, Error>)
    ensures var pre := route.preRemove(req, DeleteOptions(req, route));
      && (r.Ok? <==> pre.Ok?)
      && (r.Err? ==> r.error == pre.error)
      && (r.Ok? ==> r.value.Keys == pre.value.Keys + {"transaction"})
      && (r.Ok? ==> forall k :: k in pre.value && k != "transaction" ==> r.value[k] == pre.value[k])
    ensures r.Ok? ==> "transaction" in r.value && r.value["transaction"] == OTransaction(t)
  {
    match route.preRemove(req, DeleteOptions(req, route))
    case Ok(opts) => Ok(opts["transaction" := OTransaction(t)])
    case Err(e) => Err(e)
  }

  /** The route the handler's tests register: model `Foo` with every other key absent. */
  function FooRoute(options: Field<Options>): RemoveRoute
    requires !options.Mistyped?
  {
    Validate(ModelOnly(Some(Str("Foo"))).(options := options), ["Foo"]).value
  }

  /** The defaults the `Foo` route takes: URL parameters as criteria and a preRemove that changes nothing. */
  lemma FooRouteDefaults(options: Field<Options>, req: RemoveRequest, opts: Options)
    requires !options.Mistyped?
    ensures FooRoute(options).options == (if options.Given? then options.value else map[])
    ensures FooRoute(options).where(req) == ParamsOrNull(req)
    ensures FooRoute(options).preRemove(req, opts) == Ok(opts)
  {
  }

  /** Test "should delete the model when no other options are given": no URL parameters, no where. */
  lemma DestroyOptionsWithoutParams(t: Transaction)
    ensures DestroyOptions(Request(map[], map[]), FooRoute(Absent), t)
      == Ok(map["individualHooks" := OBool(true), "transaction" := OTransaction(t)])
  {
    var none: map<string, Value> := map[];
    var req := Request(none, none);
    assert |none| == 0;
    var opts := map["individualHooks" := OBool(true)];
    FooRouteDefaults(Absent, req, opts);
    assert DeleteOptions(req, FooRoute(Absent)) == opts;
  }

  /** Test "should use URL parameters": `/{bar}/foo` requested as `/baz/foo` gives `where: {bar: 'baz'}`. */
  lemma DestroyOptionsWithParams(t: Transaction)
    ensures var params := map["bar" := Str("baz")];
      DestroyOptions(Request(params, map[]), FooRoute(Absent), t)
        == Ok(map["individualHooks" := OBool(true), "where" := OWhere(Fields(params)), "transaction" := OTransaction(t)])
  {
    var params := map["bar" := Str("baz")];
    assert |params| == 1;
    var req: RemoveRequest := Request(params, map[]);
    var expected := map["individualHooks" := OBool(true), "where" := OWhere(Fields(params))];
    FooRouteDefaults(Absent, req, expected);
    assert DeleteOptions(req, FooRoute(Absent)) == expected;
  }

  /** Test "should apply sequelize options": the route's `individualHooks: false` wins over the default. */
  lemma DestroyOptionsHooksOverridden(t: Transaction)
    ensures var params := map["bar" := Str("baz")];
      DestroyOptions(Request(params, map[]), FooRoute(Given(map["individualHooks" := OBool(false)])), t)
        == Ok(map["individualHooks" := OBool(false), "where" := OWhere(Fields(params)), "transaction" := OTransaction(t)])
  {
    var params := map["bar" := Str("baz")];
    assert |params| == 1;
    var options: Field<Options> := Given(map["individualHooks" := OBool(false)]);
    var req: RemoveRequest := Request(params, map[]);
    var expected := map["individualHooks" := OBool(false), "where" := OWhere(Fields(params))];
    FooRouteDefaults(options, req, expected);
    assert DeleteOptions(req, FooRoute(options)) == expected;
  }

  /** The call the handler makes: ScopedModel.destroy(options). */
  datatype DestroyCall = DestroyCall(scoping: Scoping, options: Options)

  /** What reaches `reply`: nothing on success, or the error. */
  datatype RemoveReply = Removed | RemoveFailed(error: Error)

  /**
    The handler, inside the request's transaction `t`: scope, delete options,
    preRemove, the transaction stamp, destroy (whose outcome `destroyed` is a
    parameter), postRemove, and a reply with no value; any failure is replied.
   */
  method HandleRemove(route: RemoveRoute, req: RemoveRequest, t: Transaction, destroyed: Result<Value, Error>)
    returns (call: Option<DestroyCall>, reply: RemoveReply)
    ensures var opts := DestroyOptions(req, route, t);
      && (call.Some? <==> opts.Ok?)
      && (call.Some? ==> call.value == DestroyCall(Resolve(route.scope, req), opts.value))
      && (opts.Err? ==> reply == RemoveFailed(opts.error))
    ensures call.Some? ==> "transaction" in call.value.options && call.value.options["transaction"] == OTransaction(t)
    ensures call.Some? && destroyed.Err? ==> reply == RemoveFailed(destroyed.error)
    ensures reply == Removed <==> call.Some? && destroyed.Ok? && route.postRemove(req, destroyed.value).None?
    ensures call.Some? && destroyed.Ok? && route.postRemove(req, destroyed.value).Some? ==>
      reply == RemoveFailed(route.postRemove(req, destroyed.value).value)
  {
    var scoping := Resolve(route.scope, req);
    var opts := ConstructDeleteOptions(req, route);
    var pre := route.preRemove(req, opts);
    if pre.Err? {
      call, reply := None, RemoveFailed(pre.error);
      return;
    }
    opts := pre.value;
    opts := opts["transaction" := OTransaction(t)];
    call := Some(DestroyCall(scoping, opts));
    if destroyed.Err? {
      reply := RemoveFailed(destroyed.error);
      return;
    }
    var post := route.postRemove(req, destroyed.value);
    reply := if post.Some? then RemoveFailed(post.value) else Removed;
  }
}
