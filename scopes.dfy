/**
  Scope normalisation, identical in the list, lookup and remove handlers: a
  function scope is called with the request, a string or array is forced into an
  array, null and undefined pass through, and Model.scope is called only when the
  route options own a `scope` key.
 */
module Scopes {
  import opened Shared

  /** What a scope setting yields: a name, a list of names, null or undefined. */
  datatype ScopeValue = NullScope | UndefinedScope | Name(name: string) | Names(names: seq<string>)

  /** The validated `scope` route option: a string, an array of strings or null, or a function of the request. */
  datatype ScopeSetting<!Q> = Fixed(value: ScopeValue) | Computed(compute: Request<Q> -> ScopeValue)

  /** The argument handed to Model.scope. */
  datatype ScopeArg = NullArg | UndefinedArg | NameList(names: seq<string>)

  /** Whether the handler queries Model itself or Model.scope(arg). */
  datatype Scoping = Unscoped | Scoped(arg: ScopeArg)

  /** `[].concat(scope)` for every value other than null and undefined. */
  function Normalise(v: ScopeValue): (a: ScopeArg)
    ensures a.NullArg? <==> v.NullScope?
    ensures a.UndefinedArg? <==> v.UndefinedScope?
    ensures a.NameList? <==> v.Name? || v.Names?
    ensures v.Name? ==> a.names == [v.name]
    ensures v.Names? ==> a.names == v.names
  {
    match v
    case NullScope => NullArg
    case UndefinedScope => UndefinedArg
    case Name(n) => NameList([n])
    case Names(ns) => NameList(ns)
  }

  /** The setting's value for this request: a function scope is called with the request. */
  function ValueOf<Q>(setting: ScopeSetting<Q>, req: Request<Q>): ScopeValue {
    match setting
    case Fixed(v) => v
    case Computed(f) => f(req)
  }

  /**
    The model the handler queries. `setting` is None when the route options have
    no own `scope` key.
   */
  function Resolve<Q>(setting: Option<ScopeSetting<Q>>, req: Request<Q>): (s: Scoping)
    ensures s.Unscoped? <==> setting.None?
    ensures s.Scoped? ==> s.arg == Normalise(ValueOf(setting.value, req))
  {
    if setting.None? then Unscoped else Scoped(Normalise(ValueOf(setting.value, req)))
  }

  /**
    The cases the remove handler's tests exercise: a name becomes a one-element
    list, an array is passed as it is, null stays null, and no scope key means no
    call to Model.scope.
   */
  lemma ResolveCases<Q>(req: Request<Q>, name: string, names: seq<string>)
    ensures Resolve(Some(Fixed(Name(name))), req) == Scoped(NameList([name]))
    ensures Resolve(Some(Fixed(Names(names))), req) == Scoped(NameList(names))
    ensures Resolve(Some(Fixed(NullScope)), req) == Scoped(NullArg)
    ensures Resolve<Q>(None, req) == Unscoped
  {
  }
}
