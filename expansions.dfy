/**
  The `expand` machinery shared, line for line, by the list and lookup handlers:
  which expansions a request may ask for, the required expansions a route
  configures, and the include list built from both.
 */
module Expansions {
  import opened Shared

  /** lodash `_.difference(xs, ys)`: the elements of xs not in ys, in xs order, duplicates kept. */
  function Difference(xs: seq<string>, ys: seq<string>): (r: seq<string>)
    ensures |r| <= |xs|
    ensures forall x :: x in r <==> x in xs && x !in ys
  {
    if xs == [] then []
    else if xs[0] in ys then Difference(xs[1..], ys)
    else [xs[0]] + Difference(xs[1..], ys)
  }

  /** Difference keeps a kept element's relative order: it distributes over concatenation. */
  lemma {:induction false} DifferenceAppend(xs: seq<string>, zs: seq<string>, ys: seq<string>)
    ensures Difference(xs + zs, ys) == Difference(xs, ys) + Difference(zs, ys)
  {
    if xs == [] {
      assert xs + zs == zs;
    } else {
      assert (xs + zs)[1..] == xs[1..] + zs;
      DifferenceAppend(xs[1..], zs, ys);
    }
  }

  /**
    The expansions a request may name: `expand.valid` when configured (an empty
    array included), otherwise every association name, minus `expand.invalid`.
   */
  function AllowedExpansions(valid: Option<seq<string>>, invalid: Option<seq<string>>, model: SequelizeModel): (r: seq<string>)
    ensures forall a :: a in r <==>
      (if valid.Some? then a in valid.value else a in model.associationNames)
      && !(invalid.Some? && a in invalid.value)
  {
    Difference(if valid.Some? then valid.value else model.associationNames, invalid.GetOr([]))
  }

  /** A request query parameter that failed validation: the key and the offending item. */
  datatype QueryError = NotAllowed(key: string) | InvalidItem(key: string, index: nat)

  /** Index of the first element of xs that is not in allowed. */
  function FirstOutside(xs: seq<string>, allowed: seq<string>): (r: Option<nat>)
    ensures r.None? <==> forall i :: 0 <= i < |xs| ==> xs[i] in allowed
    ensures r.Some? ==> (r.value < |xs| && xs[r.value] !in allowed
      && forall i :: 0 <= i < r.value ==> xs[i] in allowed)
  {
    if xs == [] then None
    else if xs[0] !in allowed then Some(0)
    else match FirstOutside(xs[1..], allowed)
      case None => None
      case Some(i) => Some(i + 1)
  }

  /**
    `joi.array().single().items(joi.string().valid(allowed)).default([])`: a missing
    list becomes [], and every item must be one of the allowed names.
   */
  function ValidateList(key: string, given: Option<seq<string>>, allowed: seq<string>): (r: Result<seq<string>, QueryError>)
    ensures r.Ok? <==> given.None? || forall i :: 0 <= i < |given.value| ==> given.value[i] in allowed
    ensures r.Ok? ==> r.value == given.GetOr([])
    ensures r.Err? ==> (r.error.InvalidItem? && r.error.key == key
      && r.error.index < |given.value| && given.value[r.error.index] !in allowed
      && forall i :: 0 <= i < r.error.index ==> given.value[i] in allowed)
  {
    if given.None? then Ok([])
    else match FirstOutside(given.value, allowed)
      case None => Ok(given.value)
      case Some(i) => Err(InvalidItem(key, i))
  }

  /** `names.map(a => Model.associations[a])`. */
  function AssociationsOf(names: seq<string>, model: SequelizeModel): (r: seq<Option<Association>>)
    ensures |r| == |names|
    ensures forall i :: 0 <= i < |names| ==> r[i] == model.AssociationOf(names[i])
  {
    seq(|names|, i requires 0 <= i < |names| => model.AssociationOf(names[i]))
  }

  /**
    The `expand.required` route option: an array of association names as
    configured, the constant function processValidatedOptions makes of such an
    array, or a function of the request and the model.
   */
  datatype Required<!Q> =
    | RequiredNames(names: seq<string>)
    | RequiredFixed(associations: seq<Option<Association>>)
    | RequiredFn(compute: (Request<Q>, SequelizeModel) -> seq<Option<Association>>)

  /** The validated `expand` route option, whose `required` processValidatedOptions overwrites. */
  class ExpandOptions<Q> {
    var required: Required<Q>
    const valid: Option<seq<string>>
    const invalid: Option<seq<string>>

    constructor (required: Required<Q>, valid: Option<seq<string>>, invalid: Option<seq<string>>)
      ensures this.required == required && this.valid == valid && this.invalid == invalid
    {
      this.required := required;
      this.valid := valid;
      this.invalid := invalid;
    }

    /** After processValidatedOptions `required` is always callable. */
    predicate Processed()
      reads this
    {
      !required.RequiredNames?
    }

    /**
      processValidatedOptions: an array of association names is replaced by a
      constant function returning those associations looked up on the model; a
      function is left untouched.
     */
    method ProcessValidatedOptions(model: SequelizeModel)
      modifies this
      ensures Processed()
      ensures old(required).RequiredNames? ==>
        required == RequiredFixed(AssociationsOf(old(required).names, model))
      ensures !old(required).RequiredNames? ==> unchanged(this)
    {
      if required.RequiredNames? {
        var looked := AssociationsOf(required.names, model);
        required := RequiredFixed(looked);
      }
    }

    /** `options.expand.required(req, Model)`. */
    function RequiredExpansions(req: Request<Q>, model: SequelizeModel): (r: seq<Option<Association>>)
      reads this
      requires Processed()
      ensures required.RequiredFixed? ==> r == required.associations
    {
      match required
      case RequiredFixed(assocs) => assocs
      case RequiredFn(f) => f(req, model)
    }
  }

  /**
    getIncludes: the required expansions first, then each requested expansion
    looked up on the model, in request order.
   */
  function Includes(required: seq<Option<Association>>, requested: seq<string>, model: SequelizeModel): (r: seq<Option<Association>>)
    ensures |r| == |required| + |requested|
    ensures r[..|required|] == required
    ensures forall i :: 0 <= i < |requested| ==> r[|required| + i] == model.AssociationOf(requested[i])
  {
    required + AssociationsOf(requested, model)
  }
}
