/**
  Values shared by the three route handlers and the history plugin: JavaScript
  values as they reach the handlers, the Sequelize model description, the where
  clauses the handlers build, and the option objects they hand to Sequelize.
 */
module Shared {

  datatype Option<T> = None | Some(value: T) {
    function GetOr(default: T): T {
      if Some? then value else default
    }
  }

  datatype Result<T, E> = Ok(value: T) | Err(error: E)

  /** A JavaScript value as found in route parameters, option objects and row data. */
  datatype Value =
    | Null
    | Bool(b: bool)
    | Int(i: int)
    | Str(s: string)
    | Date(millis: int)
    | List(items: seq<Value>)
    | Obj(fields: map<string, Value>)

  /** Sequelize data types: INTEGER, STRING, DATE, ARRAY(t) and any other by name. */
  datatype DataType = Integer | Text | Timestamp | ArrayOf(element: DataType) | OtherType(name: string)

  /** An attribute definition object: its `type` (dataType) and its remaining properties. */
  datatype Column = Column(dataType: DataType, props: map<string, Value>)

  datatype Association = Association(alias: string, target: string)

  /**
    A Sequelize model: `attributes` lists Object.keys(Model.attributes) in order,
    `columns` holds the definition of each, and the associations are listed by name
    (Object.keys(Model.associations)) beside the map from name to association.
   */
  datatype SequelizeModel = SequelizeModel(
    name: string,
    tableName: string,
    attributes: seq<string>,
    columns: map<string, Column>,
    associationNames: seq<string>,
    associations: map<string, Association>)
  {
    /** `Model.associations[name]`: undefined (None) when there is no such association. */
    function AssociationOf(name: string): Option<Association> {
      if name in associations then Some(associations[name]) else None
    }
  }

  /** Where clauses: a plain criteria object, `{ field: { ilike: p } }`, Sequelize.or and Sequelize.and. */
  datatype Where =
    | Fields(criteria: map<string, Value>)
    | ILike(field: string, pattern: string)
    | Or(clauses: seq<Where>)
    | And(left: Where, right: Where)

  datatype Direction = Asc | Desc

  /** One `[field, 'ASC' | 'DESC']` pair of a Sequelize order. */
  datatype SortTerm = SortTerm(field: string, direction: Direction)

  datatype Transaction = Transaction(id: nat)

  /** A value stored under a key of an options object passed to Sequelize. */
  datatype OptValue =
    | ONull
    | OBool(b: bool)
    | OInt(n: int)
    | OWhere(criteria: Where)
    | OOrder(order: seq<seq<SortTerm>>)
    | OInclude(includes: seq<Option<Association>>)
    | OTransaction(transaction: Transaction)
    | OValue(value: Value)

  type Options = map<string, OptValue>

  /** A hapi request as the route callbacks see it: the URL parameters and the validated query. */
  datatype Request<Q> = Request(params: map<string, Value>, query: Q)

  /** Errors a handler passes to `reply`: boom's 404 or any other failure. */
  datatype Error = NotFound | Failure(message: string)

  /**
    The default where builder of the list and remove handlers: the URL parameters
    when there is at least one, null otherwise.
   */
  function ParamsOrNull<Q>(req: Request<Q>): (w: Option<Where>)
    ensures w.Some? <==> |req.params| > 0
    ensures w.Some? ==> w.value == Fields(req.params)
  {
    if |req.params| > 0 then Some(Fields(req.params)) else None
  }
}
