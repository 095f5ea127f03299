/**
  The Sequelize history plugin of lib/history-plugin.js: normalisation of the
  plugin's arguments, validation of the history options with their per-model
  defaults, the history model definition (tracked attributes merged under the
  meta columns), the afterUpdate hook that decides whether a change is logged,
  and the history record it writes.
 */
module HistoryPlugin {
  import opened Shared

  /** The validated history options. */
  datatype HistoryOptions = HistoryOptions(track: seq<string>, idAttr: string, modelName: string, tableName: string)

  /**
    module.exports' argument handling: an array becomes `{track: array}`, a plain
    object is kept, and anything else (no argument included) becomes
    `{track: <all the arguments>}`.
   */
  function NormaliseArguments(args: seq<Value>): (raw: map<string, Value>)
    ensures |args| > 0 && args[0].Obj? ==> raw == args[0].fields
    ensures |args| > 0 && args[0].List? ==> raw == map["track" := args[0]]
    ensures (|args| == 0 || !(args[0].Obj? || args[0].List?)) ==> raw == map["track" := List(args)]
  {
    if |args| > 0 && args[0].List? then map["track" := args[0]]
    else if |args| > 0 && args[0].Obj? then args[0].fields
    else map["track" := List(args)]
  }

  /** Why the options were refused: a track item, a name option, or keys the schema does not know. */
  datatype OptionsError =
    | InvalidTrackItem(index: nat)
    | NotAName(key: string)
    | UnknownKeys(keys: set<string>)

  const OptionKeys: set<string> := {"track", "idAttr", "modelName", "tableName"}

  /** `joi.string()`: a string, and not the empty one. */
  predicate IsName(v: Value) {
    v.Str? && v.s != ""
  }

  predicate AllNames(vs: seq<Value>) {
    forall i :: 0 <= i < |vs| ==> IsName(vs[i])
  }

  /** `.single()`: a value that is not an array is validated as a one-item array. */
  function TrackItems(v: Value): (items: seq<Value>)
    ensures v.List? ==> items == v.items
    ensures !v.List? ==> items == [v]
  {
    if v.List? then v.items else [v]
  }

  /** Index of the first item that is not a non-empty string. */
  function FirstNonName(vs: seq<Value>): (r: Option<nat>)
    ensures r.None? <==> AllNames(vs)
    ensures r.Some? ==> (r.value < |vs| && !IsName(vs[r.value])
      && forall i :: 0 <= i < r.value ==> IsName(vs[i]))
  {
    if vs == [] then None
    else if !IsName(vs[0]) then Some(0)
    else match FirstNonName(vs[1..])
      case None => None
      case Some(i) => Some(i + 1)
  }

  function NamesOf(vs: seq<Value>): (names: seq<string>)
    requires AllNames(vs)
    ensures |names| == |vs|
    ensures forall i :: 0 <= i < |vs| ==> Str(names[i]) == vs[i] && names[i] != ""
  {
    seq(|vs|, i requires 0 <= i < |vs| => vs[i].s)
  }

  function Strs(names: seq<string>): (vs: seq<Value>)
    ensures |vs| == |names|
    ensures forall i :: 0 <= i < |names| ==> vs[i] == Str(names[i])
  {
    seq(|names|, i requires 0 <= i < |names| => Str(names[i]))
  }

  predicate TrackValid(raw: map<string, Value>) {
    "track" in raw ==> AllNames(TrackItems(raw["track"]))
  }

  predicate NameValid(raw: map<string, Value>, key: string) {
    key in raw ==> IsName(raw[key])
  }

  /** A name option: its value when given, the default (which joi does not validate) otherwise. */
  function NameOption(raw: map<string, Value>, key: string, default: string): (r: Result<string, OptionsError>)
    ensures r.Ok? <==> NameValid(raw, key)
    ensures r.Ok? ==> r.value == if key in raw then raw[key].s else default
    ensures r.Err? ==> r.error == NotAName(key)
  {
    if key !in raw then Ok(default)
    else if IsName(raw[key]) then Ok(raw[key].s)
    else Err(NotAName(key))
  }

  /**
    optionsSchema(model) with abortEarly validation: the keys in schema order
    (track, idAttr, modelName, tableName), then the unknown keys. The defaults
    are all the model's attributes, 'id', the model name + 'History' and the
    table name + '_history'.
   */
  function ValidateOptions(raw: map<string, Value>, model: SequelizeModel): (r: Result<HistoryOptions, OptionsError>)
    ensures r.Ok? <==> (TrackValid(raw) && NameValid(raw, "idAttr") && NameValid(raw, "modelName")
      && NameValid(raw, "tableName") && raw.Keys <= OptionKeys)
    ensures r.Ok? && "track" !in raw ==> r.value.track == model.attributes
    ensures r.Ok? && "track" in raw ==> r.value.track == NamesOf(TrackItems(raw["track"]))
    ensures r.Ok? ==> r.value.idAttr == if "idAttr" in raw then raw["idAttr"].s else "id"
    ensures r.Ok? ==> r.value.modelName == if "modelName" in raw then raw["modelName"].s else model.name + "History"
    ensures r.Ok? ==> r.value.tableName == if "tableName" in raw then raw["tableName"].s else model.tableName + "_history"
    ensures r.Err? && r.error.InvalidTrackItem? ==> ("track" in raw
      && r.error.index < |TrackItems(raw["track"])| && !IsName(TrackItems(raw["track"])[r.error.index]))
    ensures r.Err? && r.error.UnknownKeys? ==> r.error.keys == raw.Keys - OptionKeys && r.error.keys != {}
  {
    var track: Result<seq<string>, OptionsError> :=
      if "track" !in raw then Ok(model.attributes)
      else match FirstNonName(TrackItems(raw["track"]))
        case Some(i) => Err(InvalidTrackItem(i))
        case None => Ok(NamesOf(TrackItems(raw["track"])));
    var idAttr := NameOption(raw, "idAttr", "id");
    var modelName := NameOption(raw, "modelName", model.name + "History");
    var tableName := NameOption(raw, "tableName", model.tableName + "_history");
    if track.Err? then Err(track.error)
    else if idAttr.Err? then Err(idAttr.error)
    else if modelName.Err? then Err(modelName.error)
    else if tableName.Err? then Err(tableName.error)
    else if !(raw.Keys <= OptionKeys) then Err(UnknownKeys(raw.Keys - OptionKeys))
    else Ok(HistoryOptions(track.value, idAttr.value, modelName.value, tableName.value))
  }

  /** The object joi hands back: exactly the four option keys. */
  function Encode(o: HistoryOptions): (raw: map<string, Value>)
    ensures raw.Keys == OptionKeys
  {
    map["track" := List(Strs(o.track)), "idAttr" := Str(o.idAttr),
        "modelName" := Str(o.modelName), "tableName" := Str(o.tableName)]
  }

  predicate Validatable(o: HistoryOptions) {
    (forall i :: 0 <= i < |o.track| ==> o.track[i] != "")
    && o.idAttr != "" && o.modelName != "" && o.tableName != ""
  }

  /**
    Validated options validate again to themselves, whatever the model: with
    every key present no default applies.
   */
  lemma {:induction false} ValidateEncoded(o: HistoryOptions, model: SequelizeModel)
    requires Validatable(o)
    ensures ValidateOptions(Encode(o), model) == Ok(o)
  {
    var raw := Encode(o);
    assert TrackItems(raw["track"]) == Strs(o.track);
    assert AllNames(Strs(o.track));
    assert NamesOf(Strs(o.track)) == o.track;
  }

  /**
    With no argument the plugin tracks nothing: the empty argument list becomes
    `track: []`, which overrides the all-attributes default.
   */
  lemma NoArgumentsTrackNothing(model: SequelizeModel)
    ensures ValidateOptions(NormaliseArguments([]), model)
      == Ok(HistoryOptions([], "id", model.name + "History", model.tableName + "_history"))
  {
    assert TrackItems(List([])) == [];
    assert NamesOf([]) == [];
  }

  /** Names given as separate arguments are tracked in argument order. */
  lemma {:induction false} NameArgumentsTracked(names: seq<string>, model: SequelizeModel)
    requires |names| > 0 && forall i :: 0 <= i < |names| ==> names[i] != ""
    ensures ValidateOptions(NormaliseArguments(Strs(names)), model)
      == Ok(HistoryOptions(names, "id", model.name + "History", model.tableName + "_history"))
  {
    var args := Strs(names);
    assert args[0] == Str(names[0]);
    assert NormaliseArguments(args) == map["track" := List(args)];
    assert AllNames(args);
    assert NamesOf(args) == names;
  }

  /** A history attribute: a definition object, or a bare data type. */
  datatype HistoryColumn = Defined(column: Column) | Bare(dataType: DataType)

  const MetaKeys: set<string> := {"_id", "_sourceId", "_revision", "_user", "_date", "_changes"}

  /** The meta attributes; `_sourceId` takes the type of the source model's id attribute. */
  function MetaColumns(idType: DataType): (meta: map<string, HistoryColumn>)
    ensures meta.Keys == MetaKeys
    ensures meta["_id"] == Defined(Column(Integer, map["primaryKey" := Bool(true), "autoIncrement" := Bool(true)]))
    ensures meta["_sourceId"].Defined? && meta["_sourceId"].column.dataType == idType
    ensures "allowNull" in meta["_sourceId"].column.props && meta["_sourceId"].column.props["allowNull"] == Bool(false)
    ensures meta["_user"] == Bare(Text) && meta["_date"] == Bare(Timestamp) && meta["_changes"] == Bare(ArrayOf(Text))
    ensures "unique" in meta["_sourceId"].column.props && meta["_sourceId"].column.props["unique"] == Str("naturalId")
    ensures meta["_revision"].Defined? && meta["_revision"].column.dataType == Integer
      && "unique" in meta["_revision"].column.props
      && meta["_revision"].column.props["unique"] == Str("naturalId")
    ensures forall k :: k in meta && k != "_id" && meta[k].Defined? ==> "autoIncrement" !in meta[k].column.props
  {
    map[
      "_id" := Defined(Column(Integer, map["primaryKey" := Bool(true), "autoIncrement" := Bool(true)])),
      "_sourceId" := Defined(Column(idType, map["allowNull" := Bool(false), "unique" := Str("naturalId")])),
      "_revision" := Defined(Column(Integer, map["unique" := Str("naturalId")])),
      "_user" := Bare(Text),
      "_date" := Bare(Timestamp),
      "_changes" := Bare(ArrayOf(Text))]
  }

  /** `_.pick(model.attributes, track)` with `autoIncrement` omitted from each definition. */
  function TrackedColumns(model: SequelizeModel, track: seq<string>): (cols: map<string, Column>)
    ensures forall k :: k in cols <==> k in track && k in model.columns
    ensures forall k :: k in cols ==> (cols[k].dataType == model.columns[k].dataType
      && cols[k].props == model.columns[k].props - {"autoIncrement"})
  {
    map k | k in model.columns && k in track
      :: Column(model.columns[k].dataType, model.columns[k].props - {"autoIncrement"})
  }

  function ColumnAt(cols: map<string, Column>, k: string): Option<Column> {
    if k in cols then Some(cols[k]) else None
  }

  /**
    `_.merge` of one meta attribute onto a tracked definition: a bare data type
    replaces it, a definition object is merged key by key with the meta keys
    winning.
   */
  function MergeColumn(meta: HistoryColumn, tracked: Option<Column>): (r: HistoryColumn)
    ensures meta.Bare? ==> r == meta
    ensures meta.Defined? ==> (r.Defined? && r.column.dataType == meta.column.dataType
      && (forall p :: p in meta.column.props ==> p in r.column.props && r.column.props[p] == meta.column.props[p])
      && (forall p :: p in r.column.props <==> p in meta.column.props || (tracked.Some? && p in tracked.value.props))
      && (forall p :: p !in meta.column.props && p in r.column.props ==> r.column.props[p] == tracked.value.props[p]))
  {
    match meta
    case Bare(_) => meta
    case Defined(c) =>
      if tracked.Some? then Defined(Column(c.dataType, tracked.value.props + c.props)) else meta
  }

  /** The attribute map of the history model: the tracked attributes merged under the meta attributes. */
  function HistoryAttributes(model: SequelizeModel, track: seq<string>, idType: DataType): (attrs: map<string, HistoryColumn>)
    ensures forall k :: k in attrs <==> (k in track && k in model.columns) || k in MetaKeys
    ensures forall k :: k in attrs && k !in MetaKeys ==>
      attrs[k] == Defined(Column(model.columns[k].dataType, model.columns[k].props - {"autoIncrement"}))
    ensures forall k :: k in MetaKeys ==>
      attrs[k] == MergeColumn(MetaColumns(idType)[k], ColumnAt(TrackedColumns(model, track), k))
  {
    var tracked := TrackedColumns(model, track);
    var meta := MetaColumns(idType);
    map k | k in tracked.Keys + meta.Keys
      :: if k in meta then MergeColumn(meta[k], if k in tracked then Some(tracked[k]) else None)
         else Defined(tracked[k])
  }

  /** Of all history attributes, only `_id` auto-increments. */
  lemma OnlyIdAutoIncrements(model: SequelizeModel, track: seq<string>, idType: DataType)
    ensures var attrs := HistoryAttributes(model, track, idType);
      forall k :: k in attrs && k != "_id" && attrs[k].Defined? ==> "autoIncrement" !in attrs[k].column.props
  {
    var attrs := HistoryAttributes(model, track, idType);
    var tracked := TrackedColumns(model, track);
    var meta := MetaColumns(idType);
    forall k | k in attrs && k != "_id" && attrs[k].Defined?
      ensures "autoIncrement" !in attrs[k].column.props
    {
      if k in MetaKeys {
        var t := if k in tracked then Some(tracked[k]) else None;
        assert ColumnAt(tracked, k) == t;
        assert attrs[k] == MergeColumn(meta[k], t);
      }
    }
  }

  /** The association internals.associate adds: history belongsTo source. */
  datatype BelongsTo = BelongsTo(target: string, alias: string, foreignKey: string, onDelete: string)

  /** The definition handed to sequelize.define, with its association once associated. */
  datatype HistoryModel = HistoryModel(
    name: string,
    tableName: string,
    attributes: map<string, HistoryColumn>,
    timestamps: bool,
    indexes: seq<seq<string>>,
    belongsTo: Option<BelongsTo>)

  datatype HistoryError = InvalidOptions(error: OptionsError) | InvalidIdAttribute(model: string, idAttr: string)

  /**
    createHistoryModel: fails when idAttr is not an attribute of the source
    model, otherwise defines the history model under the configured name and
    table, without timestamps and indexed on `_sourceId`.
   */
  function CreateHistoryModel(model: SequelizeModel, o: HistoryOptions): (r: Result<HistoryModel, HistoryError>)
    ensures r.Err? <==> o.idAttr !in model.columns
    ensures r.Err? ==> r.error == InvalidIdAttribute(model.name, o.idAttr)
    ensures r.Ok? ==> (r.value.name == o.modelName && r.value.tableName == o.tableName
      && r.value.attributes == HistoryAttributes(model, o.track, model.columns[o.idAttr].dataType)
      && r.value.attributes["_sourceId"].column.dataType == model.columns[o.idAttr].dataType
      && !r.value.timestamps && r.value.indexes == [["_sourceId"]] && r.value.belongsTo.None?)
  {
    if o.idAttr !in model.columns then Err(InvalidIdAttribute(model.name, o.idAttr))
    else
      var attrs := HistoryAttributes(model, o.track, model.columns[o.idAttr].dataType);
      assert attrs["_sourceId"] == MergeColumn(MetaColumns(model.columns[o.idAttr].dataType)["_sourceId"],
        ColumnAt(TrackedColumns(model, o.track), "_sourceId"));
      Ok(HistoryModel(o.modelName, o.tableName, attrs, false, [["_sourceId"]], None))
  }

  /** internals.associate: `_sourceId` references the source model, deleting in cascade. */
  function Associate(history: HistoryModel, source: SequelizeModel): (r: HistoryModel)
    ensures r.belongsTo == Some(BelongsTo(source.name, "source", "_sourceId", "cascade"))
    ensures r.name == history.name && r.tableName == history.tableName && r.attributes == history.attributes
    ensures r.timestamps == history.timestamps && r.indexes == history.indexes
  {
    history.(belongsTo := Some(BelongsTo(source.name, "source", "_sourceId", "cascade")))
  }

  /**
    A source instance in an afterUpdate hook: its current values, its previous
    data values and `changed()`, with an empty list for `false`.
   */
  datatype Instance = Instance(values: map<string, Value>, previous: map<string, Value>, changed: seq<string>)

  const RecordMetaKeys: set<string> := {"_sourceId", "_date", "_changes"}

  /**
    writeHistory's record: the tracked previous values, with `_sourceId` (the
    current id value, null when unset), `_date` (now) and `_changes` on top.
   */
  function HistoryRecord(o: HistoryOptions, inst: Instance, now: int): (record: map<string, Value>)
    ensures forall k :: k in record <==> (k in o.track && k in inst.previous) || k in RecordMetaKeys
    ensures forall k :: k in record && k !in RecordMetaKeys ==> record[k] == inst.previous[k]
    ensures record["_sourceId"] == if o.idAttr in inst.values then inst.values[o.idAttr] else Null
    ensures record["_date"] == Date(now)
    ensures record["_changes"] == List(Strs(inst.changed))
  {
    var picked := map k | k in inst.previous && k in o.track :: inst.previous[k];
    picked + map[
      "_sourceId" := if o.idAttr in inst.values then inst.values[o.idAttr] else Null,
      "_date" := Date(now),
      "_changes" := List(Strs(inst.changed))]
  }

  /**
    Every key of a history record is an attribute of the history model, when the
    instance's previous values are attributes of the source model.
   */
  lemma RecordFitsHistoryModel(model: SequelizeModel, o: HistoryOptions, inst: Instance, now: int)
    requires o.idAttr in model.columns
    requires inst.previous.Keys <= model.columns.Keys
    ensures CreateHistoryModel(model, o).Ok?
    ensures HistoryRecord(o, inst, now).Keys <= CreateHistoryModel(model, o).value.attributes.Keys
  {
    var record := HistoryRecord(o, inst, now);
    var attrs := CreateHistoryModel(model, o).value.attributes;
    forall k | k in record ensures k in attrs {
      if k !in RecordMetaKeys {
        assert k in o.track && k in inst.previous;
      }
    }
  }

  /** lodash `_.intersection`: the elements of xs also in ys, in xs order, without repeats. */
  function Intersection(xs: seq<string>, ys: seq<string>): (r: seq<string>)
    ensures forall x :: x in r <==> x in xs && x in ys
    ensures forall i, j :: 0 <= i < j < |r| ==> r[i] != r[j]
  {
    if xs == [] then []
    else
      var init := Intersection(xs[..|xs| - 1], ys);
      var x := xs[|xs| - 1];
      assert forall y :: y in xs <==> y in xs[..|xs| - 1] || y == x;
      if x in ys && x !in init then init + [x] else init
  }

  /** The afterUpdate hook: a record to create iff a changed field is tracked. */
  function AfterUpdate(o: HistoryOptions, inst: Instance, now: int): (write: Option<map<string, Value>>)
    ensures write.Some? <==> exists c :: c in inst.changed && c in o.track
    ensures write.Some? ==> write.value == HistoryRecord(o, inst, now)
  {
    var common := Intersection(inst.changed, o.track);
    if |common| > 0 then
      assert common[0] in inst.changed && common[0] in o.track;
      Some(HistoryRecord(o, inst, now))
    else
      None
  }

  /** A hook registered by addHooks: the history model it writes to and the options it closed over. */
  datatype HistoryHook = HistoryHook(historyModel: string, options: HistoryOptions)

  /** historyModel.create(record). */
  datatype CreateCall = CreateCall(historyModel: string, record: map<string, Value>)

  function HookWrite(hook: HistoryHook, inst: Instance, now: int): Option<CreateCall> {
    match AfterUpdate(hook.options, inst, now)
    case None => None
    case Some(record) => Some(CreateCall(hook.historyModel, record))
  }

  /** The records the afterUpdate hooks create, in registration order. */
  function UpdateWrites(hooks: seq<HistoryHook>, inst: Instance, now: int): (calls: seq<CreateCall>)
    ensures |calls| <= |hooks|
    ensures forall c :: c in calls ==> exists h :: h in hooks && HookWrite(h, inst, now) == Some(c)
  {
    if hooks == [] then []
    else
      var rest := UpdateWrites(hooks[1..], inst, now);
      assert forall h :: h in hooks[1..] ==> h in hooks;
      match HookWrite(hooks[0], inst, now)
      case None => rest
      case Some(c) => [c] + rest
  }

  /** Registering one more hook adds its write, if any, after the earlier hooks' writes. */
  lemma {:induction false} UpdateWritesAppend(hooks: seq<HistoryHook>, hook: HistoryHook, inst: Instance, now: int)
    ensures UpdateWrites(hooks + [hook], inst, now) == UpdateWrites(hooks, inst, now)
      + (match HookWrite(hook, inst, now) case None => [] case Some(c) => [c])
  {
    if hooks == [] {
      assert [] + [hook] == [hook];
      assert [hook][1..] == [];
    } else {
      assert (hooks + [hook])[1..] == hooks[1..] + [hook];
      UpdateWritesAppend(hooks[1..], hook, inst, now);
    }
  }

  /** A source model whose afterUpdate hook list the plugin extends. */
  class TrackedModel {
    const model: SequelizeModel
    var afterUpdateHooks: seq<HistoryHook>

    constructor (model: SequelizeModel)
      ensures this.model == model && afterUpdateHooks == []
    {
      this.model := model;
      afterUpdateHooks := [];
    }

    /** addHooks: one afterUpdate hook writing to the history model with these options. */
    method AddHooks(history: HistoryModel, o: HistoryOptions)
      modifies this
      ensures afterUpdateHooks == old(afterUpdateHooks) + [HistoryHook(history.name, o)]
    {
      afterUpdateHooks := afterUpdateHooks + [HistoryHook(history.name, o)];
    }
  }

  /** What one application of the plugin to a model yields from the options it starts with. */
  function ApplyPlugin(raw: map<string, Value>, model: SequelizeModel): (r: Result<HistoryModel, HistoryError>)
    ensures ValidateOptions(raw, model).Err? ==> r == Err(InvalidOptions(ValidateOptions(raw, model).error))
    ensures ValidateOptions(raw, model).Ok? ==> (
      var o := ValidateOptions(raw, model).value;
      (r.Ok? <==> o.idAttr in model.columns)
      && (r.Ok? ==> r.value == Associate(CreateHistoryModel(model, o).value, model)))
  {
    match ValidateOptions(raw, model)
    case Err(e) => Err(InvalidOptions(e))
    case Ok(o) =>
      match CreateHistoryModel(model, o)
      case Err(e) => Err(e)
      case Ok(h) => Ok(Associate(h, model))
  }

  /** The plugin's `options` variable after an application, as written: the validated options when valid. */
  function OptionsAfterApply(raw: map<string, Value>, model: SequelizeModel): (after: map<string, Value>)
    ensures ValidateOptions(raw, model).Ok? ==> after == Encode(ValidateOptions(raw, model).value)
    ensures ValidateOptions(raw, model).Err? ==> after == raw
  {
    match ValidateOptions(raw, model)
    case Ok(o) => Encode(o)
    case Err(_) => raw
  }

  /** Names that differ still differ once the same suffix is appended. */
  lemma SuffixCancels(x: string, y: string, suffix: string)
    ensures x + suffix == y + suffix ==> x == y
  {
    if x + suffix == y + suffix {
      assert x == (x + suffix)[..|x|];
      assert y == (y + suffix)[..|y|];
    }
  }

  /**
    A plugin applied a second time runs on the first model's validated options:
    the second model gets the first model's history model name, table name and
    tracked attributes.
   */
  lemma {:induction false} ReusedPluginKeepsFirstDefaults(first: SequelizeModel, second: SequelizeModel)
    requires forall i :: 0 <= i < |first.attributes| ==> first.attributes[i] != ""
    requires first.name != second.name
    ensures ValidateOptions(map[], first).Ok?
    ensures ValidateOptions(OptionsAfterApply(map[], first), second) == ValidateOptions(map[], first)
    ensures ValidateOptions(OptionsAfterApply(map[], first), second).value.modelName != second.name + "History"
  {
    var o := ValidateOptions(map[], first).value;
    assert Validatable(o);
    ValidateEncoded(o, second);
    SuffixCancels(first.name, second.name, "History");
  }

  /**
    Validated afresh, options without a model or table name give each model its
    own history model name and table name, and options without `track` track all
    of that model's attributes.
   */
  lemma FreshApplicationUsesOwnDefaults(raw: map<string, Value>, model: SequelizeModel)
    requires "modelName" !in raw && "tableName" !in raw
    ensures ApplyPlugin(raw, model).Ok? ==> (ApplyPlugin(raw, model).value.name == model.name + "History"
      && ApplyPlugin(raw, model).value.tableName == model.tableName + "_history")
    ensures ValidateOptions(raw, model).Ok? && "track" !in raw ==> ValidateOptions(raw, model).value.track == model.attributes
  {
  }

  /** The function the plugin returns, holding its normalised options. */
  class Plugin {
    var options: map<string, Value>

    constructor (args: seq<Value>)
      ensures options == NormaliseArguments(args)
    {
      options := NormaliseArguments(args);
    }

    /**
      The returned function as written: it validates its options against the
      model, keeps the validated options in place of the original ones, then
      defines, associates and hooks the history model.
     */
    method Apply(target: TrackedModel) returns (r: Result<HistoryModel, HistoryError>)
      modifies this, target
      ensures r == ApplyPlugin(old(options), target.model)
      ensures options == OptionsAfterApply(old(options), target.model)
      ensures r.Ok? ==> (target.afterUpdateHooks == old(target.afterUpdateHooks)
        + [HistoryHook(r.value.name, ValidateOptions(old(options), target.model).value)])
      ensures r.Err? ==> target.afterUpdateHooks == old(target.afterUpdateHooks)
    {
      var validated := ValidateOptions(options, target.model);
      if validated.Err? {
        return Err(InvalidOptions(validated.error));
      }
      options := Encode(validated.value);
      var created := CreateHistoryModel(target.model, validated.value);
      if created.Err? {
        return Err(created.error);
      }
      var history := Associate(created.value, target.model);
      target.AddHooks(history, validated.value);
      r := Ok(history);
    }

    /**
      The returned function as evidently intended: the same steps, validating
      the original options every time, so every model gets its own defaults.
     */
    method ApplyFresh(target: TrackedModel) returns (r: Result<HistoryModel, HistoryError>)
      modifies target
      ensures r == ApplyPlugin(options, target.model)
      ensures r.Ok? ==> (target.afterUpdateHooks == old(target.afterUpdateHooks)
        + [HistoryHook(r.value.name, ValidateOptions(options, target.model).value)])
      ensures r.Err? ==> target.afterUpdateHooks == old(target.afterUpdateHooks)
    {
      var validated := ValidateOptions(options, target.model);
      if validated.Err? {
        return Err(InvalidOptions(validated.error));
      }
      var created := CreateHistoryModel(target.model, validated.value);
      if created.Err? {
        return Err(created.error);
      }
      var history := Associate(created.value, target.model);
      target.AddHooks(history, validated.value);
      r := Ok(history);
    }
  }
}
