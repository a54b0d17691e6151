/** lib/Model.js: `Model`, which holds the settings of one table and issues selects,
    finds, inserts and the column-definition query for it, and `ModelInstance`, which
    holds one row as `state.data` and replaces it with the row each update, soft delete
    or restore returns.  What the database answers is a parameter of each call;
    `pgDatabase` stands for `env.PGDATABASE`. */
module Models {
  import opened Js
  import opened Sql
  import opened Parse
  import opened Db
  import S = Select
  import I = Insert
  import U = Update
  import Rm = Remove
  import Rs = Restore
  import D = Def

  // ---------------------------------------------------------------- Model

  /** The `state` of a new model named `name`: `database` and `columns` defaults, then
      every own property of `props`, then the name. */
  function InitialState(name: Val, props: Val, pgDatabase: Val): Props {
    PutProp(Assign([("database", pgDatabase), ("columns", Str("*"))], props), "model", name)
  }

  /** `new Model(model, props)`: the state, or what the constructor throws.  A non-empty
      string names the table; otherwise an object whose `model` is a string of more than
      one character stands for both the name and the props. */
  function ModelState(model: Val, props: Val, pgDatabase: Val): Result<Props> {
    if model.Str? && |model.s| >= 1 then Ok(InitialState(model, props, pgDatabase))
    else if TypeOf(model) != "object" then Err(Thrown("invalid model" + ToText(model)))
    else if model.Null? then Err(TypeError("Cannot read properties of null (reading 'model')"))
    else
      var name := Get(model, "model");
      if name.Str? && |name.s| > 1 then Ok(InitialState(name, model, pgDatabase))
      else Err(Thrown("invalid model" + ToText(model)))
  }

  /** The name the constructor settles on, when it accepts its arguments. */
  function ModelName(model: Val): Val
    requires Readable(model)
  {
    if model.Str? then model else Get(model, "model")
  }

  /** The options `select` passes on: `columns` and `schema` fall back to the model's and
      then to '*' and 'public'; `where`, `limit`, `group` and `order` come from `opts`
      when it is an object. */
  function SelectArgs(state: Props, opts: Val): Props {
    var o := if NotObjectLike(opts) then Obj([]) else opts;
    [("columns", Or(Or(Get(o, "columns"), Lookup(state, "columns")), Str("*"))),
     ("schema", Or(Or(Get(o, "schema"), Lookup(state, "schema")), Str("public"))),
     ("model", Lookup(state, "model")),
     ("where", Get(o, "where")),
     ("limit", Get(o, "limit")),
     ("group", Get(o, "group")),
     ("order", Get(o, "order"))]
  }

  /** `find`'s first argument as a `where` object: a number is an id, so is anything
      `Number` reads as a number (after `parseInt`); any other non-object throws. */
  function FindWhere(where: Val): Result<Val> {
    if TypeOf(where) == "number" then Ok(Obj([("id", where)]))
    else if !IsNaN(where) then Ok(Obj([("id", ParseInt(where))]))
    else if NotObjectLike(where) then Err(Thrown("invalid where object"))
    else Ok(where)
  }

  /** `find`'s second argument, `{}` unless it is an object. */
  function FindOptions(options: Val): (o: Val)
    ensures Readable(o)
  {
    if NotObjectLike(options) then Obj([]) else options
  }

  /** The options `find` passes to `select`: always `limit: 1`. */
  function FindArgs(state: Props, where: Val, options: Val): Props {
    var o := FindOptions(options);
    [("columns", Or(Get(o, "columns"), Lookup(state, "columns"))),
     ("model", Lookup(state, "model")),
     ("schema", Or(Get(o, "schema"), Lookup(state, "schema"))),
     ("rowMode", Get(o, "rowMode")),
     ("deleted", Get(o, "deleted")),
     ("userId", Lookup(state, "userId")),
     ("where", where),
     ("limit", Num(1))]
  }

  /** What `find` throws, if anything. */
  function FindError(state: Props, where: Val, options: Val): Option<Error> {
    match FindWhere(where)
    case Err(e) => Some(e)
    case Ok(w) =>
      match S.SelectStatement(FindArgs(state, w, options))
      case Err(e) => Some(e)
      case Ok(_) => None
  }

  /** The options `create` passes to `insert`. */
  function CreateArgs(state: Props, values: Val): Props {
    [("model", Lookup(state, "model")), ("schema", Lookup(state, "schema")), ("set", values)]
  }

  /** The options `getModelDef` passes to `def`. */
  function DefArgs(state: Props): Props {
    [("model", Lookup(state, "model")), ("schema", Lookup(state, "schema")), ("database", Lookup(state, "database"))]
  }

  /** A table model. */
  class Model {
    const state: Props

    /** The constructor for arguments it accepts; `New` is the one that can throw. */
    constructor (model: Val, props: Val, pgDatabase: Val)
      requires ModelState(model, props, pgDatabase).Ok?
      ensures state == ModelState(model, props, pgDatabase).value
    {
      state := ModelState(model, props, pgDatabase).value;
    }

    /** `new Model(model, props)`, or what it throws. */
    static method New(model: Val, props: Val, pgDatabase: Val) returns (r: Result<Model>)
      ensures ModelState(model, props, pgDatabase).Err? ==> r == Err(ModelState(model, props, pgDatabase).error)
      ensures ModelState(model, props, pgDatabase).Ok? ==>
                r.Ok? && fresh(r.value) && r.value.state == ModelState(model, props, pgDatabase).value
    {
      var st := ModelState(model, props, pgDatabase);
      if st.Err? {
        return Err(st.error);
      }
      var m := new Model(model, props, pgDatabase);
      r := Ok(m);
    }

    /** `getModelDef()` */
    method GetModelDef(response: QueryResult) returns (r: Result<Call<Selected>>)
      ensures r == D.DefOutcome(DefArgs(state), response)
    {
      var options := new JsObject(DefArgs(state));
      r := D.Def(options, response);
    }

    /** `create(set)`.  As lib/insert.js is written, this always throws once the options
        pass validation (`CreateAlwaysThrows`). */
    method Create(values: Val, now: string, response: QueryResult) returns (r: Result<ModelInstance>)
      ensures I.InsertOutcome(CreateArgs(state, values), now, response).Err? ==>
                r == Err(I.InsertOutcome(CreateArgs(state, values), now, response).error)
      ensures I.InsertOutcome(CreateArgs(state, values), now, response).Ok? ==>
                r.Ok? && fresh(r.value) &&
                r.value.state == InstanceState(state, I.InsertOutcome(CreateArgs(state, values), now, response).value.value)
    {
      var options := new JsObject(CreateArgs(state, values));
      var res := I.Insert(options, now, response);
      if res.Err? {
        return Err(res.error);
      }
      var instance := new ModelInstance(state, res.value.value);
      r := Ok(instance);
    }

    /** `select(opts)` */
    method Select(opts: Val, response: QueryResult) returns (r: Result<Call<Selected>>)
      ensures r == match S.SelectStatement(SelectArgs(state, opts))
                   case Err(e) => Err(e)
                   case Ok(text) => Ok(Call(text, Reshape(response)))
    {
      var options := new JsObject(SelectArgs(state, opts));
      r := S.Select(options, response);
    }

    /** `find(where, options)`: selects at most one row and wraps the first in a new
        instance whose state is the model's, then the options, then the row. */
    method Find(where: Val, options: Val, response: QueryResult) returns (r: Result<ModelInstance>)
      ensures FindError(state, where, options).Some? ==> r == Err(FindError(state, where, options).value)
      ensures FindError(state, where, options).None? ==>
                r.Ok? && fresh(r.value) &&
                r.value.state == InstanceState(Assign(Assign([], Obj(state)), FindOptions(options)), FirstRow(response.rows))
    {
      var w := FindWhere(where);
      if w.Err? {
        return Err(w.error);
      }
      var o := FindOptions(options);
      var args := new JsObject(FindArgs(state, w.value, options));
      var res := S.Select(args, response);
      if res.Err? {
        return Err(res.error);
      }
      var data := FirstRow(res.value.value.rows);
      var instance := new ModelInstance(Assign(Assign([], Obj(state)), o), data);
      r := Ok(instance);
    }
  }

  // ---------------------------------------------------------------- ModelInstance

  /** `Object.assign({}, props, {data})` */
  function InstanceState(props: Props, data: Val): Props {
    PutProp(PutAll([], props), "data", data)
  }

  /** The TypeError of reading `key` from undefined or null. */
  function ReadError(v: Val, key: string): Error {
    TypeError("Cannot read properties of " + ToText(v) + " (reading '" + key + "')")
  }

  /** `get(props)` on the row `data`: an array of keys gives the values in the same
      order, a key gives its value, anything else gives the whole row. */
  function Project(data: Val, props: Val): (r: Result<Val>)
    ensures props.Arr? && r.Ok? ==> r.value.Arr? && |r.value.items| == |props.items|
  {
    if props.Arr? then
      if |props.items| == 0 then Ok(Arr([], []))
      else if !Readable(data) then Err(ReadError(data, ToText(props.items[0])))
      else Ok(Arr(seq(|props.items|, i requires 0 <= i < |props.items| => Get(data, ToText(props.items[i]))), []))
    else if props.Str? then
      if Readable(data) then Ok(Get(data, props.s)) else Err(ReadError(data, props.s))
    else Ok(data)
  }

  /** The options an instance passes on: its model and schema, the row's `id` and, for
      an update, the `set`. */
  function InstanceArgs(state: Props, values: Option<Val>): Result<Props> {
    var data := Lookup(state, "data");
    if !Readable(data) then Err(ReadError(data, "id"))
    else
      Ok([("model", Lookup(state, "model")), ("schema", Lookup(state, "schema")), ("id", Get(data, "id"))] +
         (if values.Some? then [("set", values.value)] else []))
  }

  /** One row of a model. */
  class ModelInstance {
    var state: Props

    constructor (props: Props, data: Val)
      ensures state == InstanceState(props, data)
    {
      state := InstanceState(props, data);
    }

    /** `get(props)` */
    function Get(props: Val): (r: Result<Val>)
      reads this
      ensures r == Project(Lookup(state, "data"), props)
    {
      Project(Lookup(state, "data"), props)
    }

    /** `update(set)`: the row becomes the first row the update returns. */
    method Update(values: Val, now: string, results: seq<QueryResult>) returns (r: Result<ModelInstance>)
      modifies this
      ensures InstanceArgs(old(state), Some(values)).Err? ==>
                r == Err(InstanceArgs(old(state), Some(values)).error) && state == old(state)
      ensures InstanceArgs(old(state), Some(values)).Ok? ==>
                match U.UpdateOutcome(InstanceArgs(old(state), Some(values)).value, now, results)
                case Err(e) => r == Err(e) && state == old(state)
                case Ok(call) => r == Ok(this) && state == PutProp(old(state), "data", FirstRow(call.value))
    {
      var a := InstanceArgs(state, Some(values));
      if a.Err? {
        return Err(a.error);
      }
      var options := new JsObject(a.value);
      var res := U.Update(options, now, results);
      if res.Err? {
        return Err(res.error);
      }
      state := PutProp(state, "data", FirstRow(res.value.value));
      r := Ok(this);
    }

    /** `delete()`: a soft delete of the row; the row becomes the first row returned. */
    method Delete(deletedAt: string, updatedAt: string, response: QueryResult) returns (r: Result<ModelInstance>)
      modifies this
      ensures InstanceArgs(old(state), None).Err? ==>
                r == Err(InstanceArgs(old(state), None).error) && state == old(state)
      ensures InstanceArgs(old(state), None).Ok? ==>
                var a := InstanceArgs(old(state), None).value;
                match Rm.SoftOutcome(a, Rm.RemoveSet(deletedAt, updatedAt, Lookup(a, "userId")), response)
                case Err(e) => r == Err(e) && state == old(state)
                case Ok(call) => r == Ok(this) && state == PutProp(old(state), "data", FirstRow(call.value))
    {
      var a := InstanceArgs(state, None);
      if a.Err? {
        return Err(a.error);
      }
      var options := new JsObject(a.value);
      var res := Rm.Remove(options, deletedAt, updatedAt, response);
      if res.Err? {
        return Err(res.error);
      }
      state := PutProp(state, "data", FirstRow(res.value.value));
      r := Ok(this);
    }

    /** `restore()`: the row becomes the first row returned. */
    method Restore(now: string, response: QueryResult) returns (r: Result<ModelInstance>)
      modifies this
      ensures InstanceArgs(old(state), None).Err? ==>
                r == Err(InstanceArgs(old(state), None).error) && state == old(state)
      ensures InstanceArgs(old(state), None).Ok? ==>
                var a := InstanceArgs(old(state), None).value;
                match Rm.SoftOutcome(a, Rs.RestoreSet(now, Lookup(a, "userId")), response)
                case Err(e) => r == Err(e) && state == old(state)
                case Ok(call) => r == Ok(this) && state == PutProp(old(state), "data", FirstRow(call.value))
    {
      var a := InstanceArgs(state, None);
      if a.Err? {
        return Err(a.error);
      }
      var options := new JsObject(a.value);
      var res := Rs.Restore(options, now, response);
      if res.Err? {
        return Err(res.error);
      }
      state := PutProp(state, "data", FirstRow(res.value.value));
      r := Ok(this);
    }
  }

  // ---------------------------------------------------------------- properties of Model

  /** The constructor accepts exactly a non-empty string, or an object whose `model` is a
      string of more than one character; the state then names the table by that string.
      It throws `'invalid model' + model` otherwise, except that `null` fails earlier, on
      reading `null.model`. */
  lemma ModelAccepts(model: Val, props: Val, pgDatabase: Val)
    ensures ModelState(model, props, pgDatabase).Ok? <==>
              (model.Str? && |model.s| >= 1) ||
              (IsObject(model) && Get(model, "model").Str? && |Get(model, "model").s| > 1)
    ensures ModelState(model, props, pgDatabase).Ok? ==>
              var st := ModelState(model, props, pgDatabase).value;
              Readable(model) && Lookup(st, "model") == ModelName(model) && NonEmptyString(Lookup(st, "model"))
    ensures model.Null? ==> ModelState(model, props, pgDatabase) == Err(TypeError("Cannot read properties of null (reading 'model')"))
    ensures ModelState(model, props, pgDatabase).Err? && !model.Null? ==>
              ModelState(model, props, pgDatabase) == Err(Thrown("invalid model" + ToText(model)))
  {
    var st := ModelState(model, props, pgDatabase);
    if st.Ok? {
      var src := if model.Str? then props else model;
      LookupPutProp(Assign([("database", pgDatabase), ("columns", Str("*"))], src), "model", ModelName(model), "model");
    }
  }

  /** Every other key of the state holds the value the props assign it last, and falls
      back to `database: env.PGDATABASE` and `columns: '*'`.  The props are the second
      argument for a string model, the model object itself otherwise. */
  lemma ModelStateKeys(model: Val, props: Val, pgDatabase: Val, k: string)
    requires ModelState(model, props, pgDatabase).Ok? && k != "model"
    ensures var src := if model.Str? then props else model;
            var defaults := [("database", pgDatabase), ("columns", Str("*"))];
            var st := ModelState(model, props, pgDatabase).value;
            Lookup(st, k) == Final(OwnEntries(src), k, Lookup(defaults, k)) &&
            (k !in Keys(OwnEntries(src)) ==> Lookup(st, k) == Lookup(defaults, k))
  {
    var src := if model.Str? then props else model;
    var defaults := [("database", pgDatabase), ("columns", Str("*"))];
    var name := if model.Str? then model else Get(model, "model");
    LookupPutProp(Assign(defaults, src), "model", name, k);
    LookupPutAll(defaults, OwnEntries(src), k);
    if k !in Keys(OwnEntries(src)) {
      FinalAbsent(OwnEntries(src), k, Lookup(defaults, k));
    }
  }

  /** A one-character name is accepted as a string but not inside an object. */
  lemma OneCharacterName(c: char, props: Val, pgDatabase: Val)
    ensures ModelState(Str([c]), props, pgDatabase).Ok?
    ensures ModelState(Obj([("model", Str([c]))]), props, pgDatabase).Err?
  {
  }

  /** `select` always passes a non-empty projection and schema and the model's name, and
      never passes `id`, `offset` or `deleted`; `where`, `limit`, `group` and `order`
      are the caller's when `opts` is an object and missing otherwise. */
  lemma SelectArgsSpec(state: Props, opts: Val)
    ensures var a := SelectArgs(state, opts);
            Truthy(Lookup(a, "columns")) && Truthy(Lookup(a, "schema")) && Lookup(a, "model") == Lookup(state, "model") &&
            Lookup(a, "id") == Undef && Lookup(a, "offset") == Undef && Lookup(a, "deleted") == Undef
    ensures var a := SelectArgs(state, opts);
            !NotObjectLike(opts) ==>
              Lookup(a, "where") == Get(opts, "where") && Lookup(a, "limit") == Get(opts, "limit") &&
              Lookup(a, "group") == Get(opts, "group") && Lookup(a, "order") == Get(opts, "order")
    ensures var a := SelectArgs(state, opts);
            NotObjectLike(opts) ==>
              Lookup(a, "where") == Undef && Lookup(a, "limit") == Undef && Lookup(a, "group") == Undef && Lookup(a, "order") == Undef
  {
    SelectArgsFixed(state, opts);
    SelectArgsForwarded(state, opts);
  }

  lemma SelectArgsFixed(state: Props, opts: Val)
    ensures var a := SelectArgs(state, opts);
            Truthy(Lookup(a, "columns")) && Truthy(Lookup(a, "schema")) && Lookup(a, "model") == Lookup(state, "model") &&
            Lookup(a, "id") == Undef && Lookup(a, "offset") == Undef && Lookup(a, "deleted") == Undef
  {
    var a := SelectArgs(state, opts);
    LookupSkip(a, "schema", 1);
    LookupSkip(a, "model", 2);
    LookupSkip(a, "id", 7);
    LookupSkip(a, "offset", 7);
    LookupSkip(a, "deleted", 7);
  }

  lemma SelectArgsForwarded(state: Props, opts: Val)
    ensures var a := SelectArgs(state, opts);
            var o := if NotObjectLike(opts) then Obj([]) else opts;
            Lookup(a, "where") == Get(o, "where") && Lookup(a, "limit") == Get(o, "limit") &&
            Lookup(a, "group") == Get(o, "group") && Lookup(a, "order") == Get(o, "order")
  {
    var a := SelectArgs(state, opts);
    LookupSkip(a, "where", 3);
    LookupSkip(a, "limit", 4);
    LookupSkip(a, "group", 5);
    LookupSkip(a, "order", 6);
  }

  /** Since `deleted` is never passed on, a model's select always hides soft-deleted rows
      unless its `where` filters on `deleted_at` itself. */
  lemma SelectHidesDeleted(state: Props, opts: Val)
    requires !NotObjectLike(opts)
    requires var w := Get(opts, "where"); NotObjectLike(w) || (w.Obj? && !Truthy(Get(w, "deleted_at")))
    requires S.SelectStatement(SelectArgs(state, opts)).Ok?
    ensures Contains(S.SelectStatement(SelectArgs(state, opts)).value, [Ident("deleted_at"), Kw(" IS NULL")])
  {
    var a := SelectArgs(state, opts);
    var d := Defaults(a);
    SelectArgsSpec(state, opts);
    DefaultsSpec(a, "where");
    DefaultsSpec(a, "id");
    DefaultsSpec(a, "deleted");
    FoldIdSpec(d, "deleted");
    S.DefaultFilterInText(a);
  }

  /** `find`'s first argument: it throws exactly for what is neither a number nor read as
      one by `Number` nor an object, and a plain object is used as it is. */
  lemma FindWhereThrows(where: Val)
    ensures FindWhere(where).Err? <==> TypeOf(where) != "number" && IsNaN(where) && NotObjectLike(where)
    ensures FindWhere(where).Err? ==> FindWhere(where).error == Thrown("invalid where object")
    ensures where.Obj? ==> FindWhere(where) == Ok(where)
  {
  }

  /** A number `n` and its decimal text both become `{id: n}`. */
  lemma FindWhereNumber(n: int)
    ensures FindWhere(Num(n)) == Ok(Obj([("id", Num(n))]))
    ensures FindWhere(Str(NumText(n))) == Ok(Obj([("id", Num(n))]))
  {
    NumberOfNumText(n);
    ParseIntOfNumText(n);
    FindWhereNumericText(NumText(n), n);
  }

  lemma FindWhereNumericText(s: string, n: int)
    requires ToNumber(Str(s)) == Some(n) && ParseInt(Str(s)) == Num(n)
    ensures FindWhere(Str(s)) == Ok(Obj([("id", Num(n))]))
  {
  }

  /** `Number(null)` is 0, so `null` passes the `isNaN` test, and `parseInt(null, 10)` is
      NaN: `find(null)` looks for `{id: NaN}`. */
  lemma FindWhereNull()
    ensures FindWhere(Null) == Ok(Obj([("id", NaN)]))
  {
    ParseIntOfNonDigit("null");
  }

  /** The prepared options keep the caller's `limit` when there is no numeric `id`. */
  lemma PreparedKeepsLimit(a: Props)
    requires IsNaN(Lookup(a, "id"))
    ensures Lookup(S.Prepared(a), "limit") == Lookup(a, "limit")
  {
    var d := Defaults(a);
    var v := FoldId(d);
    DefaultsSpec(a, "id");
    DefaultsSpec(a, "limit");
    FoldIdSpec(d, "limit");
    LookupPutProp(v, "where", SetProp(Lookup(v, "where"), "deleted_at", Str("is null")), "limit");
  }

  /** Whatever `find` is given, the statement it sends ends in `LIMIT 1`. */
  lemma FindLimitsToOne(state: Props, where: Val, options: Val)
    ensures Limit(WhereEffect(S.Prepared(FindArgs(state, where, options))), Undef) == [Kw("LIMIT "), Raw(Num(1))]
  {
    var a := FindArgs(state, where, options);
    LookupSkip(a, "limit", 7);
    LookupSkip(a, "id", 8);
    PreparedKeepsLimit(a);
    LimitStaysOne(S.Prepared(a));
  }

  /** `parse.where` either leaves `limit` alone or sets it to 1. */
  lemma LimitStaysOne(p: Props)
    requires Lookup(p, "limit") == Num(1)
    ensures Limit(WhereEffect(p), Undef) == [Kw("LIMIT "), Raw(Num(1))]
  {
    WhereForcesLimit(p, Undef);
    LookupPutProp(p, "limit", Num(1), "limit");
  }

  /** A find by a numeric id, unless the options ask for deleted rows, filters on the id
      and on `deleted_at IS NULL`: a soft-deleted row is not found. */
  lemma FindByIdHidesDeleted(state: Props, n: int, options: Val)
    requires !Truthy(Get(FindOptions(options), "deleted"))
    ensures WhereClause(S.Prepared(FindArgs(state, Obj([("id", Num(n))]), options))) ==
              Ok([Kw("WHERE "), Kw("id = "), Raw(Num(n)), Kw(" AND "), Ident("deleted_at"), Kw(" IS NULL")])
  {
    var a := FindArgs(state, Obj([("id", Num(n))]), options);
    FindArgsLookups(state, Obj([("id", Num(n))]), options);
    FilteredIdWhere(a, Num(n));
    IdAndFilterClause(S.Prepared(a), Num(n));
  }

  /** The entries of `find`'s select options that the WHERE compiler reads. */
  lemma FindArgsLookups(state: Props, where: Val, options: Val)
    ensures var a := FindArgs(state, where, options);
            Lookup(a, "where") == where && Lookup(a, "deleted") == Get(FindOptions(options), "deleted") &&
            Lookup(a, "id") == Undef
  {
    var a := FindArgs(state, where, options);
    LookupSkip(a, "deleted", 4);
    LookupSkip(a, "where", 6);
    LookupSkip(a, "id", 8);
  }

  /** A `where` of one id, with no `id` option and no `deleted` flag, gains the filter. */
  lemma FilteredIdWhere(a: Props, id: Val)
    requires Lookup(a, "where") == Obj([("id", id)]) && !Truthy(Lookup(a, "deleted")) && Lookup(a, "id") == Undef
    ensures Lookup(S.Prepared(a), "where") == Obj([("id", id), ("deleted_at", Str("is null"))])
  {
    var w := Obj([("id", id)]);
    var d := Defaults(a);
    DefaultsSpec(a, "where");
    DefaultsSpec(a, "id");
    DefaultsSpec(a, "deleted");
    var v := FoldId(d);
    FoldIdSpec(d, "deleted");
    assert Lookup(v, "where") == w;
    assert "id"[0] != "deleted_at"[0];
    OneEntry("id", id, "deleted_at", Str("is null"));
    assert S.AddsDeletedFilter(v);
    var filtered := SetProp(w, "deleted_at", Str("is null"));
    LookupPutProp(v, "where", filtered, "where");
  }

  /** The WHERE clause of `{id, deleted_at: 'is null'}`. */
  lemma IdAndFilterClause(p: Props, id: Val)
    requires Lookup(p, "where") == Obj([("id", id), ("deleted_at", Str("is null"))])
    ensures WhereClause(p) == Ok([Kw("WHERE "), Kw("id = "), Raw(id), Kw(" AND "), Ident("deleted_at"), Kw(" IS NULL")])
  {
    var es := [("id", id), ("deleted_at", Str("is null"))];
    var g0 := [Kw("id = "), Raw(id)];
    var g1 := [Ident("deleted_at"), Kw(" IS NULL")];
    Rm.IdTerms(id);
    S.DeletedAtTerm();
    assert OwnEntries(Obj(es)) == es;
    assert es[..1] == [("id", id)];
    assert Terms(es) == Ok([g0] + [g1]);
    assert [g0] + [g1] == [g0, g1];
    assert [g0, g1][1..] == [g1];
    assert JoinGroups([g0, g1], [Kw(" AND ")]) == g0 + [Kw(" AND ")] + g1;
    assert [Kw("WHERE ")] + (g0 + [Kw(" AND ")] + g1) ==
           [Kw("WHERE "), Kw("id = "), Raw(id), Kw(" AND "), Ident("deleted_at"), Kw(" IS NULL")];
  }

  /** A one-entry object has no other key, and a new key goes after its entry. */
  lemma OneEntry(k: string, x: Val, j: string, y: Val)
    requires k != j
    ensures Lookup([(k, x)], j) == Undef
    ensures PutProp([(k, x)], j, y) == [(k, x), (j, y)]
  {
    assert [(k, x)][1..] == [];
  }

  // ---------------------------------------------------------------- properties of ModelInstance

  /** An instance whose row can be read passes its model, its schema, the row's `id` and,
      for an update, the `set`; never a `where`, a `limit` or a `userId`, so neither the
      delete nor the restore of an instance records who made it. */
  lemma InstanceArgsSpec(state: Props, values: Option<Val>)
    requires Readable(Lookup(state, "data"))
    ensures InstanceArgs(state, values).Ok?
    ensures var a := InstanceArgs(state, values).value;
            Lookup(a, "model") == Lookup(state, "model") && Lookup(a, "schema") == Lookup(state, "schema") &&
            Lookup(a, "id") == Get(Lookup(state, "data"), "id") &&
            Lookup(a, "set") == (if values.Some? then values.value else Undef) &&
            Lookup(a, "where") == Undef && Lookup(a, "limit") == Undef && Lookup(a, "userId") == Undef
  {
    var a := InstanceArgs(state, values).value;
    LookupSkip(a, "schema", 1);
    LookupSkip(a, "id", 2);
    LookupSkip(a, "set", 3);
    LookupSkip(a, "where", |a|);
    LookupSkip(a, "limit", |a|);
    LookupSkip(a, "userId", |a|);
  }

  /** A delete or a restore of an instance whose row has a numeric `id` addresses that
      row alone: `WHERE id = <id>`. */
  lemma InstanceTargetsRow(state: Props, values: Option<Val>, s: Val)
    requires Readable(Lookup(state, "data")) && Get(Lookup(state, "data"), "id").Num?
    ensures WhereClause(Rm.Replaced(InstanceArgs(state, values).value, s)) ==
              Ok([Kw("WHERE "), Kw("id = "), Raw(Get(Lookup(state, "data"), "id"))])
  {
    var a := InstanceArgs(state, values).value;
    InstanceArgsSpec(state, values);
    NumericIdTargets(a, s);
  }

  lemma NumericIdTargets(a: Props, s: Val)
    requires Lookup(a, "where") == Undef && Lookup(a, "id").Num?
    ensures WhereClause(Rm.Replaced(a, s)) == Ok([Kw("WHERE "), Kw("id = "), Raw(Lookup(a, "id"))])
  {
    assert NotObjectLike(Lookup(a, "where")) && !IsNaN(Lookup(a, "id"));
    Rm.SoftById(a, s);
  }

  /** A row without a numeric `id` (say one read with a projection that left `id` out)
      gives a statement with no WHERE: deleting or restoring that instance stamps every
      row of the table. */
  lemma InstanceWithoutId(state: Props, values: Option<Val>, s: Val)
    requires Readable(Lookup(state, "data")) && IsNaN(Get(Lookup(state, "data"), "id"))
    ensures WhereClause(Rm.Replaced(InstanceArgs(state, values).value, s)) == Ok([])
  {
    InstanceArgsSpec(state, values);
    Rm.SoftUnfiltered(InstanceArgs(state, values).value, s);
  }

  /** Updating an instance whose row has a numeric `id` changes that row alone:
      `WHERE id = <id>` with `LIMIT 1`. */
  lemma InstanceUpdateTargetsRow(state: Props, values: Val, now: string)
    requires Readable(Lookup(state, "data")) && Get(Lookup(state, "data"), "id").Num? && !NotObjectLike(values)
    ensures SetError(InstanceArgs(state, Some(values)).value).None?
    ensures var p := U.UpdatePrepared(InstanceArgs(state, Some(values)).value, now);
            WhereClause(p) == Ok([Kw("WHERE "), Kw("id = "), Raw(Get(Lookup(state, "data"), "id"))]) &&
            Limit(WhereEffect(p), Undef) == [Kw("LIMIT "), Raw(Num(1))]
  {
    InstanceArgsSpec(state, Some(values));
    UpdateByIdAlone(InstanceArgs(state, Some(values)).value, now);
  }

  /** An update addressed by a numeric `id` alone. */
  lemma UpdateByIdAlone(a: Props, now: string)
    requires Lookup(a, "where") == Undef && Lookup(a, "id").Num? && !NotObjectLike(Lookup(a, "set"))
    ensures SetError(a).None?
    ensures var p := U.UpdatePrepared(a, now);
            WhereClause(p) == Ok([Kw("WHERE "), Kw("id = "), Raw(Lookup(a, "id"))]) &&
            Limit(WhereEffect(p), Undef) == [Kw("LIMIT "), Raw(Num(1))]
  {
    assert NotObjectLike(Lookup(a, "where")) && !IsNaN(Lookup(a, "id"));
    UpdateByIdWhere(a, now);
    U.UpdateById(a, now);
  }

  lemma UpdateByIdWhere(a: Props, now: string)
    requires SetError(a).None? && NotObjectLike(Lookup(a, "where")) && !IsNaN(Lookup(a, "id"))
    ensures WhereClause(U.UpdatePrepared(a, now)) == Ok([Kw("WHERE "), Kw("id = "), Raw(Lookup(a, "id"))])
  {
    var s := U.UpdateSet(a, now);
    Rm.SoftById(a, s);
    assert U.UpdatePrepared(a, now) == Rm.Replaced(a, s);
  }

  /** Updating an instance whose row has no numeric `id` has no WHERE and changes up to
      1000 rows of the table. */
  lemma InstanceUpdateWithoutId(state: Props, values: Val, now: string)
    requires Readable(Lookup(state, "data")) && IsNaN(Get(Lookup(state, "data"), "id")) && !NotObjectLike(values)
    ensures SetError(InstanceArgs(state, Some(values)).value).None?
    ensures var p := U.UpdatePrepared(InstanceArgs(state, Some(values)).value, now);
            WhereClause(p) == Ok([]) && Limit(WhereEffect(p), Undef) == [Kw("LIMIT "), Raw(Str("1000"))]
  {
    InstanceArgsSpec(state, Some(values));
    U.UpdateUnfiltered(InstanceArgs(state, Some(values)).value, now);
  }

  /** `get` with an array of keys succeeds exactly when there is no key or the row can be
      read, and then gives, position by position, what `get` gives for each key alone. */
  lemma ProjectEach(data: Val, items: seq<Val>, named: Props, i: int)
    ensures Project(data, Arr(items, named)).Ok? <==> |items| == 0 || Readable(data)
    ensures Project(data, Arr(items, named)).Ok? && 0 <= i < |items| ==>
              Project(data, Str(ToText(items[i]))).Ok? &&
              Project(data, Arr(items, named)).value.items[i] == Project(data, Str(ToText(items[i]))).value
    ensures !Project(data, Arr(items, named)).Ok? ==>
              Project(data, Arr(items, named)).error == Project(data, Str(ToText(items[0]))).error
  {
  }

  // ---------------------------------------------------------------- create and getModelDef

  /** As lib/insert.js is written, `create` throws for every `set` that is an object. */
  lemma CreateAlwaysThrows(state: Props, values: Val, now: string, response: QueryResult)
    requires NonEmptyString(Lookup(state, "model")) && !NotObjectLike(values)
    ensures I.InsertOutcome(CreateArgs(state, values), now, response) == Err(I.GetValueMissing)
  {
    var a := CreateArgs(state, values);
    LookupSkip(a, "set", 2);
    I.InsertAlwaysThrows(a, now, response);
  }

  /** `getModelDef` reads the column definitions of the model's own table: the model's
      database, its schema and its name, between quotes. */
  lemma ModelDefRendered(esc: Escaper, state: Props, response: QueryResult)
    requires NonEmptyString(Lookup(state, "model"))
    ensures D.DefOutcome(DefArgs(state), response).Ok?
    ensures var schema := if NonEmptyString(Lookup(state, "schema")) then Lookup(state, "schema").s else "public";
            Render(esc, D.DefOutcome(DefArgs(state), response).value.text) ==
              D.DefHead + ToText(Lookup(state, "database")) + D.SchemaGap + schema + D.ModelGap +
              Lookup(state, "model").s + D.DefEnd
  {
    var a := DefArgs(state);
    LookupSkip(a, "schema", 1);
    LookupSkip(a, "database", 2);
    D.DefRendered(esc, a, response);
  }
}
