/** Option validation and normalisation of lib/db.js, and the pool configuration it
    derives from the environment.  The validators check and rewrite the options object
    in place; the pool configuration is a function of the pool name and the environment,
    which is passed in as a map. */
module Db {
  import opened Js

  const InvalidOptions := Thrown("invalid options object")
  const InvalidModel := Thrown("you must specify a valid model")
  const InvalidSet := Thrown("you must specify a set object")
  const InvalidPoolName := Thrown("invalid pool name")

  predicate NonEmptyString(v: Val) {
    v.Str? && |v.s| > 0
  }

  /** `!v || typeof v !== 'object'`: what the validators reject as "not an object". */
  predicate NotObjectLike(v: Val) {
    !Truthy(v) || TypeOf(v) != "object"
  }

  // ---------------------------------------------------------------- validateOptions

  /** The defaults `validateOptions` writes: `schema` 'public' and `pool` 'default', each
      unless it already holds a non-empty string. */
  function Defaults(opts: Props): Props {
    var a := if NonEmptyString(Lookup(opts, "schema")) then opts else PutProp(opts, "schema", Str("public"));
    if NonEmptyString(Lookup(a, "pool")) then a else PutProp(a, "pool", Str("default"))
  }

  /** The defaults give a non-empty `schema` and `pool`, keep valid ones as they are, touch
      no other key, and a second application changes nothing. */
  lemma DefaultsSpec(opts: Props, k: string)
    ensures NonEmptyString(Lookup(Defaults(opts), "schema")) && NonEmptyString(Lookup(Defaults(opts), "pool"))
    ensures NonEmptyString(Lookup(opts, "schema")) ==> Lookup(Defaults(opts), "schema") == Lookup(opts, "schema")
    ensures !NonEmptyString(Lookup(opts, "schema")) ==> Lookup(Defaults(opts), "schema") == Str("public")
    ensures NonEmptyString(Lookup(opts, "pool")) ==> Lookup(Defaults(opts), "pool") == Lookup(opts, "pool")
    ensures !NonEmptyString(Lookup(opts, "pool")) ==> Lookup(Defaults(opts), "pool") == Str("default")
    ensures k != "schema" && k != "pool" ==> Lookup(Defaults(opts), k) == Lookup(opts, k)
    ensures Defaults(Defaults(opts)) == Defaults(opts)
  {
    var a := if NonEmptyString(Lookup(opts, "schema")) then opts else PutProp(opts, "schema", Str("public"));
    LookupPutProp(opts, "schema", Str("public"), k);
    LookupPutProp(opts, "schema", Str("public"), "schema");
    LookupPutProp(opts, "schema", Str("public"), "pool");
    LookupPutProp(a, "pool", Str("default"), k);
    LookupPutProp(a, "pool", Str("default"), "pool");
    LookupPutProp(a, "pool", Str("default"), "schema");
  }

  /** `db.validateOptions(options)`.  A null reference stands for an argument that is not
      an object.  The defaults are written before the model is checked, so they stay even
      when it throws. */
  method ValidateOptions(options: JsObject?) returns (r: Option<Error>)
    modifies options
    ensures options == null ==> r == Some(InvalidOptions)
    ensures options != null ==> options.props == Defaults(old(options.props))
    ensures options != null ==>
              r == if NonEmptyString(Lookup(old(options.props), "model")) then None else Some(InvalidModel)
  {
    if options == null {
      return Some(InvalidOptions);
    }
    LookupPutProp(options.props, "schema", Str("public"), "model");
    if !NonEmptyString(options.Read("schema")) {
      options.Put("schema", Str("public"));
    }
    LookupPutProp(options.props, "pool", Str("default"), "model");
    if !NonEmptyString(options.Read("pool")) {
      options.Put("pool", Str("default"));
    }
    if !NonEmptyString(options.Read("model")) {
      return Some(InvalidModel);
    }
    r := None;
  }

  // ---------------------------------------------------------------- the private where helper

  /** The `where` the helper works on: the caller's when it is an object, else `{}`. */
  function WhereObject(opts: Props): (w: Val)
    ensures IsObject(w)
  {
    var w0 := Lookup(opts, "where");
    if NotObjectLike(w0) then Obj([]) else w0
  }

  /** The options after the helper's first statement, which installs `{}` in place of a
      `where` that is not an object. */
  function InstallWhere(opts: Props): Props {
    if NotObjectLike(Lookup(opts, "where")) then PutProp(opts, "where", Obj([])) else opts
  }

  /** The private `where(options)`: a `where` that is not an object becomes `{}`, and a
      numeric `id` is copied into it and forces `limit` to 1. */
  function FoldId(opts: Props): (r: Props)
    ensures IsObject(Lookup(r, "where"))
  {
    var a := InstallWhere(opts);
    var id := Lookup(a, "id");
    InstallWhereSpec(opts, "where");
    if !IsNaN(id) then
      FoldIdNumeric(a, WhereObject(opts), "where");
      PutProp(PutProp(a, "where", SetProp(WhereObject(opts), "id", id)), "limit", Num(1))
    else a
  }

  /** After the helper, `where` is always an object; it carries the `id` exactly when
      `id` is numeric, and then `limit` is 1; nothing else is touched. */
  lemma FoldIdSpec(opts: Props, k: string)
    ensures IsObject(Lookup(FoldId(opts), "where")) && !NotObjectLike(Lookup(FoldId(opts), "where"))
    ensures !IsNaN(Lookup(opts, "id")) ==>
              Get(Lookup(FoldId(opts), "where"), "id") == Lookup(opts, "id") &&
              Lookup(FoldId(opts), "limit") == Num(1)
    ensures IsNaN(Lookup(opts, "id")) ==>
              Lookup(FoldId(opts), "limit") == Lookup(opts, "limit") &&
              Lookup(FoldId(opts), "where") == WhereObject(opts)
    ensures k != "where" && k != "limit" ==> Lookup(FoldId(opts), k) == Lookup(opts, k)
    ensures WhereObject(opts).Obj? ==> Lookup(FoldId(opts), "where").Obj?
  {
    var a := InstallWhere(opts);
    InstallWhereSpec(opts, k);
    InstallWhereSpec(opts, "id");
    InstallWhereSpec(opts, "limit");
    if !IsNaN(Lookup(opts, "id")) {
      FoldIdNumeric(a, WhereObject(opts), k);
    }
  }

  lemma InstallWhereSpec(opts: Props, k: string)
    ensures Lookup(InstallWhere(opts), "where") == WhereObject(opts)
    ensures k != "where" ==> Lookup(InstallWhere(opts), k) == Lookup(opts, k)
  {
    LookupPutProp(opts, "where", Obj([]), k);
    LookupPutProp(opts, "where", Obj([]), "where");
  }

  /** The second step of the helper, for a numeric `id`. */
  lemma FoldIdNumeric(a: Props, w: Val, k: string)
    requires IsObject(w)
    ensures var v := SetProp(w, "id", Lookup(a, "id"));
            var b := PutProp(PutProp(a, "where", v), "limit", Num(1));
            Lookup(b, "where") == v && Get(v, "id") == Lookup(a, "id") && Lookup(b, "limit") == Num(1) &&
            (k != "where" && k != "limit" ==> Lookup(b, k) == Lookup(a, k))
  {
    var v := SetProp(w, "id", Lookup(a, "id"));
    var b0 := PutProp(a, "where", v);
    LookupPutProp(a, "where", v, k);
    LookupPutProp(b0, "limit", Num(1), k);
    LookupPutProp(b0, "limit", Num(1), "where");
    LookupPutProp(b0, "limit", Num(1), "limit");
    LookupPutProp(a, "where", v, "where");
    SetPropGet(w, "id", Lookup(a, "id"));
  }

  /** The private `where(options)`, in place. */
  method FoldIdInto(options: JsObject)
    modifies options
    ensures options.props == FoldId(old(options.props))
  {
    var w := options.Read("where");
    if NotObjectLike(w) {
      w := Obj([]);
      options.Put("where", w);
    }
    var id := options.Read("id");
    if !IsNaN(id) {
      options.Put("where", SetProp(w, "id", id));
      options.Put("limit", Num(1));
    }
  }

  // ---------------------------------------------------------------- the four validators

  /** `db.validateSelectOptions`: the options checks, then the `where` helper. */
  method ValidateSelect(options: JsObject?) returns (r: Option<Error>)
    modifies options
    ensures options == null ==> r == Some(InvalidOptions)
    ensures options != null ==> r == if NonEmptyString(Lookup(old(options.props), "model")) then None else Some(InvalidModel)
    ensures options != null ==>
              options.props == if r.None? then FoldId(Defaults(old(options.props))) else Defaults(old(options.props))
  {
    r := ValidateOptions(options);
    if r.None? {
      FoldIdInto(options);
    }
  }

  /** The error `validateInsertOptions` gives for options that have passed
      `validateOptions`, if any. */
  function SetError(opts: Props): Option<Error> {
    if NotObjectLike(Lookup(opts, "set")) then Some(InvalidSet) else None
  }

  /** `db.validateInsertOptions`: the options checks, then `set` must be an object. */
  method ValidateInsert(options: JsObject?) returns (r: Option<Error>)
    modifies options
    ensures options == null ==> r == Some(InvalidOptions)
    ensures options != null ==> options.props == Defaults(old(options.props))
    ensures options != null ==>
              r == if !NonEmptyString(Lookup(old(options.props), "model")) then Some(InvalidModel)
                   else SetError(old(options.props))
  {
    ghost var before := if options == null then [] else options.props;
    r := ValidateOptions(options);
    if r.Some? {
      return;
    }
    DefaultsSpec(before, "set");
    var s := options.Read("set");
    if NotObjectLike(s) {
      return Some(InvalidSet);
    }
  }

  /** `db.validateUpdateOptions`: the insert checks, then the `where` helper.  Its own test
      of `where` can never throw, because the helper has just installed an object
      (`FoldIdSpec`). */
  method ValidateUpdate(options: JsObject?) returns (r: Option<Error>)
    modifies options
    ensures options == null ==> r == Some(InvalidOptions)
    ensures options != null ==>
              r == if !NonEmptyString(Lookup(old(options.props), "model")) then Some(InvalidModel)
                   else SetError(old(options.props))
    ensures options != null ==>
              options.props == if r.None? then FoldId(Defaults(old(options.props))) else Defaults(old(options.props))
  {
    r := ValidateInsert(options);
    if r.None? {
      FoldIdInto(options);
    }
  }

  /** `db.validateDeleteOptions`: the options checks, then the `where` helper.  As in
      `ValidateUpdate`, its own `where` test can never throw. */
  method ValidateDelete(options: JsObject?) returns (r: Option<Error>)
    modifies options
    ensures options == null ==> r == Some(InvalidOptions)
    ensures options != null ==> r == if NonEmptyString(Lookup(old(options.props), "model")) then None else Some(InvalidModel)
    ensures options != null ==>
              options.props == if r.None? then FoldId(Defaults(old(options.props))) else Defaults(old(options.props))
  {
    r := ValidateOptions(options);
    if r.None? {
      FoldIdInto(options);
    }
  }

  /** The validated schema's text. */
  lemma SchemaText(opts: Props)
    ensures ToText(Lookup(Defaults(opts), "schema")) ==
              (if NonEmptyString(Lookup(opts, "schema")) then Lookup(opts, "schema").s else "public")
  {
    DefaultsSpec(opts, "schema");
  }

  /** Options that name the validated schema and the caller's model give these texts. */
  lemma TableText(p: Props, opts: Props)
    requires NonEmptyString(Lookup(opts, "model"))
    requires Lookup(p, "schema") == Lookup(Defaults(opts), "schema") && Lookup(p, "model") == Lookup(opts, "model")
    ensures ToText(Lookup(p, "schema")) == (if NonEmptyString(Lookup(opts, "schema")) then Lookup(opts, "schema").s else "public")
    ensures ToText(Lookup(p, "model")) == Lookup(opts, "model").s
  {
    SchemaText(opts);
  }

  /** Validated options have a model, a schema and a pool that are non-empty strings and
      a `where` that is an object (so the "valid where object" errors cannot fire); with
      neither `where` nor a numeric `id` that object is empty. */
  lemma ValidatedShape(opts: Props)
    requires NonEmptyString(Lookup(opts, "model"))
    ensures var v := FoldId(Defaults(opts));
            NonEmptyString(Lookup(v, "model")) && NonEmptyString(Lookup(v, "schema")) &&
            NonEmptyString(Lookup(v, "pool")) && IsObject(Lookup(v, "where"))
    ensures NotObjectLike(Lookup(opts, "where")) && IsNaN(Lookup(opts, "id")) ==>
              Lookup(FoldId(Defaults(opts)), "where") == Obj([])
  {
    var d := Defaults(opts);
    DefaultsSpec(opts, "model");
    DefaultsSpec(opts, "where");
    DefaultsSpec(opts, "id");
    FoldIdSpec(d, "model");
    FoldIdSpec(d, "schema");
    FoldIdSpec(d, "pool");
  }

  // ---------------------------------------------------------------- validatePoolConfig

  /** A connection configuration: every field has been found to be a string. */
  datatype PoolConfig = PoolConfig(host: string, database: string, port: string, user: string, password: string)

  /** The configuration keys, in the order they are checked. */
  const ConfigKeys: seq<string> := ["host", "database", "port", "user", "password"]

  /** `env[name]`: the variable, or undefined when it is not set. */
  function EnvVal(env: map<string, string>, name: string): Val {
    if name in env then Str(env[name]) else Undef
  }

  /** `a || b` */
  function Or(a: Val, b: Val): Val {
    if Truthy(a) then a else b
  }

  /** The five values the configuration object holds for an upper-cased pool name. */
  function ConfigValues(name: string, env: map<string, string>): (vs: seq<Val>)
    ensures |vs| == 5
  {
    if name == "DEFAULT" then
      [EnvVal(env, "PGHOST"), EnvVal(env, "PGDATABASE"), EnvVal(env, "PGPORT"), EnvVal(env, "PGUSER"), EnvVal(env, "PGPASSWORD")]
    else
      [Or(EnvVal(env, "PG_" + name + "_HOST"), EnvVal(env, "PGHOST")),
       Or(EnvVal(env, "PG_" + name + "_DATABASE"), EnvVal(env, "PGDATABASE")),
       Or(EnvVal(env, "PG_" + name + "_PORT"), EnvVal(env, "PGPORT")),
       EnvVal(env, "PG_" + name + "_USER"),
       EnvVal(env, "PG_" + name + "_PASSWORD")]
  }

  /** The message for a configuration value that is not a string. */
  function MissingMessage(name: string, key: string): string {
    if name == "DEFAULT" then "environment variable PG" + Upper(key) + " not found"
    else "environment variable PG_" + name + "_" + Upper(key) + " not found"
  }

  /** The index of the first value that is not a string, if any. */
  function FirstMissing(vs: seq<Val>, from: nat): (r: Option<nat>)
    requires from <= |vs|
    ensures r.Some? ==> from <= r.value < |vs| && !vs[r.value].Str? &&
                        forall i :: from <= i < r.value ==> vs[i].Str?
    ensures r.None? ==> forall i :: from <= i < |vs| ==> vs[i].Str?
    decreases |vs| - from
  {
    if from == |vs| then None
    else if !vs[from].Str? then Some(from)
    else FirstMissing(vs, from + 1)
  }

  /** `validatePoolConfig(name)`: the configuration for a pool, or the error naming the
      first configuration value, in the order host, database, port, user, password, that
      the environment does not supply. */
  function ValidatePoolConfig(name: Val, env: map<string, string>): (r: Result<PoolConfig>)
    ensures !NonEmptyString(name) ==> r == Err(InvalidPoolName)
    ensures NonEmptyString(name) ==>
              var vs := ConfigValues(Upper(name.s), env);
              (r.Ok? <==> forall i :: 0 <= i < 5 ==> vs[i].Str?) &&
              (r.Ok? ==> r.value == PoolConfig(vs[0].s, vs[1].s, vs[2].s, vs[3].s, vs[4].s)) &&
              (r.Err? ==> exists i :: 0 <= i < 5 && !vs[i].Str? && (forall j :: 0 <= j < i ==> vs[j].Str?) &&
                                      r.error == Thrown(MissingMessage(Upper(name.s), ConfigKeys[i])))
  {
    if !NonEmptyString(name) then Err(InvalidPoolName)
    else
      var n := Upper(name.s);
      var vs := ConfigValues(n, env);
      match FirstMissing(vs, 0)
      case Some(i) => Err(Thrown(MissingMessage(n, ConfigKeys[i])))
      case None => Ok(PoolConfig(vs[0].s, vs[1].s, vs[2].s, vs[3].s, vs[4].s))
  }

  /** The default pool, named in any letter case, reads the five PG variables. */
  lemma DefaultPool(name: string, env: map<string, string>)
    requires Upper(name) == "DEFAULT"
    requires "PGHOST" in env && "PGDATABASE" in env && "PGPORT" in env && "PGUSER" in env && "PGPASSWORD" in env
    ensures ValidatePoolConfig(Str(name), env) ==
              Ok(PoolConfig(env["PGHOST"], env["PGDATABASE"], env["PGPORT"], env["PGUSER"], env["PGPASSWORD"]))
  {
    var vs := ConfigValues(Upper(name), env);
    assert forall i :: 0 <= i < 5 ==> vs[i].Str?;
  }

  /** A named pool takes host, database and port from its own variables when they are
      non-empty and from the PG ones otherwise, but needs its own user and password. */
  lemma NamedPool(name: string, env: map<string, string>)
    requires name != "" && Upper(name) != "DEFAULT"
    ensures var n := Upper(name);
            var r := ValidatePoolConfig(Str(name), env);
            r.Ok? ==>
              ("PG_" + n + "_USER") in env && r.value.user == env["PG_" + n + "_USER"] &&
              ("PG_" + n + "_PASSWORD") in env && r.value.password == env["PG_" + n + "_PASSWORD"] &&
              r.value.host == (if ("PG_" + n + "_HOST") in env && env["PG_" + n + "_HOST"] != "" then env["PG_" + n + "_HOST"] else env["PGHOST"])
    ensures var n := Upper(name);
            "PGHOST" in env && "PGDATABASE" in env && "PGPORT" in env && ("PG_" + n + "_USER") !in env ==>
              ValidatePoolConfig(Str(name), env) == Err(Thrown("environment variable PG_" + n + "_USER not found"))
  {
    var n := Upper(name);
    var vs := ConfigValues(n, env);
    var r := ValidatePoolConfig(Str(name), env);
    if r.Ok? {
      assert vs[0].Str? && vs[3].Str? && vs[4].Str?;
      assert r.value.host == vs[0].s && r.value.user == vs[3].s && r.value.password == vs[4].s;
    }
    if "PGHOST" in env && "PGDATABASE" in env && "PGPORT" in env && ("PG_" + n + "_USER") !in env {
      assert vs[0].Str? && vs[1].Str? && vs[2].Str? && !vs[3].Str?;
      assert FirstMissing(vs, 0) == Some(3);
      assert ConfigKeys[3] == "user";
      assert Upper("user") == "USER";
    }
  }
}
