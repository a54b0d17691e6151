/** lib/update.js: validates the options, stamps `updated_at` (and `updated_by`) into
    `set`, and sends one transaction: an UPDATE joined to a limited sub-select of the
    rows to change, then a SELECT of the most recently updated rows.  What it returns
    is the rows of that follow-up SELECT. */
module Update {
  import opened Js
  import opened Sql
  import opened Parse
  import opened Db
  import opened Audit

  /** The `set` object once stamped, for options that passed validation. */
  function UpdateSet(opts: Props, now: string): (s: Val)
    requires SetError(opts).None?
    ensures IsObject(s)
  {
    NamedKey("updated_at");
    NamedKey("updated_by");
    Stamp(Lookup(opts, "set"), "updated_at", "updated_by", now, Lookup(opts, "userId"))
  }

  /** The options once validated and stamped, as the clause builders first see them. */
  function UpdatePrepared(opts: Props, now: string): Props
    requires SetError(opts).None?
  {
    PutProp(FoldId(Defaults(opts)), "set", UpdateSet(opts, now))
  }

  /** Up to the sub-select's WHERE, for the options before `parse.where` runs. */
  function UpdateHead(p: Props): seq<Piece> {
    var table := Table(Lookup(p, "schema"), Lookup(p, "model"));
    [Kw("\n        BEGIN;\n            UPDATE ")] + table + [Kw("\n                ")] + SetClause(p) +
    [Kw("\n                FROM (\n                    SELECT *\n                    FROM ")] + table +
    [Kw("\n                    ")]
  }

  /** After the sub-select's WHERE: both LIMITs are read after `parse.where` has run. */
  function UpdateTail(q: Props): seq<Piece> {
    var table := Table(Lookup(q, "schema"), Lookup(q, "model"));
    [Kw("\n                    ")] + Limit(q, Undef) + [Kw("\n                ) sub\n                WHERE ")] + table +
    [Kw(".id = sub.id;\n            SELECT *\n                FROM ")] + table +
    [Kw("\n                ORDER BY updated_at DESC\n                ")] + Limit(q, Undef) +
    [Kw(";\n        END;\n    ")]
  }

  /** The statement `update` sends for an options object, or the error it throws first. */
  function UpdateStatement(opts: Props, now: string): Result<seq<Piece>> {
    if !NonEmptyString(Lookup(opts, "model")) then Err(InvalidModel)
    else if SetError(opts).Some? then Err(InvalidSet)
    else
      var p := UpdatePrepared(opts, now);
      match WhereClause(p)
      case Err(e) => Err(e)
      case Ok(w) => Ok(UpdateHead(p) + w + UpdateTail(WhereEffect(p)))
  }

  /** What `update` leaves in the options object. */
  function UpdateEffect(opts: Props, now: string): Props {
    if !NonEmptyString(Lookup(opts, "model")) || SetError(opts).Some? then Defaults(opts)
    else WhereEffect(UpdatePrepared(opts, now))
  }

  /** `results[2].rows`: the rows of the third statement's result, the follow-up SELECT. */
  function FollowUpRows(results: seq<QueryResult>): Result<seq<Val>> {
    if |results| > 2 then Ok(results[2].rows)
    else Err(TypeError("Cannot read properties of undefined (reading 'rows')"))
  }

  /** What `update(options)` gives for the per-statement results the database answers. */
  function UpdateOutcome(opts: Props, now: string, results: seq<QueryResult>): Result<Call<seq<Val>>> {
    match UpdateStatement(opts, now)
    case Err(e) => Err(e)
    case Ok(text) =>
      match FollowUpRows(results)
      case Err(e) => Err(e)
      case Ok(rows) => Ok(Call(text, rows))
  }

  /** Lines 27-31 of lib/update.js: validation, then the stamps. */
  method Prepare(options: JsObject?, now: string) returns (r: Option<Error>)
    modifies options
    ensures options == null ==> r == Some(InvalidOptions)
    ensures options != null ==>
              r == if !NonEmptyString(Lookup(old(options.props), "model")) then Some(InvalidModel)
                   else SetError(old(options.props))
    ensures options != null && r.Some? ==> options.props == Defaults(old(options.props))
    ensures options != null && r.None? ==> options.props == UpdatePrepared(old(options.props), now)
  {
    ghost var before := if options == null then [] else options.props;
    r := ValidateUpdate(options);
    if r.Some? {
      return;
    }
    DefaultsSpec(before, "set");
    DefaultsSpec(before, "userId");
    FoldIdSpec(Defaults(before), "set");
    FoldIdSpec(Defaults(before), "userId");
    NamedKey("updated_at");
    NamedKey("updated_by");
    StampInto(options, "updated_at", "updated_by", now);
  }

  /** `update(options)`.  A null reference stands for an argument that is not an object
      and `now` for `new Date().toISOString()`. */
  method Update(options: JsObject?, now: string, results: seq<QueryResult>) returns (r: Result<Call<seq<Val>>>)
    modifies options
    ensures options == null ==> r == Err(InvalidOptions)
    ensures options != null ==> options.props == UpdateEffect(old(options.props), now)
    ensures options != null ==> r == UpdateOutcome(old(options.props), now, results)
  {
    var err := Prepare(options, now);
    if err.Some? {
      return Err(err.value);
    }
    var p := options.props;
    var where := Where(options);
    if where.Err? {
      return Err(where.error);
    }
    var text := UpdateHead(p) + where.value + UpdateTail(options.props);
    var rows := FollowUpRows(results);
    if rows.Err? {
      return Err(rows.error);
    }
    r := Ok(Call(text, rows.value));
  }

  // ---------------------------------------------------------------- properties

  /** `set` gains `updated_at = now`, and `updated_by = userId` exactly when `userId` is
      truthy; every other property of `set` is kept. */
  lemma UpdateStamps(opts: Props, now: string, k: string)
    requires SetError(opts).None?
    ensures var s := UpdateSet(opts, now);
            Get(s, "updated_at") == Str(now) &&
            (Truthy(Lookup(opts, "userId")) ==> Get(s, "updated_by") == Lookup(opts, "userId")) &&
            (!Truthy(Lookup(opts, "userId")) ==> Get(s, "updated_by") == Get(Lookup(opts, "set"), "updated_by")) &&
            (k != "updated_at" && k != "updated_by" ==> Get(s, k) == Get(Lookup(opts, "set"), k))
  {
    NamedKey("updated_at");
    NamedKey("updated_by");
    StampSpec(Lookup(opts, "set"), "updated_at", "updated_by", now, Lookup(opts, "userId"), k);
  }

  /** Stamping touches only `set`: every other option is as validation left it. */
  lemma UpdatePreparedKeeps(opts: Props, now: string, k: string)
    requires SetError(opts).None? && k != "set"
    ensures Lookup(UpdatePrepared(opts, now), k) == Lookup(FoldId(Defaults(opts)), k)
    ensures Lookup(UpdatePrepared(opts, now), "set") == UpdateSet(opts, now)
  {
    LookupPutProp(FoldId(Defaults(opts)), "set", UpdateSet(opts, now), k);
    LookupPutProp(FoldId(Defaults(opts)), "set", UpdateSet(opts, now), "set");
  }

  /** What comes back is read from the third result alone, the follow-up SELECT: the
      results of BEGIN and of the UPDATE itself play no part. */
  lemma UpdateReturnsFollowUp(opts: Props, now: string, results: seq<QueryResult>, other: seq<QueryResult>)
    requires |results| > 2 && |other| > 2 && results[2] == other[2]
    ensures UpdateOutcome(opts, now, results) == UpdateOutcome(opts, now, other)
  {
  }

  /** The rendered transaction.  The UPDATE assigns the SET clause of the stamped `set`;
      the sub-select that picks the rows carries the WHERE clause of the prepared options;
      the sub-select and the follow-up SELECT carry the same LIMIT, read after that WHERE
      clause has been compiled; every table reference is the validated schema and the
      model. */
  lemma UpdateTextRender(esc: Escaper, opts: Props, now: string)
    requires UpdateStatement(opts, now).Ok?
    ensures NonEmptyString(Lookup(opts, "model")) && SetError(opts).None? && WhereClause(UpdatePrepared(opts, now)).Ok?
    ensures var p := UpdatePrepared(opts, now);
            var schema := if NonEmptyString(Lookup(opts, "schema")) then Lookup(opts, "schema").s else "public";
            var table := schema + "." + Lookup(opts, "model").s;
            var limit := Render(esc, Limit(WhereEffect(p), Undef));
            var head := "\n        BEGIN;\n            UPDATE " + table + "\n                " + Render(esc, SetClause(p)) +
                        "\n                FROM (\n                    SELECT *\n                    FROM " + table + "\n                    ";
            var tail := "\n                    " + limit + "\n                ) sub\n                WHERE " + table +
                        ".id = sub.id;\n            SELECT *\n                FROM " + table +
                        "\n                ORDER BY updated_at DESC\n                " + limit + ";\n        END;\n    ";
            Render(esc, UpdateStatement(opts, now).value) == head + Render(esc, WhereClause(p).value) + tail
  {
    var p := UpdatePrepared(opts, now);
    var q := WhereEffect(p);
    var w := WhereClause(p).value;
    UpdateShape(opts, now);
    UpdateTableKept(opts, now);
    RenderTable(esc, Lookup(p, "schema"), Lookup(p, "model"));
    UpdateHeadRender(esc, p);
    UpdateTailRender(esc, q);
    RenderAppend(esc, UpdateHead(p) + w, UpdateTail(q));
    RenderAppend(esc, UpdateHead(p), w);
  }

  lemma UpdateShape(opts: Props, now: string)
    requires UpdateStatement(opts, now).Ok?
    ensures NonEmptyString(Lookup(opts, "model")) && SetError(opts).None? && WhereClause(UpdatePrepared(opts, now)).Ok?
    ensures var p := UpdatePrepared(opts, now);
            UpdateStatement(opts, now).value == UpdateHead(p) + WhereClause(p).value + UpdateTail(WhereEffect(p))
  {
  }

  /** Both the options before and after `parse.where` name the validated schema and the
      model. */
  lemma UpdateTableKept(opts: Props, now: string)
    requires NonEmptyString(Lookup(opts, "model")) && SetError(opts).None?
    ensures var p := UpdatePrepared(opts, now);
            Table(Lookup(WhereEffect(p), "schema"), Lookup(WhereEffect(p), "model")) == Table(Lookup(p, "schema"), Lookup(p, "model"))
    ensures var p := UpdatePrepared(opts, now);
            ToText(Lookup(p, "schema")) == (if NonEmptyString(Lookup(opts, "schema")) then Lookup(opts, "schema").s else "public") &&
            ToText(Lookup(p, "model")) == Lookup(opts, "model").s
  {
    var p := UpdatePrepared(opts, now);
    UpdatePreparedTable(opts, now);
    WhereEffectKeeps(p, "schema");
    WhereEffectKeeps(p, "model");
  }

  lemma UpdatePreparedTable(opts: Props, now: string)
    requires NonEmptyString(Lookup(opts, "model")) && SetError(opts).None?
    ensures var p := UpdatePrepared(opts, now);
            ToText(Lookup(p, "schema")) == (if NonEmptyString(Lookup(opts, "schema")) then Lookup(opts, "schema").s else "public") &&
            ToText(Lookup(p, "model")) == Lookup(opts, "model").s
  {
    UpdatePreparedTableKeys(opts, now);
    TableText(UpdatePrepared(opts, now), opts);
  }

  lemma UpdatePreparedTableKeys(opts: Props, now: string)
    requires SetError(opts).None?
    ensures Lookup(UpdatePrepared(opts, now), "schema") == Lookup(Defaults(opts), "schema")
    ensures Lookup(UpdatePrepared(opts, now), "model") == Lookup(opts, "model")
  {
    UpdatePreparedKeeps(opts, now, "schema");
    UpdatePreparedKeeps(opts, now, "model");
    FoldIdSpec(Defaults(opts), "schema");
    FoldIdSpec(Defaults(opts), "model");
    DefaultsSpec(opts, "model");
  }

  lemma UpdateHeadRender(esc: Escaper, p: Props)
    ensures var table := Render(esc, Table(Lookup(p, "schema"), Lookup(p, "model")));
            Render(esc, UpdateHead(p)) ==
              "\n        BEGIN;\n            UPDATE " + table + "\n                " + Render(esc, SetClause(p)) +
              "\n                FROM (\n                    SELECT *\n                    FROM " + table + "\n                    "
  {
    var table := Table(Lookup(p, "schema"), Lookup(p, "model"));
    var x1 := [Kw("\n        BEGIN;\n            UPDATE ")] + table;
    var x2 := x1 + [Kw("\n                ")];
    var x3 := x2 + SetClause(p);
    var x4 := x3 + [Kw("\n                FROM (\n                    SELECT *\n                    FROM ")];
    var x5 := x4 + table;
    assert UpdateHead(p) == x5 + [Kw("\n                    ")];
    RenderBetween(esc, "\n        BEGIN;\n            UPDATE ", table, "");
    RenderThenKw(esc, x1, "\n                ");
    RenderAppend(esc, x2, SetClause(p));
    RenderThenKw(esc, x3, "\n                FROM (\n                    SELECT *\n                    FROM ");
    RenderAppend(esc, x4, table);
    RenderThenKw(esc, x5, "\n                    ");
  }

  lemma UpdateTailRender(esc: Escaper, q: Props)
    ensures var table := Render(esc, Table(Lookup(q, "schema"), Lookup(q, "model")));
            var limit := Render(esc, Limit(q, Undef));
            Render(esc, UpdateTail(q)) ==
              "\n                    " + limit + "\n                ) sub\n                WHERE " + table +
              ".id = sub.id;\n            SELECT *\n                FROM " + table +
              "\n                ORDER BY updated_at DESC\n                " + limit + ";\n        END;\n    "
  {
    var table := Table(Lookup(q, "schema"), Lookup(q, "model"));
    var limit := Limit(q, Undef);
    var x1 := [Kw("\n                    ")] + limit;
    var x2 := x1 + [Kw("\n                ) sub\n                WHERE ")];
    var x3 := x2 + table;
    var x4 := x3 + [Kw(".id = sub.id;\n            SELECT *\n                FROM ")];
    var x5 := x4 + table;
    var x6 := x5 + [Kw("\n                ORDER BY updated_at DESC\n                ")];
    var x7 := x6 + limit;
    assert UpdateTail(q) == x7 + [Kw(";\n        END;\n    ")];
    RenderBetween(esc, "\n                    ", limit, "");
    RenderThenKw(esc, x1, "\n                ) sub\n                WHERE ");
    RenderAppend(esc, x2, table);
    RenderThenKw(esc, x3, ".id = sub.id;\n            SELECT *\n                FROM ");
    RenderAppend(esc, x4, table);
    RenderThenKw(esc, x5, "\n                ORDER BY updated_at DESC\n                ");
    RenderAppend(esc, x6, limit);
    RenderThenKw(esc, x7, ";\n        END;\n    ");
  }

  /** A numeric `id` makes both LIMITs `LIMIT 1`: the `where` helper sets it, and
      `parse.where` runs before either LIMIT is read. */
  lemma UpdateById(opts: Props, now: string)
    requires SetError(opts).None? && !IsNaN(Lookup(opts, "id"))
    ensures Limit(WhereEffect(UpdatePrepared(opts, now)), Undef) == [Kw("LIMIT "), Raw(Num(1))]
  {
    DefaultsSpec(opts, "id");
    FoldIdSpec(Defaults(opts), "limit");
    UpdatePreparedKeeps(opts, now, "limit");
    LimitOneKept(UpdatePrepared(opts, now));
  }

  /** With neither a `where` object nor a numeric `id`, the sub-select has no WHERE and
      picks up to 1000 rows (unless the caller set a limit). */
  lemma UpdateUnfiltered(opts: Props, now: string)
    requires SetError(opts).None?
    requires NotObjectLike(Lookup(opts, "where")) && IsNaN(Lookup(opts, "id")) && Lookup(opts, "limit") == Undef
    ensures WhereClause(UpdatePrepared(opts, now)) == Ok([])
    ensures WhereEffect(UpdatePrepared(opts, now)) == UpdatePrepared(opts, now)
    ensures Limit(UpdatePrepared(opts, now), Undef) == [Kw("LIMIT "), Raw(Str("1000"))]
  {
    var d := Defaults(opts);
    DefaultsSpec(opts, "where");
    DefaultsSpec(opts, "id");
    DefaultsSpec(opts, "limit");
    FoldIdSpec(d, "id");
    FoldIdSpec(d, "limit");
    UpdatePreparedKeeps(opts, now, "where");
    UpdatePreparedKeeps(opts, now, "id");
    UpdatePreparedKeeps(opts, now, "limit");
    WhereEmpty(UpdatePrepared(opts, now));
  }
}
