/** lib/select.js: validates the options, adds the default soft-delete filter to
    `where`, and lays out the SELECT statement.  The statement's result comes from the
    database and is a parameter here. */
module Select {
  import opened Js
  import opened Sql
  import opened Parse
  import opened Db

  /** `!options.where.deleted_at && !options.deleted`, for options whose `where` can be
      read (after validation it always can). */
  predicate AddsDeletedFilter(opts: Props) {
    var w := Lookup(opts, "where");
    Readable(w) && !Truthy(Get(w, "deleted_at")) && !Truthy(Lookup(opts, "deleted"))
  }

  /** `options.where.deleted_at = 'is null'` when the filter goes in. */
  function InjectFilter(opts: Props): (r: Props)
    requires IsObject(Lookup(opts, "where"))
    ensures IsObject(Lookup(r, "where"))
  {
    var w := Lookup(opts, "where");
    LookupPutProp(opts, "where", SetProp(w, "deleted_at", Str("is null")), "where");
    if AddsDeletedFilter(opts) then PutProp(opts, "where", SetProp(w, "deleted_at", Str("is null")))
    else opts
  }

  /** The options once validated and filtered, as the clause builders first see them. */
  function Prepared(opts: Props): Props {
    InjectFilter(FoldId(Defaults(opts)))
  }

  /** The statement text, for the options before (`p`) and after (`q`) `parse.where`. */
  function SelectText(p: Props, where: seq<Piece>, q: Props): seq<Piece> {
    SelectHead(p) + where + SelectTail(q)
  }

  /** Up to the WHERE clause.  The projection is built from `options.columns`, not from
      `options`. */
  function SelectHead(p: Props): seq<Piece> {
    [Kw("\n        SELECT ")] + Columns(Lookup(p, "columns")) +
    [Kw("\n        FROM ")] + Table(Lookup(p, "schema"), Lookup(p, "model")) + [Kw("\n        ")]
  }

  /** After the WHERE clause: OFFSET, GROUP BY, ORDER BY and LIMIT, in that order. */
  function SelectTail(q: Props): seq<Piece> {
    [Kw("\n        ")] + Offset(q) + [Kw("\n        ")] + Group(q) + [Kw("\n        ")] + Order(q) +
    [Kw("\n        ")] + Limit(q, Undef) + [Kw("\n    ")]
  }

  /** The statement `select` sends for an options object, or the error it throws. */
  function SelectStatement(opts: Props): Result<seq<Piece>> {
    if !NonEmptyString(Lookup(opts, "model")) then Err(InvalidModel)
    else
      var p := Prepared(opts);
      match WhereClause(p)
      case Err(e) => Err(e)
      case Ok(w) => Ok(SelectText(p, w, WhereEffect(p)))
  }

  /** What `select` leaves in the options object. */
  function SelectEffect(opts: Props): Props {
    if !NonEmptyString(Lookup(opts, "model")) then Defaults(opts) else WhereEffect(Prepared(opts))
  }

  /** `select(options)`.  A null reference stands for an argument that is not an object;
      `response` is what the database answers. */
  method Select(options: JsObject?, response: QueryResult) returns (r: Result<Call<Selected>>)
    modifies options
    ensures options == null ==> r == Err(InvalidOptions)
    ensures options != null ==> options.props == SelectEffect(old(options.props))
    ensures options != null ==>
              r == match SelectStatement(old(options.props))
                   case Err(e) => Err(e)
                   case Ok(text) => Ok(Call(text, Reshape(response)))
  {
    var err := ValidateSelect(options);
    if err.Some? {
      return Err(err.value);
    }
    FoldIdSpec(Defaults(old(options.props)), "where");
    var w := options.Read("where");
    if !Truthy(Get(w, "deleted_at")) && !Truthy(options.Read("deleted")) {
      options.Put("where", SetProp(w, "deleted_at", Str("is null")));
    }
    var p := options.props;
    var where := Where(options);
    if where.Err? {
      return Err(where.error);
    }
    r := Ok(Call(SelectText(p, where.value, options.props), Reshape(response)));
  }

  // ---------------------------------------------------------------- properties

  /** Preparing touches only `where` and `limit`. */
  lemma PreparedKeeps(opts: Props, k: string)
    requires k != "where" && k != "limit" && k != "schema" && k != "pool"
    ensures Lookup(Prepared(opts), k) == Lookup(opts, k)
    ensures Lookup(WhereEffect(Prepared(opts)), k) == Lookup(opts, k)
  {
    var d := Defaults(opts);
    var v := FoldId(d);
    DefaultsSpec(opts, k);
    FoldIdSpec(d, k);
    FoldIdSpec(d, "where");
    LookupPutProp(v, "where", SetProp(Lookup(v, "where"), "deleted_at", Str("is null")), k);
    WhereForcesLimit(Prepared(opts), Undef);
    LookupPutProp(Prepared(opts), "limit", Num(1), k);
  }

  /** The statement is the head, the compiled WHERE of the prepared options and the tail
      read after that WHERE has run. */
  lemma SelectShape(opts: Props)
    requires SelectStatement(opts).Ok?
    ensures NonEmptyString(Lookup(opts, "model")) && WhereClause(Prepared(opts)).Ok?
    ensures var p := Prepared(opts);
            SelectStatement(opts).value == SelectHead(p) + WhereClause(p).value + SelectTail(WhereEffect(p))
  {
  }

  /** The rendered statement: the projection of `options.columns`, the table under the
      validated schema, the WHERE clause of the filtered options, then the caller's own
      OFFSET, GROUP BY and ORDER BY, and last the LIMIT read after the WHERE clause has
      been compiled. */
  lemma SelectTextRender(esc: Escaper, opts: Props)
    requires SelectStatement(opts).Ok?
    ensures NonEmptyString(Lookup(opts, "model"))
    ensures var p := Prepared(opts);
            var schema := if NonEmptyString(Lookup(opts, "schema")) then Lookup(opts, "schema").s else "public";
            var table := schema + "." + Lookup(opts, "model").s;
            var head := "\n        SELECT " + Render(esc, Columns(Lookup(opts, "columns"))) + "\n        FROM " + table + "\n        ";
            var tail := "\n        " + Render(esc, Offset(opts)) + "\n        " + Render(esc, Group(opts)) +
                        "\n        " + Render(esc, Order(opts)) + "\n        " + Render(esc, Limit(WhereEffect(p), Undef)) + "\n    ";
            Render(esc, SelectStatement(opts).value) == head + Render(esc, WhereClause(p).value) + tail
  {
    SelectShape(opts);
    var p := Prepared(opts);
    var q := WhereEffect(p);
    var w := WhereClause(p).value;
    SelectPartsKept(opts);
    assert Offset(q) == Offset(opts) && Group(q) == Group(opts) && Order(q) == Order(opts);
    RenderTable(esc, Lookup(p, "schema"), Lookup(p, "model"));
    SelectHeadRender(esc, p);
    SelectTailRender(esc, q);
    RenderAppend(esc, SelectHead(p) + w, SelectTail(q));
    RenderAppend(esc, SelectHead(p), w);
  }

  /** What the head and the tail read from the prepared options is the caller's. */
  lemma SelectPartsKept(opts: Props)
    requires NonEmptyString(Lookup(opts, "model"))
    ensures var p := Prepared(opts);
            var q := WhereEffect(p);
            Lookup(p, "columns") == Lookup(opts, "columns") && Lookup(q, "offset") == Lookup(opts, "offset") &&
            Lookup(q, "group") == Lookup(opts, "group") && Lookup(q, "order") == Lookup(opts, "order")
    ensures var p := Prepared(opts);
            ToText(Lookup(p, "schema")) == (if NonEmptyString(Lookup(opts, "schema")) then Lookup(opts, "schema").s else "public") &&
            ToText(Lookup(p, "model")) == Lookup(opts, "model").s
  {
    PreparedKeeps(opts, "columns");
    PreparedKeeps(opts, "offset");
    PreparedKeeps(opts, "group");
    PreparedKeeps(opts, "order");
    PreparedTable(opts);
  }

  lemma PreparedTable(opts: Props)
    requires NonEmptyString(Lookup(opts, "model"))
    ensures ToText(Lookup(Prepared(opts), "schema")) ==
              (if NonEmptyString(Lookup(opts, "schema")) then Lookup(opts, "schema").s else "public")
    ensures ToText(Lookup(Prepared(opts), "model")) == Lookup(opts, "model").s
  {
    PreparedSchema(opts);
    TableText(Prepared(opts), opts);
  }

  lemma PreparedSchema(opts: Props)
    ensures Lookup(Prepared(opts), "schema") == Lookup(Defaults(opts), "schema")
    ensures Lookup(Prepared(opts), "model") == Lookup(opts, "model")
  {
    var v := FoldId(Defaults(opts));
    var filtered := SetProp(Lookup(v, "where"), "deleted_at", Str("is null"));
    DefaultsSpec(opts, "model");
    FoldIdSpec(Defaults(opts), "schema");
    FoldIdSpec(Defaults(opts), "model");
    LookupPutProp(v, "where", filtered, "schema");
    LookupPutProp(v, "where", filtered, "model");
  }

  lemma SelectHeadRender(esc: Escaper, p: Props)
    ensures Render(esc, SelectHead(p)) ==
            "\n        SELECT " + Render(esc, Columns(Lookup(p, "columns"))) +
            "\n        FROM " + Render(esc, Table(Lookup(p, "schema"), Lookup(p, "model"))) + "\n        "
  {
    RenderAlternating(esc, "\n        SELECT ", Columns(Lookup(p, "columns")), "\n        FROM ",
                      Table(Lookup(p, "schema"), Lookup(p, "model")), "\n        ");
  }

  lemma SelectTailRender(esc: Escaper, q: Props)
    ensures Render(esc, SelectTail(q)) ==
            "\n        " + Render(esc, Offset(q)) + "\n        " + Render(esc, Group(q)) +
            "\n        " + Render(esc, Order(q)) + "\n        " + Render(esc, Limit(q, Undef)) + "\n    "
  {
    var n := [Kw("\n        ")];
    var x1 := n + Offset(q);
    var x2 := x1 + n;
    var x3 := x2 + Group(q);
    var x4 := x3 + n;
    var x5 := x4 + Order(q);
    var x6 := x5 + n;
    var x7 := x6 + Limit(q, Undef);
    assert SelectTail(q) == x7 + [Kw("\n    ")];
    RenderBetween(esc, "\n        ", Offset(q), "");
    RenderThenKw(esc, x1, "\n        ");
    RenderAppend(esc, x2, Group(q));
    RenderThenKw(esc, x3, "\n        ");
    RenderAppend(esc, x4, Order(q));
    RenderThenKw(esc, x5, "\n        ");
    RenderAppend(esc, x6, Limit(q, Undef));
    RenderThenKw(esc, x7, "\n    ");
  }

  /** Unless the caller filters on `deleted_at` or asks for deleted rows, the filter step
      puts `deleted_at: 'is null'` into `where`; otherwise it changes nothing.  A plain
      object stays a plain object. */
  lemma FilterStep(v: Props)
    requires IsObject(Lookup(v, "where"))
    ensures AddsDeletedFilter(v) ==> Get(Lookup(InjectFilter(v), "where"), "deleted_at") == Str("is null")
    ensures Lookup(v, "where").Obj? ==> Lookup(InjectFilter(v), "where").Obj?
    ensures !AddsDeletedFilter(v) ==> InjectFilter(v) == v
  {
    var w := Lookup(v, "where");
    LookupPutProp(v, "where", SetProp(w, "deleted_at", Str("is null")), "where");
    SetPropGet(w, "deleted_at", Str("is null"));
  }

  /** For a caller whose `where` is a plain object or missing: unless it filters on
      `deleted_at` or asks for deleted rows, the prepared `where` holds `deleted_at:
      'is null'`. */
  lemma DefaultFilter(opts: Props)
    requires Lookup(opts, "where").Obj? || NotObjectLike(Lookup(opts, "where"))
    ensures Lookup(Prepared(opts), "where").Obj?
    ensures AddsDeletedFilter(FoldId(Defaults(opts))) ==>
              Get(Lookup(Prepared(opts), "where"), "deleted_at") == Str("is null")
    ensures !AddsDeletedFilter(FoldId(Defaults(opts))) ==> Prepared(opts) == FoldId(Defaults(opts))
  {
    var d := Defaults(opts);
    DefaultsSpec(opts, "where");
    FoldIdSpec(d, "where");
    FilterStep(FoldId(d));
  }

  /** The filter survives into the statement text. */
  lemma DefaultFilterInText(opts: Props)
    requires SelectStatement(opts).Ok?
    requires Lookup(opts, "where").Obj? || NotObjectLike(Lookup(opts, "where"))
    requires AddsDeletedFilter(FoldId(Defaults(opts)))
    ensures Contains(SelectStatement(opts).value, [Ident("deleted_at"), Kw(" IS NULL")])
  {
    SelectShape(opts);
    var p := Prepared(opts);
    DefaultFilter(opts);
    FilterInWhere(p);
    ContainsMiddle(SelectHead(p), WhereClause(p).value, SelectTail(WhereEffect(p)), [Ident("deleted_at"), Kw(" IS NULL")]);
  }

  /** A plain-object `where` holding `deleted_at: 'is null'` compiles to a clause with the
      term `deleted_at IS NULL`. */
  lemma FilterInWhere(p: Props)
    requires Lookup(p, "where").Obj? && Get(Lookup(p, "where"), "deleted_at") == Str("is null")
    requires WhereClause(p).Ok?
    ensures Contains(WhereClause(p).value, [Ident("deleted_at"), Kw(" IS NULL")])
  {
    var es := OwnEntries(Lookup(p, "where"));
    LookupDefined(es, "deleted_at");
    var j := FirstIndex(es, "deleted_at");
    TermsOnePerKey(es);
    DeletedAtTerm();
    var ts := Terms(es).value;
    JoinGroupsContains(ts, [Kw(" AND ")], j);
    ContainsAfter([Kw("WHERE ")], JoinGroups(ts, [Kw(" AND ")]), ts[j]);
  }

  lemma DeletedAtTerm()
    ensures KeyTerm("deleted_at", Str("is null")) == Ok([Ident("deleted_at"), Kw(" IS NULL")])
  {
    assert Lower("is null") == "is null";
    assert TagOp("deleted_at").None? by {
      assert "deleted_at"[0] != '$';
    }
  }

  /** A numeric `id` makes the LIMIT read after the WHERE compiler `LIMIT 1`: the `where`
      helper sets it and nothing after it unsets it. */
  lemma SelectById(opts: Props)
    requires !IsNaN(Lookup(opts, "id"))
    ensures Limit(WhereEffect(Prepared(opts)), Undef) == [Kw("LIMIT "), Raw(Num(1))]
  {
    PreparedLimit(opts);
    LimitOneKept(Prepared(opts));
  }

  lemma PreparedLimit(opts: Props)
    requires !IsNaN(Lookup(opts, "id"))
    ensures Lookup(Prepared(opts), "limit") == Num(1)
  {
    var d := Defaults(opts);
    var v := FoldId(d);
    DefaultsSpec(opts, "id");
    FoldIdSpec(d, "limit");
    LookupPutProp(v, "where", SetProp(Lookup(v, "where"), "deleted_at", Str("is null")), "limit");
  }

  /** The projection is `parse.columns(options.columns)`, so a column string or a column
      array selects every column. */
  lemma ColumnsCollapse(opts: Props)
    requires var c := Lookup(opts, "columns"); c.Str? || (c.Arr? && Lookup(c.named, "columns") == Undef)
    ensures SelectHead(Prepared(opts))[..2] == [Kw("\n        SELECT "), Kw("*")]
  {
    PreparedKeeps(opts, "columns");
    ColumnListIsStar(Lookup(opts, "columns"));
    StarHead(Prepared(opts));
  }

  lemma StarHead(p: Props)
    requires Columns(Lookup(p, "columns")) == [Kw("*")]
    ensures SelectHead(p)[..2] == [Kw("\n        SELECT "), Kw("*")]
  {
    var rest := [Kw("\n        FROM ")] + Table(Lookup(p, "schema"), Lookup(p, "model")) + [Kw("\n        ")];
    assert SelectHead(p) == [Kw("\n        SELECT "), Kw("*")] + rest;
  }

  lemma ColumnListIsStar(c: Val)
    requires c.Str? || (c.Arr? && Lookup(c.named, "columns") == Undef)
    ensures Columns(c) == [Kw("*")]
  {
    assert IndexKey("columns").None? by {
      assert !IsDigit("columns"[0]);
    }
  }
}
