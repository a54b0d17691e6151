/** lib/insert.js: validates the options, stamps `created_at` (and `created_by`) into
    `set`, and lays out the INSERT statement from the keys of `set`.  As written, the
    VALUES list calls `parse.getValue`, which lib/parse.js keeps private, so every call
    that gets past validation throws a TypeError.  `IntendedInsertOutcome` is the
    statement the code evidently means to send, with `getValue` reachable. */
module Insert {
  import opened Js
  import opened Sql
  import opened Parse
  import opened Db
  import opened Audit

  /** What calling a property the module does not export throws. */
  const GetValueMissing := TypeError("parse.getValue is not a function")

  /** The `set` object once stamped, for options that passed validation. */
  function InsertSet(opts: Props, now: string): (s: Val)
    requires SetError(opts).None?
    ensures IsObject(s)
  {
    NamedKey("created_at");
    NamedKey("created_by");
    Stamp(Lookup(opts, "set"), "created_at", "created_by", now, Lookup(opts, "userId"))
  }

  /** The options object once validated and stamped. */
  function InsertPrepared(opts: Props, now: string): Props
    requires SetError(opts).None?
  {
    PutProp(Defaults(opts), "set", InsertSet(opts, now))
  }

  /** What `insert` leaves in the options object. */
  function InsertEffect(opts: Props, now: string): Props {
    if !NonEmptyString(Lookup(opts, "model")) || SetError(opts).Some? then Defaults(opts)
    else InsertPrepared(opts, now)
  }

  /** `keys.map(key => parse.getValue(options.set[key]))` as written: the property is
      undefined, so the first call throws and only an empty key list gets through. */
  function AsWrittenValues(keys: seq<string>): Result<seq<Piece>> {
    if |keys| == 0 then Ok([]) else Err(GetValueMissing)
  }

  /** How `join` writes one value: an undefined `getValue` result is the empty string. */
  function Joined(p: Piece): Piece {
    if p == Raw(Undef) then Kw("") else p
  }

  /** The VALUES list with `getValue` reachable: one value per key, in key order. */
  function IntendedValues(s: Val, keys: seq<string>): (vs: seq<Piece>)
    requires Readable(s)
    ensures |vs| == |keys|
  {
    seq(|keys|, i requires 0 <= i < |keys| => Joined(GetValue(Get(s, keys[i]))))
  }

  function ColumnGroups(keys: seq<string>): (gs: seq<seq<Piece>>)
    ensures |gs| == |keys|
  {
    seq(|keys|, i requires 0 <= i < |keys| => [Ident(keys[i])])
  }

  function Singles(ps: seq<Piece>): (gs: seq<seq<Piece>>)
    ensures |gs| == |ps|
  {
    seq(|ps|, i requires 0 <= i < |ps| => [ps[i]])
  }

  /** The INSERT text for the stamped options `p`, the keys of `set` and the values. */
  function InsertText(p: Props, keys: seq<string>, values: seq<Piece>): seq<Piece> {
    [Kw("\n        INSERT INTO ")] + Table(Lookup(p, "schema"), Lookup(p, "model")) + [Kw("\n        (")] +
    JoinGroups(ColumnGroups(keys), [Kw(", ")]) + [Kw(")\n        VALUES (")] +
    JoinGroups(Singles(values), [Kw(", ")]) + [Kw(")\n        RETURNING ")] +
    Columns(Obj(p)) + [Kw(";\n    ")]
  }

  /** The statement and the first returned row, or what the VALUES list threw. */
  function Finish(p: Props, keys: seq<string>, values: Result<seq<Piece>>, response: QueryResult): Result<Call<Val>> {
    match values
    case Err(e) => Err(e)
    case Ok(vs) => Ok(Call(InsertText(p, keys, vs), FirstRow(response.rows)))
  }

  /** What `insert(options)` gives, as written. */
  function InsertOutcome(opts: Props, now: string, response: QueryResult): Result<Call<Val>> {
    if !NonEmptyString(Lookup(opts, "model")) then Err(InvalidModel)
    else if SetError(opts).Some? then Err(InvalidSet)
    else
      var keys := Keys(OwnEntries(InsertSet(opts, now)));
      Finish(InsertPrepared(opts, now), keys, AsWrittenValues(keys), response)
  }

  /** What `insert(options)` would give with `getValue` exported. */
  function IntendedInsertOutcome(opts: Props, now: string, response: QueryResult): Result<Call<Val>> {
    if !NonEmptyString(Lookup(opts, "model")) then Err(InvalidModel)
    else if SetError(opts).Some? then Err(InvalidSet)
    else
      var s := InsertSet(opts, now);
      var keys := Keys(OwnEntries(s));
      Finish(InsertPrepared(opts, now), keys, Ok(IntendedValues(s, keys)), response)
  }

  /** `insert(options)`.  A null reference stands for an argument that is not an object,
      `now` for `new Date().toISOString()` and `response` for what the database answers. */
  method Insert(options: JsObject?, now: string, response: QueryResult) returns (r: Result<Call<Val>>)
    modifies options
    ensures options == null ==> r == Err(InvalidOptions)
    ensures options != null ==> options.props == InsertEffect(old(options.props), now)
    ensures options != null ==> r == InsertOutcome(old(options.props), now, response)
  {
    ghost var before := if options == null then [] else options.props;
    var err := ValidateInsert(options);
    if err.Some? {
      return Err(err.value);
    }
    DefaultsSpec(before, "set");
    DefaultsSpec(before, "userId");
    NamedKey("created_at");
    NamedKey("created_by");
    StampInto(options, "created_at", "created_by", now);
    LookupPutProp(Defaults(before), "set", InsertSet(before, now), "set");
    var s := options.Read("set");
    var keys := Keys(OwnEntries(s));
    r := Finish(options.props, keys, AsWrittenValues(keys), response);
  }

  // ---------------------------------------------------------------- properties

  /** `set` gains `created_at = now`, and `created_by = userId` exactly when `userId` is
      truthy; every other property of `set` is kept. */
  lemma InsertStamps(opts: Props, now: string, k: string)
    requires SetError(opts).None?
    ensures var s := InsertSet(opts, now);
            Get(s, "created_at") == Str(now) && "created_at" in Keys(OwnEntries(s)) &&
            (Truthy(Lookup(opts, "userId")) ==> Get(s, "created_by") == Lookup(opts, "userId")) &&
            (!Truthy(Lookup(opts, "userId")) ==> Get(s, "created_by") == Get(Lookup(opts, "set"), "created_by")) &&
            (k != "created_at" && k != "created_by" ==> Get(s, k) == Get(Lookup(opts, "set"), k))
    ensures Lookup(InsertPrepared(opts, now), "set") == InsertSet(opts, now)
  {
    NamedKey("created_at");
    NamedKey("created_by");
    StampSpec(Lookup(opts, "set"), "created_at", "created_by", now, Lookup(opts, "userId"), k);
    LookupPutProp(Defaults(opts), "set", InsertSet(opts, now), "set");
  }

  /** As written, every insert that passes validation throws: `set` always has at least
      the `created_at` key, so `getValue` is always called. */
  lemma InsertAlwaysThrows(opts: Props, now: string, response: QueryResult)
    requires NonEmptyString(Lookup(opts, "model")) && SetError(opts).None?
    ensures InsertOutcome(opts, now, response) == Err(GetValueMissing)
  {
    InsertStamps(opts, now, "created_at");
  }

  /** The rendered INSERT: the table, the column list and the VALUES list, each joined with
      ', ', and the projection after RETURNING. */
  lemma InsertTextRender(esc: Escaper, p: Props, keys: seq<string>, values: seq<Piece>)
    ensures Render(esc, InsertText(p, keys, values)) ==
            "\n        INSERT INTO " + ToText(Lookup(p, "schema")) + "." + ToText(Lookup(p, "model")) + "\n        (" +
            Join(RenderEach(esc, ColumnGroups(keys)), ", ") + ")\n        VALUES (" +
            Join(RenderEach(esc, Singles(values)), ", ") + ")\n        RETURNING " +
            Render(esc, Columns(Obj(p))) + ";\n    "
  {
    var head := [Kw("\n        INSERT INTO ")] + Table(Lookup(p, "schema"), Lookup(p, "model")) + [Kw("\n        (")];
    var cols := JoinGroups(ColumnGroups(keys), [Kw(", ")]);
    var vals := JoinGroups(Singles(values), [Kw(", ")]);
    var proj := Columns(Obj(p));
    var mid := [Kw(")\n        VALUES (")];
    var ret := [Kw(")\n        RETURNING ")];
    var tail := [Kw(";\n    ")];
    RenderAppend(esc, head + cols + mid + vals + ret + proj, tail);
    RenderAppend(esc, head + cols + mid + vals + ret, proj);
    RenderAppend(esc, head + cols + mid + vals, ret);
    RenderAppend(esc, head + cols + mid, vals);
    RenderAppend(esc, head + cols, mid);
    RenderAppend(esc, head, cols);
    RenderJoinGroups(esc, ColumnGroups(keys), ", ");
    RenderJoinGroups(esc, Singles(values), ", ");
    RenderHead(esc, Lookup(p, "schema"), Lookup(p, "model"));
    RenderPieces(esc, mid[0], mid[0], mid[0]);
    RenderPieces(esc, ret[0], ret[0], ret[0]);
    RenderPieces(esc, tail[0], tail[0], tail[0]);
  }

  lemma RenderHead(esc: Escaper, schema: Val, model: Val)
    ensures Render(esc, [Kw("\n        INSERT INTO ")] + Table(schema, model) + [Kw("\n        (")]) ==
            "\n        INSERT INTO " + ToText(schema) + "." + ToText(model) + "\n        ("
  {
    var t := Table(schema, model);
    RenderAppend(esc, [Kw("\n        INSERT INTO ")] + t, [Kw("\n        (")]);
    RenderAppend(esc, [Kw("\n        INSERT INTO ")], t);
    RenderPieces(esc, Kw("\n        INSERT INTO "), Kw("\n        ("), Kw(""));
    RenderPieces(esc, Raw(schema), Kw("."), Raw(model));
  }

  /** The i-th column and the i-th value come from the same key. */
  lemma ColumnsAlignWithValues(esc: Escaper, s: Val, keys: seq<string>, i: nat)
    requires Readable(s) && i < |keys|
    ensures |RenderEach(esc, ColumnGroups(keys))| == |RenderEach(esc, Singles(IntendedValues(s, keys)))| == |keys|
    ensures RenderEach(esc, ColumnGroups(keys))[i] == esc.ident(keys[i])
    ensures RenderEach(esc, Singles(IntendedValues(s, keys)))[i] == PieceText(esc, Joined(GetValue(Get(s, keys[i]))))
  {
    RenderEachAt(esc, ColumnGroups(keys), i);
    RenderEachAt(esc, Singles(IntendedValues(s, keys)), i);
    RenderPieces(esc, Ident(keys[i]), Ident(keys[i]), Ident(keys[i]));
    RenderPieces(esc, Joined(GetValue(Get(s, keys[i]))), Kw(""), Kw(""));
  }

  /** With `getValue` reachable, an insert that passes validation sends one statement
      whose column list and VALUES list come from the same keys of the stamped `set`, in
      the same order, `created_at` among them with the value `now`; it returns the first
      row. */
  lemma IntendedInsertAligned(esc: Escaper, opts: Props, now: string, response: QueryResult)
    requires NonEmptyString(Lookup(opts, "model")) && SetError(opts).None?
    ensures IntendedInsertOutcome(opts, now, response).Ok?
    ensures var s := InsertSet(opts, now);
            var keys := Keys(OwnEntries(s));
            var call := IntendedInsertOutcome(opts, now, response).value;
            "created_at" in keys && Get(s, "created_at") == Str(now) &&
            call.value == FirstRow(response.rows) &&
            Render(esc, call.text) ==
              "\n        INSERT INTO " + ToText(Lookup(Defaults(opts), "schema")) + "." + ToText(Lookup(opts, "model")) + "\n        (" +
              Join(RenderEach(esc, ColumnGroups(keys)), ", ") + ")\n        VALUES (" +
              Join(RenderEach(esc, Singles(IntendedValues(s, keys))), ", ") + ")\n        RETURNING " +
              Render(esc, Columns(Obj(InsertPrepared(opts, now)))) + ";\n    "
  {
    var s := InsertSet(opts, now);
    var keys := Keys(OwnEntries(s));
    var p := InsertPrepared(opts, now);
    InsertStamps(opts, now, "model");
    DefaultsSpec(opts, "model");
    LookupPutProp(Defaults(opts), "set", s, "model");
    LookupPutProp(Defaults(opts), "set", s, "schema");
    InsertTextRender(esc, p, keys, IntendedValues(s, keys));
  }
}
