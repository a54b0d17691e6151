/** lib/remove.js: a soft delete.  It validates the options as delete options, replaces
    whatever `set` the caller gave with `deleted_at` and `updated_at` stamps (and the
    user under `deleted_by` and `updated_by`), and sends `UPDATE ... SET ... WHERE ...
    RETURNING ...`: the rows stay in the table.  lib/restore.js sends the same statement
    with another `set`, so the layout is shared from here. */
module Remove {
  import opened Js
  import opened Sql
  import opened Parse
  import opened Db

  /** The validated options with `set` replaced outright by `s`. */
  function Replaced(opts: Props, s: Val): Props {
    PutProp(FoldId(Defaults(opts)), "set", s)
  }

  /** `UPDATE schema.model SET ... WHERE ... RETURNING columns`, for the options before
      (`p`) and after (`q`) `parse.where`. */
  function SoftText(p: Props, where: seq<Piece>, q: Props): seq<Piece> {
    [Kw("\n        UPDATE ")] + Table(Lookup(p, "schema"), Lookup(p, "model")) + [Kw("\n        ")] + SetClause(p) +
    [Kw("\n        ")] + where + [Kw("\n        RETURNING ")] + Columns(Obj(q)) + [Kw(";\n    ")]
  }

  /** The statement sent for an options object whose `set` is replaced by `s`, or the
      error thrown first. */
  function SoftStatement(opts: Props, s: Val): Result<seq<Piece>> {
    if !NonEmptyString(Lookup(opts, "model")) then Err(InvalidModel)
    else
      var p := Replaced(opts, s);
      match WhereClause(p)
      case Err(e) => Err(e)
      case Ok(w) => Ok(SoftText(p, w, WhereEffect(p)))
  }

  /** What the statement leaves in the options object. */
  function SoftEffect(opts: Props, s: Val): Props {
    if !NonEmptyString(Lookup(opts, "model")) then Defaults(opts) else WhereEffect(Replaced(opts, s))
  }

  /** The statement and every returned row, or the error. */
  function SoftOutcome(opts: Props, s: Val, response: QueryResult): Result<Call<seq<Val>>> {
    match SoftStatement(opts, s)
    case Err(e) => Err(e)
    case Ok(text) => Ok(Call(text, response.rows))
  }

  /** The replacement `set`: both stamps, then, for a truthy `userId`, the user as
      `deleted_by` and `updated_by`.  The two stamps are two separate readings of the
      clock. */
  function RemoveSet(deletedAt: string, updatedAt: string, userId: Val): Val {
    var stamps := [("deleted_at", Str(deletedAt)), ("updated_at", Str(updatedAt))];
    if Truthy(userId) then Obj(stamps + [("deleted_by", userId), ("updated_by", userId)]) else Obj(stamps)
  }

  /** Lines 35-46 shared by lib/remove.js and lib/restore.js: compile the WHERE, lay out the
      text and return every row. */
  method Send(options: JsObject, response: QueryResult) returns (r: Result<Call<seq<Val>>>)
    modifies options
    ensures options.props == WhereEffect(old(options.props))
    ensures r == match WhereClause(old(options.props))
                 case Err(e) => Err(e)
                 case Ok(w) => Ok(Call(SoftText(old(options.props), w, options.props), response.rows))
  {
    var p := options.props;
    var where := Where(options);
    if where.Err? {
      return Err(where.error);
    }
    r := Ok(Call(SoftText(p, where.value, options.props), response.rows));
  }

  /** Lines 27-34 of lib/remove.js: `options.set` is replaced by a new object, which then
      gains the user. */
  method ReplaceSet(options: JsObject, deletedAt: string, updatedAt: string)
    modifies options
    ensures options.props == PutProp(old(options.props), "set", RemoveSet(deletedAt, updatedAt, old(options.Read("userId"))))
  {
    ghost var v := options.props;
    var stamps := Obj([("deleted_at", Str(deletedAt)), ("updated_at", Str(updatedAt))]);
    options.Put("set", stamps);
    LookupPutProp(v, "set", stamps, "userId");
    LookupPutProp(v, "set", stamps, "set");
    if Truthy(options.Read("userId")) {
      var u := options.Read("userId");
      RemoveSetAssigned(deletedAt, updatedAt, u);
      var once := SetProp(stamps, "deleted_by", u);
      options.Put("set", SetProp(options.Read("set"), "deleted_by", u));
      PutPropOverwrite(v, "set", stamps, once);
      LookupPutProp(v, "set", once, "set");
      options.Put("set", SetProp(options.Read("set"), "updated_by", u));
      PutPropOverwrite(v, "set", once, RemoveSet(deletedAt, updatedAt, u));
    }
  }

  /** `remove(options)`.  A null reference stands for an argument that is neither an
      object nor undefined (an undefined argument takes the default, see `RemoveDefault`);
      `deletedAt` and `updatedAt` are the two `new Date().toISOString()` readings. */
  method Remove(options: JsObject?, deletedAt: string, updatedAt: string, response: QueryResult)
    returns (r: Result<Call<seq<Val>>>)
    modifies options
    ensures options == null ==> r == Err(InvalidOptions)
    ensures options != null ==>
              var s := RemoveSet(deletedAt, updatedAt, Lookup(old(options.props), "userId"));
              options.props == SoftEffect(old(options.props), s) && r == SoftOutcome(old(options.props), s, response)
  {
    ghost var before := if options == null then [] else options.props;
    var err := ValidateDelete(options);
    if err.Some? {
      return Err(err.value);
    }
    DefaultsSpec(before, "userId");
    FoldIdSpec(Defaults(before), "userId");
    ReplaceSet(options, deletedAt, updatedAt);
    r := Send(options, response);
  }

  /** `remove()` and `remove(undefined)`: the default parameter supplies a fresh `{}`,
      which has no model, so the call rejects with 'you must specify a valid model'. */
  method RemoveDefault(deletedAt: string, updatedAt: string, response: QueryResult) returns (r: Result<Call<seq<Val>>>)
    ensures r == Err(InvalidModel)
  {
    var options := new JsObject([]);
    r := Remove(options, deletedAt, updatedAt, response);
  }

  /** The object literal and the two later assignments build the same `set`. */
  lemma RemoveSetAssigned(deletedAt: string, updatedAt: string, u: Val)
    requires Truthy(u)
    ensures IndexKey("deleted_by").None? && IndexKey("updated_by").None?
    ensures var stamps := Obj([("deleted_at", Str(deletedAt)), ("updated_at", Str(updatedAt))]);
            SetProp(SetProp(stamps, "deleted_by", u), "updated_by", u) == RemoveSet(deletedAt, updatedAt, u)
  {
    NamedKey("deleted_by");
    NamedKey("updated_by");
    var s0 := [("deleted_at", Str(deletedAt)), ("updated_at", Str(updatedAt))];
    var s1 := s0 + [("deleted_by", u)];
    assert Keys(s0) == ["deleted_at", "updated_at"];
    assert "deleted_by" !in Keys(s0) by {
      assert "deleted_at"[8] != "deleted_by"[8];
      assert "updated_at"[0] != "deleted_by"[0];
    }
    PutPropNew(s0, "deleted_by", u);
    assert Keys(s1) == ["deleted_at", "updated_at", "deleted_by"];
    assert "updated_by" !in Keys(s1) by {
      assert "deleted_at"[0] != "updated_by"[0];
      assert "updated_at"[8] != "updated_by"[8];
      assert "deleted_by"[0] != "updated_by"[0];
    }
    PutPropNew(s1, "updated_by", u);
  }

  // ---------------------------------------------------------------- properties

  /** Replacing `set` leaves the validated options otherwise as they were. */
  lemma ReplacedKeeps(opts: Props, s: Val, k: string)
    requires k != "set" && k != "where" && k != "limit"
    ensures Lookup(Replaced(opts, s), k) == Lookup(Defaults(opts), k)
    ensures Lookup(Replaced(opts, s), "set") == s
    ensures Lookup(Replaced(opts, s), "where") == Lookup(FoldId(Defaults(opts)), "where")
  {
    var v := FoldId(Defaults(opts));
    FoldIdSpec(Defaults(opts), k);
    LookupPutProp(v, "set", s, k);
    LookupPutProp(v, "set", s, "set");
    LookupPutProp(v, "set", s, "where");
  }

  /** Whatever `set` the caller passed is discarded: the SET clause assigns the two
      stamps, quoted, and for a truthy `userId` the user twice. */
  lemma RemoveSetClause(opts: Props, deletedAt: string, updatedAt: string)
    requires deletedAt != "" && updatedAt != ""
    ensures var u := Lookup(opts, "userId");
            var stamps := [[Ident("deleted_at"), Kw(" = "), Literal(Str(deletedAt))],
                           [Ident("updated_at"), Kw(" = "), Literal(Str(updatedAt))]];
            SetClause(Replaced(opts, RemoveSet(deletedAt, updatedAt, u))) ==
              [Kw("SET ")] + JoinGroups(stamps + (if Truthy(u) then [Assignment("deleted_by", u), Assignment("updated_by", u)] else []), [Kw(", ")])
  {
    var u := Lookup(opts, "userId");
    var s := RemoveSet(deletedAt, updatedAt, u);
    ReplacedKeeps(opts, s, "model");
    RemoveAssignments(deletedAt, updatedAt, u);
  }

  lemma RemoveAssignments(deletedAt: string, updatedAt: string, u: Val)
    requires deletedAt != "" && updatedAt != ""
    ensures Assignments(OwnEntries(RemoveSet(deletedAt, updatedAt, u))) ==
            [[Ident("deleted_at"), Kw(" = "), Literal(Str(deletedAt))],
             [Ident("updated_at"), Kw(" = "), Literal(Str(updatedAt))]] +
            (if Truthy(u) then [Assignment("deleted_by", u), Assignment("updated_by", u)] else [])
  {
    var es := OwnEntries(RemoveSet(deletedAt, updatedAt, u));
    var gs := Assignments(es);
    assert gs[0] == Assignment("deleted_at", Str(deletedAt)) == [Ident("deleted_at"), Kw(" = "), Literal(Str(deletedAt))];
    assert gs[1] == Assignment("updated_at", Str(updatedAt)) == [Ident("updated_at"), Kw(" = "), Literal(Str(updatedAt))];
  }

  /** The `where` of a caller who gave no `where` object but a numeric `id`. */
  lemma IdWhere(opts: Props, s: Val)
    requires NotObjectLike(Lookup(opts, "where")) && !IsNaN(Lookup(opts, "id"))
    ensures Lookup(Replaced(opts, s), "where") == Obj([("id", Lookup(opts, "id"))])
  {
    var d := Defaults(opts);
    var a := InstallWhere(d);
    DefaultsSpec(opts, "where");
    DefaultsSpec(opts, "id");
    InstallWhereSpec(d, "id");
    FoldIdNumeric(a, WhereObject(d), "id");
    ReplacedKeeps(opts, s, "id");
  }

  /** Addressed by a numeric `id` alone, the statement updates that one row:
      `WHERE id = <id>`. */
  lemma SoftById(opts: Props, s: Val)
    requires NotObjectLike(Lookup(opts, "where")) && !IsNaN(Lookup(opts, "id"))
    ensures WhereClause(Replaced(opts, s)) == Ok([Kw("WHERE "), Kw("id = "), Raw(Lookup(opts, "id"))])
  {
    IdWhere(opts, s);
    IdClause(Replaced(opts, s), Lookup(opts, "id"));
  }

  lemma IdClause(p: Props, id: Val)
    requires Lookup(p, "where") == Obj([("id", id)])
    ensures WhereClause(p) == Ok([Kw("WHERE "), Kw("id = "), Raw(id)])
  {
    assert [Kw("WHERE ")] + [Kw("id = "), Raw(id)] == [Kw("WHERE "), Kw("id = "), Raw(id)];
    IdTerms(id);
    assert OwnEntries(Obj([("id", id)])) == [("id", id)];
    assert |[("id", id)]| > 0;
    assert JoinGroups([[Kw("id = "), Raw(id)]], [Kw(" AND ")]) == [Kw("id = "), Raw(id)];
  }

  lemma IdTerms(id: Val)
    ensures Terms([("id", id)]) == Ok([[Kw("id = "), Raw(id)]])
  {
    var es := [("id", id)];
    assert es[..0] == [];
    assert es[0] == ("id", id);
    assert TagOp("id").None? by {
      assert "id"[0] != '$';
    }
    assert MapTerms(KeyTerm, es[..0]) == Ok([]);
    assert [] + [[Kw("id = "), Raw(id)]] == [[Kw("id = "), Raw(id)]];
  }

  /** With neither a `where` object nor a numeric `id` there is no WHERE at all, so the
      statement stamps every row of the table. */
  lemma SoftUnfiltered(opts: Props, s: Val)
    requires NotObjectLike(Lookup(opts, "where")) && IsNaN(Lookup(opts, "id"))
    ensures WhereClause(Replaced(opts, s)) == Ok([])
  {
    var d := Defaults(opts);
    DefaultsSpec(opts, "where");
    DefaultsSpec(opts, "id");
    FoldIdSpec(d, "id");
    LookupPutProp(FoldId(d), "set", s, "where");
    LookupPutProp(FoldId(d), "set", s, "id");
  }

  /** The statement is an UPDATE of the validated table, never a DELETE, and what comes
      back is every returned row. */
  lemma SoftIsUpdate(opts: Props, s: Val, response: QueryResult)
    requires SoftOutcome(opts, s, response).Ok?
    ensures NonEmptyString(Lookup(opts, "model")) && WhereClause(Replaced(opts, s)).Ok?
    ensures var call := SoftOutcome(opts, s, response).value;
            call.text[..4] == [Kw("\n        UPDATE "), Raw(Lookup(Defaults(opts), "schema")), Kw("."), Raw(Lookup(opts, "model"))] &&
            call.value == response.rows
  {
    var p := Replaced(opts, s);
    DefaultsSpec(opts, "model");
    ReplacedKeeps(opts, s, "schema");
    ReplacedKeeps(opts, s, "model");
    SoftTextStart(p, WhereClause(p).value, WhereEffect(p));
  }

  lemma SoftTextStart(p: Props, where: seq<Piece>, q: Props)
    ensures SoftText(p, where, q)[..4] == [Kw("\n        UPDATE "), Raw(Lookup(p, "schema")), Kw("."), Raw(Lookup(p, "model"))]
  {
  }
}
