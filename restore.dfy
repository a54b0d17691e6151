/** lib/restore.js: undoes a soft delete.  It validates the options as delete options,
    replaces `set` with empty `deleted_at` and `deleted_by` (which `parse.set` writes as
    NULL) and an `updated_at` stamp, adds `String(userId)` as `updated_by`, and sends the
    statement layout of lib/remove.js. */
module Restore {
  import opened Js
  import opened Sql
  import opened Parse
  import opened Db
  import opened Remove

  /** The replacement `set`: both soft-delete columns emptied and the update stamp, then,
      for a truthy `userId`, the user as text. */
  function RestoreSet(now: string, userId: Val): Val {
    var cleared := [("deleted_at", Str("")), ("deleted_by", Str("")), ("updated_at", Str(now))];
    if Truthy(userId) then Obj(cleared + [("updated_by", Str(ToText(userId)))]) else Obj(cleared)
  }

  /** Lines 27-34 of lib/restore.js: `options.set` is replaced by a new object, which then
      gains the user. */
  method ClearSet(options: JsObject, now: string)
    modifies options
    ensures options.props == PutProp(old(options.props), "set", RestoreSet(now, old(options.Read("userId"))))
  {
    ghost var v := options.props;
    var cleared := Obj([("deleted_at", Str("")), ("deleted_by", Str("")), ("updated_at", Str(now))]);
    options.Put("set", cleared);
    LookupPutProp(v, "set", cleared, "userId");
    LookupPutProp(v, "set", cleared, "set");
    if Truthy(options.Read("userId")) {
      var u := options.Read("userId");
      RestoreSetAssigned(now, u);
      options.Put("set", SetProp(options.Read("set"), "updated_by", Str(ToText(u))));
      PutPropOverwrite(v, "set", cleared, RestoreSet(now, u));
    }
  }

  /** `restore(options)`.  A null reference stands for an argument that is neither an
      object nor undefined (an undefined argument takes the default, see `RestoreDefault`);
      `now` is the `new Date().toISOString()` reading. */
  method Restore(options: JsObject?, now: string, response: QueryResult) returns (r: Result<Call<seq<Val>>>)
    modifies options
    ensures options == null ==> r == Err(InvalidOptions)
    ensures options != null ==>
              var s := RestoreSet(now, Lookup(old(options.props), "userId"));
              options.props == SoftEffect(old(options.props), s) && r == SoftOutcome(old(options.props), s, response)
  {
    ghost var before := if options == null then [] else options.props;
    var err := ValidateDelete(options);
    if err.Some? {
      return Err(err.value);
    }
    DefaultsSpec(before, "userId");
    FoldIdSpec(Defaults(before), "userId");
    ClearSet(options, now);
    r := Send(options, response);
  }

  /** `restore()` and `restore(undefined)`: the default parameter supplies a fresh `{}`,
      which has no model, so the call rejects with 'you must specify a valid model'. */
  method RestoreDefault(now: string, response: QueryResult) returns (r: Result<Call<seq<Val>>>)
    ensures r == Err(InvalidModel)
  {
    var options := new JsObject([]);
    r := Restore(options, now, response);
  }

  /** The object literal and the later assignment build the same `set`. */
  lemma RestoreSetAssigned(now: string, u: Val)
    requires Truthy(u)
    ensures IndexKey("updated_by").None?
    ensures var cleared := Obj([("deleted_at", Str("")), ("deleted_by", Str("")), ("updated_at", Str(now))]);
            SetProp(cleared, "updated_by", Str(ToText(u))) == RestoreSet(now, u)
  {
    NamedKey("updated_by");
    var s0 := [("deleted_at", Str("")), ("deleted_by", Str("")), ("updated_at", Str(now))];
    assert Keys(s0) == ["deleted_at", "deleted_by", "updated_at"];
    assert "updated_by" !in Keys(s0) by {
      assert "deleted_at"[0] != "updated_by"[0];
      assert "deleted_by"[0] != "updated_by"[0];
      assert "updated_at"[8] != "updated_by"[8];
    }
    PutPropNew(s0, "updated_by", Str(ToText(u)));
  }

  // ---------------------------------------------------------------- properties

  /** Whatever `set` the caller passed is discarded: the SET clause writes NULL into both
      soft-delete columns, the quoted stamp into `updated_at` and, for a truthy `userId`,
      `String(userId)` into `updated_by`. */
  lemma RestoreSetClause(opts: Props, now: string)
    requires now != ""
    ensures var u := Lookup(opts, "userId");
            SetClause(Replaced(opts, RestoreSet(now, u))) ==
              [Kw("SET ")] + JoinGroups([[Ident("deleted_at"), Kw(" = NULL")], [Ident("deleted_by"), Kw(" = NULL")],
                                         [Ident("updated_at"), Kw(" = "), Literal(Str(now))]] +
                                        (if Truthy(u) then [Assignment("updated_by", Str(ToText(u)))] else []), [Kw(", ")])
  {
    var u := Lookup(opts, "userId");
    ReplacedKeeps(opts, RestoreSet(now, u), "model");
    RestoreAssignments(now, u);
  }

  lemma RestoreAssignments(now: string, u: Val)
    requires now != ""
    ensures Assignments(OwnEntries(RestoreSet(now, u))) ==
            [[Ident("deleted_at"), Kw(" = NULL")], [Ident("deleted_by"), Kw(" = NULL")],
             [Ident("updated_at"), Kw(" = "), Literal(Str(now))]] +
            (if Truthy(u) then [Assignment("updated_by", Str(ToText(u)))] else [])
  {
    var gs := Assignments(OwnEntries(RestoreSet(now, u)));
    assert gs[0] == Assignment("deleted_at", Str("")) == [Ident("deleted_at"), Kw(" = NULL")];
    assert gs[1] == Assignment("deleted_by", Str("")) == [Ident("deleted_by"), Kw(" = NULL")];
    assert gs[2] == Assignment("updated_at", Str(now)) == [Ident("updated_at"), Kw(" = "), Literal(Str(now))];
  }

  /** A numeric `userId` is written as its decimal text, quoted as a string literal. */
  lemma NumericUserIsText(n: int)
    requires n != 0
    ensures Assignment("updated_by", Str(ToText(Num(n)))) == [Ident("updated_by"), Kw(" = "), Literal(Str(NumText(n)))]
  {
  }

  /** Restoring addresses exactly the rows removing would: both compile the same WHERE
      clause, and no `deleted_at` filter is added, so soft-deleted rows are reachable. */
  lemma SameTarget(opts: Props, now: string, deletedAt: string, updatedAt: string)
    ensures var u := Lookup(opts, "userId");
            WhereClause(Replaced(opts, RestoreSet(now, u))) == WhereClause(Replaced(opts, RemoveSet(deletedAt, updatedAt, u)))
    ensures var u := Lookup(opts, "userId");
            Lookup(Replaced(opts, RestoreSet(now, u)), "where") == Lookup(FoldId(Defaults(opts)), "where")
  {
    var u := Lookup(opts, "userId");
    var a := RestoreSet(now, u);
    var b := RemoveSet(deletedAt, updatedAt, u);
    ReplacedKeeps(opts, a, "id");
    ReplacedKeeps(opts, b, "id");
    FoldIdSpec(Defaults(opts), "id");
    SameWhereInputs(Replaced(opts, a), Replaced(opts, b));
  }

  /** The WHERE clause reads nothing but `where` and `id`. */
  lemma SameWhereInputs(p: Props, q: Props)
    requires Lookup(p, "where") == Lookup(q, "where") && Lookup(p, "id") == Lookup(q, "id")
    ensures WhereClause(p) == WhereClause(q)
  {
  }
}
