/** The older, stand-alone WHERE compiler of lib/where.js.  It knows the same six
    operator tags as lib/parse.js but splices the nested values of all of them except
    `$like` without escaping, has no special case for an `id` key, and quotes every
    value that is not a number. */
module LegacyWhere {
  import opened Js
  import opened Sql
  import opened Parse

  /** `$like` quotes its value; the other tags splice it as it is. */
  function LegacyOperand(op: Op, v: Val): Piece {
    if op == Like then Literal(v) else Raw(v)
  }

  function LegacyComparisons(op: Op, es: Props): (gs: seq<seq<Piece>>)
    ensures |gs| == |es|
  {
    seq(|es|, i requires 0 <= i < |es| => [Ident(es[i].0), Kw(OpText(op)), LegacyOperand(op, es[i].1)])
  }

  /** The term for one top-level key of `where`. */
  function LegacyKeyTerm(key: string, value: Val): Result<seq<Piece>> {
    match TagOp(key)
    case Some(op) =>
      if !Readable(value) then Err(NotAnObject)
      else Ok(JoinGroups(LegacyComparisons(op, OwnEntries(value)), [Kw(" AND ")]))
    case None =>
      if value.Str? && Lower(value.s) == "is null" then Ok([Ident(key), Kw(" IS NULL")])
      else if value.Str? && Lower(value.s) == "is not null" then Ok([Ident(key), Kw(" IS NOT NULL")])
      else if TypeOf(value) == "number" then Ok([Ident(key), Kw(" = "), Raw(value)])
      else Ok([Ident(key), Kw(" = "), Literal(value)])
  }

  /** The text the module returns.  `Object.keys(where)` runs before any test, so an
      undefined or null `where` throws. */
  function LegacyWhereClause(opts: Props): Result<seq<Piece>> {
    var w := Lookup(opts, "where");
    if !Readable(w) then Err(NotAnObject)
    else if IsObject(w) && |OwnEntries(w)| > 0 then
      match MapTerms(LegacyKeyTerm, OwnEntries(w))
      case Err(e) => Err(e)
      case Ok(ts) => Ok([Kw("WHERE ")] + JoinGroups(ts, [Kw(" AND ")]))
    else if !IsNaN(Lookup(opts, "id")) then Ok([Kw("WHERE id = "), Raw(Lookup(opts, "id"))])
    else Ok([])
  }

  /** What it leaves in the options object: only the numeric-`id` fallback writes
      `limit = 1`. */
  function LegacyWhereEffect(opts: Props): Props {
    var w := Lookup(opts, "where");
    if Readable(w) && !(IsObject(w) && |OwnEntries(w)| > 0) && !IsNaN(Lookup(opts, "id")) then
      PutProp(opts, "limit", Num(1))
    else opts
  }

  /** The exported function of lib/where.js. */
  method Where(options: JsObject) returns (r: Result<seq<Piece>>)
    modifies options
    ensures r == LegacyWhereClause(old(options.props))
    ensures options.props == LegacyWhereEffect(old(options.props))
  {
    var w := options.Read("where");
    if !Readable(w) {
      return Err(NotAnObject);
    }
    var es := OwnEntries(w);
    if IsObject(w) && |es| > 0 {
      match MapTerms(LegacyKeyTerm, es)
      case Err(e) => r := Err(e);
      case Ok(ts) => r := Ok([Kw("WHERE ")] + JoinGroups(ts, [Kw(" AND ")]));
    } else {
      var id := options.Read("id");
      if !IsNaN(id) {
        options.Put("limit", Num(1));
        r := Ok([Kw("WHERE id = "), Raw(id)]);
      } else {
        r := Ok([]);
      }
    }
  }

  /** A non-empty `where` gives 'WHERE ' and one term per key, in key order, joined by
      ' AND ', and leaves `limit` alone even when one of its keys is `id`. */
  lemma LegacyWhereText(esc: Escaper, opts: Props)
    requires IsObject(Lookup(opts, "where")) && |OwnEntries(Lookup(opts, "where"))| > 0
    requires LegacyWhereClause(opts).Ok?
    ensures var es := OwnEntries(Lookup(opts, "where"));
            var ts := MapTerms(LegacyKeyTerm, es).value;
            |ts| == |es| &&
            (forall i :: 0 <= i < |es| ==> LegacyKeyTerm(es[i].0, es[i].1) == Ok(ts[i])) &&
            Render(esc, LegacyWhereClause(opts).value) == "WHERE " + Join(RenderEach(esc, ts), " AND ")
    ensures LegacyWhereEffect(opts) == opts
  {
    var es := OwnEntries(Lookup(opts, "where"));
    MapTermsOnePerKey(LegacyKeyTerm, es);
    var ts := MapTerms(LegacyKeyTerm, es).value;
    RenderAppend(esc, [Kw("WHERE ")], JoinGroups(ts, [Kw(" AND ")]));
    RenderJoinGroups(esc, ts, " AND ");
  }

  /** An empty `where`: `WHERE id = <id>` and `limit = 1` for a numeric `options.id`,
      nothing otherwise. */
  lemma LegacyWhereFallback(esc: Escaper, opts: Props)
    requires Readable(Lookup(opts, "where")) && |OwnEntries(Lookup(opts, "where"))| == 0
    ensures !IsNaN(Lookup(opts, "id")) ==>
              LegacyWhereClause(opts) == Ok([Kw("WHERE id = "), Raw(Lookup(opts, "id"))]) &&
              Lookup(LegacyWhereEffect(opts), "limit") == Num(1)
    ensures IsNaN(Lookup(opts, "id")) ==> LegacyWhereClause(opts) == Ok([]) && LegacyWhereEffect(opts) == opts
  {
    LookupPutProp(opts, "limit", Num(1), "limit");
  }

  /** An `id` key is an ordinary column here: quoted through `literal` unless it is a
      number, and it never touches `limit`. */
  lemma LegacyIdIsOrdinary(esc: Escaper, value: Val)
    ensures !value.Str? && TypeOf(value) != "number" ==>
              LegacyKeyTerm("id", value) == Ok([Ident("id"), Kw(" = "), Literal(value)])
    ensures value.Num? ==> LegacyKeyTerm("id", value) == Ok([Ident("id"), Kw(" = "), Raw(value)])
    ensures value.Str? && Lower(value.s) != "is null" && Lower(value.s) != "is not null" ==>
              Render(esc, LegacyKeyTerm("id", value).value) == esc.ident("id") + " = " + esc.literal(value)
  {
    RenderPieces(esc, Ident("id"), Kw(" = "), Literal(value));
  }

  /** A comparison tag other than `$like` splices a string value verbatim, where
      lib/parse.js would quote it. */
  lemma LegacyTagSplicesRaw(esc: Escaper, column: string, s: string)
    ensures var w := Obj([(column, Str(s))]);
            LegacyKeyTerm("$gt", w) == Ok([Ident(column), Kw(" > "), Raw(Str(s))]) &&
            Render(esc, LegacyKeyTerm("$gt", w).value) == esc.ident(column) + " > " + s &&
            KeyTerm("$gt", w) == Ok([Ident(column), Kw(" > "), Literal(Str(s))])
  {
    var w := Obj([(column, Str(s))]);
    assert LegacyComparisons(Gt, OwnEntries(w)) == [[Ident(column), Kw(" > "), Raw(Str(s))]];
    assert Comparisons(Gt, OwnEntries(w)) == [[Ident(column), Kw(" > "), Literal(Str(s))]];
    RenderPieces(esc, Ident(column), Kw(" > "), Raw(Str(s)));
  }

  /** The two compilers agree on keys that are neither an operator tag nor `id`, except
      that a value which is neither a string nor a number is quoted here and spliced as
      `undefined` by lib/parse.js. */
  lemma LegacyAgreesOnPlainKeys(key: string, value: Val)
    requires TagOp(key).None? && key != "id"
    requires value.Str? || TypeOf(value) == "number"
    ensures LegacyKeyTerm(key, value) == KeyTerm(key, value)
  {
  }
}
