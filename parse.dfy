/** The clause builders of lib/parse.js: projection, WHERE, OFFSET, LIMIT, GROUP BY,
    ORDER BY and SET.  All are functions of the options object except the WHERE compiler,
    which also writes `options.limit = 1` into the object it is given. */
module Parse {
  import opened Js
  import opened Sql

  // ---------------------------------------------------------------- projection

  /** `parse.columns(options)`: a column string as it is, an array joined with ', ',
      and '*' for anything else. */
  function Columns(options: Val): seq<Piece> {
    if !Truthy(options) then [Kw("*")]
    else
      var c := Get(options, "columns");
      if !Truthy(c) then [Kw("*")]
      else if c.Str? then [Raw(c)]
      else if c.Arr? then [Raw(Str(Join(seq(|c.items|, i requires 0 <= i < |c.items| => ElementText(c.items[i])), ", ")))]
      else [Kw("*")]
  }

  lemma ColumnsText(esc: Escaper, options: Val)
    ensures !Truthy(options) ==> Render(esc, Columns(options)) == "*"
    ensures Truthy(options) && Get(options, "columns").Str? && Get(options, "columns").s != "" ==>
              Render(esc, Columns(options)) == Get(options, "columns").s
    ensures Truthy(options) && !Get(options, "columns").Str? && !Get(options, "columns").Arr? ==>
              Render(esc, Columns(options)) == "*"
  {
  }

  // ---------------------------------------------------------------- values

  /** The module-private `getValue(obj)`: a string goes through `literal`, a number is
      spliced as it is, anything else gives undefined.  Its third test,
      `typeof obj === 'date'`, can never hold, so Dates give undefined too. */
  function GetValue(v: Val): Piece {
    if TypeOf(v) == "string" then Literal(v)
    else if TypeOf(v) == "number" then Raw(v)
    else if TypeOf(v) == "date" then
      (match v
       case DateObj(_, _, iso, _) => Literal(Str(iso))
       case _ => Raw(Undef))
    else Raw(Undef)
  }

  /** A Date handed to `getValue` comes out as the word "undefined". */
  lemma GetValueOfDate(esc: Escaper, time: int, text: string, iso: string, named: Props)
    ensures GetValue(DateObj(time, text, iso, named)) == Raw(Undef)
    ensures PieceText(esc, GetValue(DateObj(time, text, iso, named))) == "undefined"
  {
  }

  lemma GetValueEscaped(v: Val)
    ensures EscapedPiece(GetValue(v))
  {
  }

  // ---------------------------------------------------------------- WHERE

  /** The six operator tags. */
  datatype Op = Like | Gt | Gte | Lte | Lt | Ne

  function TagOp(key: string): Option<Op> {
    if key == "$like" then Some(Like)
    else if key == "$gt" then Some(Gt)
    else if key == "$gte" then Some(Gte)
    else if key == "$lte" then Some(Lte)
    else if key == "$lt" then Some(Lt)
    else if key == "$ne" then Some(Ne)
    else None
  }

  function OpText(op: Op): string {
    match op
    case Like => " like "
    case Gt => " > "
    case Gte => " >= "
    case Lte => " <= "
    case Lt => " < "
    case Ne => " != "
  }

  /** `$like` always quotes its value; the other tags go through `getValue`. */
  function Operand(op: Op, v: Val): Piece {
    if op == Like then Literal(v) else GetValue(v)
  }

  /** One comparison per nested key of an operator tag's value. */
  function Comparisons(op: Op, es: Props): (gs: seq<seq<Piece>>)
    ensures |gs| == |es|
  {
    seq(|es|, i requires 0 <= i < |es| => [Ident(es[i].0), Kw(OpText(op)), Operand(op, es[i].1)])
  }

  /** The term for one top-level key of `where`.  `Object.keys(value)` of an operator tag
      throws on undefined and null. */
  function KeyTerm(key: string, value: Val): Result<seq<Piece>> {
    match TagOp(key)
    case Some(op) =>
      if !Readable(value) then Err(NotAnObject)
      else Ok(JoinGroups(Comparisons(op, OwnEntries(value)), [Kw(" AND ")]))
    case None =>
      if key == "id" then Ok([Kw("id = "), Raw(value)])
      else if value.Str? && Lower(value.s) == "is null" then Ok([Ident(key), Kw(" IS NULL")])
      else if value.Str? && Lower(value.s) == "is not null" then Ok([Ident(key), Kw(" IS NOT NULL")])
      else Ok([Ident(key), Kw(" = "), GetValue(value)])
  }

  /** `keys.map(term)` over the entries, in key order; the first term that throws ends it. */
  function MapTerms(term: (string, Val) -> Result<seq<Piece>>, es: Props): Result<seq<seq<Piece>>>
    decreases |es|
  {
    if |es| == 0 then Ok([])
    else
      match MapTerms(term, es[..|es| - 1])
      case Err(e) => Err(e)
      case Ok(ts) =>
        match term(es[|es| - 1].0, es[|es| - 1].1)
        case Err(e) => Err(e)
        case Ok(t) => Ok(ts + [t])
  }

  /** The terms `parse.where` compiles for the entries of `where`. */
  function Terms(es: Props): Result<seq<seq<Piece>>> {
    MapTerms(KeyTerm, es)
  }

  /** Whether compiling the entries runs the `options.limit = 1` of an `id` key, that is,
      meets an `id` key before a term throws. */
  predicate ReachesId(es: Props)
    decreases |es|
  {
    |es| > 0 && (ReachesId(es[..|es| - 1]) || (Terms(es[..|es| - 1]).Ok? && es[|es| - 1].0 == "id"))
  }

  /** `parse.where(options)`, the text it returns. */
  function WhereClause(opts: Props): Result<seq<Piece>> {
    var w := Lookup(opts, "where");
    if !Readable(w) then Err(NotAnObject)
    else if IsObject(w) && |OwnEntries(w)| > 0 then
      match Terms(OwnEntries(w))
      case Err(e) => Err(e)
      case Ok(ts) => Ok([Kw("WHERE ")] + JoinGroups(ts, [Kw(" AND ")]))
    else if !IsNaN(Lookup(opts, "id")) then Ok([Kw("WHERE id = "), Raw(Lookup(opts, "id"))])
    else Ok([])
  }

  /** `parse.where(options)`, what it leaves in the options object. */
  function WhereEffect(opts: Props): Props {
    var w := Lookup(opts, "where");
    if !Readable(w) then opts
    else if IsObject(w) && |OwnEntries(w)| > 0 then
      (if ReachesId(OwnEntries(w)) then PutProp(opts, "limit", Num(1)) else opts)
    else if !IsNaN(Lookup(opts, "id")) then PutProp(opts, "limit", Num(1))
    else opts
  }

  lemma {:induction false} PutPropTwice(p: Props, k: string, x: Val)
    ensures PutProp(PutProp(p, k, x), k, x) == PutProp(p, k, x)
  {
    if |p| > 0 && p[0].0 != k {
      PutPropTwice(p[1..], k, x);
    }
  }

  /** Once a term has thrown, later entries change nothing. */
  lemma {:induction false} TermsStop(es: Props, n: nat)
    requires n <= |es| && Terms(es[..n]).Err?
    ensures Terms(es) == Terms(es[..n])
    ensures ReachesId(es) == ReachesId(es[..n])
    decreases |es| - n
  {
    if n < |es| {
      var m := n + 1;
      assert es[..m][..n] == es[..n];
      TermsStop(es, m);
    } else {
      assert es[..n] == es;
    }
  }

  lemma TermsStep(es: Props, i: nat, ts: seq<seq<Piece>>)
    requires i < |es| && Terms(es[..i]) == Ok(ts)
    ensures Terms(es[..i + 1]) == match KeyTerm(es[i].0, es[i].1)
                                  case Err(e) => Err(e)
                                  case Ok(t) => Ok(ts + [t])
    ensures ReachesId(es[..i + 1]) == (ReachesId(es[..i]) || es[i].0 == "id")
  {
    assert es[..i + 1][..i] == es[..i];
  }

  /** The options once `options.limit = 1` has, or has not, been written. */
  function LimitWritten(before: Props, written: bool): Props {
    if written then PutProp(before, "limit", Num(1)) else before
  }

  /** Writing `options.limit = 1` again changes nothing. */
  lemma LimitWrittenAgain(before: Props, written: bool)
    ensures PutProp(LimitWritten(before, written), "limit", Num(1)) == LimitWritten(before, true)
  {
    PutPropTwice(before, "limit", Num(1));
  }

  /** The `keys.map(...)` of `parse.where`: the terms in key order, writing
      `options.limit = 1` at each `id` key it meets. */
  method CompileTerms(options: JsObject, es: Props) returns (r: Result<seq<seq<Piece>>>)
    modifies options
    ensures r == Terms(es)
    ensures options.props == if ReachesId(es) then PutProp(old(options.props), "limit", Num(1)) else old(options.props)
  {
    ghost var before := options.props;
    var terms: seq<seq<Piece>> := [];
    var i := 0;
    while i < |es|
      invariant 0 <= i <= |es|
      invariant Terms(es[..i]) == Ok(terms)
      invariant options.props == LimitWritten(before, ReachesId(es[..i]))
    {
      TermsStep(es, i, terms);
      var key := es[i].0;
      if key == "id" {
        LimitWrittenAgain(before, ReachesId(es[..i]));
        options.Put("limit", Num(1));
      }
      var t := KeyTerm(key, es[i].1);
      if t.Err? {
        TermsStop(es, i + 1);
        return Err(t.error);
      }
      terms := terms + [t.value];
      i := i + 1;
    }
    assert es[..|es|] == es;
    r := Ok(terms);
  }

  /** `parse.where(options)`: compiles `options.where` and writes `options.limit = 1` when
      it meets an `id` key, or when it falls back to a numeric `options.id`. */
  method Where(options: JsObject) returns (r: Result<seq<Piece>>)
    modifies options
    ensures r == WhereClause(old(options.props))
    ensures options.props == WhereEffect(old(options.props))
  {
    var w := options.Read("where");
    if !Readable(w) {
      return Err(NotAnObject);
    }
    var es := OwnEntries(w);
    if IsObject(w) && |es| > 0 {
      var terms := CompileTerms(options, es);
      match terms
      case Err(e) => r := Err(e);
      case Ok(ts) => r := Ok([Kw("WHERE ")] + JoinGroups(ts, [Kw(" AND ")]));
    } else {
      var id := options.Read("id");
      if !IsNaN(id) {
        options.Put("limit", Num(1));
        r := Ok([Kw("WHERE id = "), Raw(id)]);
      } else {
        r := Ok([]);
      }
    }
  }

  // ---------------------------------------------------------------- OFFSET, LIMIT, GROUP BY, ORDER BY

  /** `parse.offset(options)`: `OFFSET n` whenever `options.offset` is not NaN. */
  function Offset(opts: Props): seq<Piece> {
    var o := Lookup(opts, "offset");
    if !IsNaN(o) then [Kw("OFFSET "), Raw(NumberOf(o))] else []
  }

  /** `parse.limit(options, defaultLimit)`: the limit when it is a number above zero,
      otherwise the default, which is a positive number `defaultLimit` or else '1000'. */
  function Limit(opts: Props, defaultLimit: Val): seq<Piece> {
    var fallback := if defaultLimit.Num? && defaultLimit.n > 0 then defaultLimit else Str("1000");
    match ToNumber(Lookup(opts, "limit"))
    case Some(n) => if n > 0 then [Kw("LIMIT "), Raw(Num(n))] else [Kw("LIMIT "), Raw(fallback)]
    case None => [Kw("LIMIT "), Raw(fallback)]
  }

  /** `parse.group(options)` */
  function Group(opts: Props): seq<Piece> {
    var g := Lookup(opts, "group");
    if g.Str? && |g.s| > 0 then [Kw("GROUP BY "), Literal(g)]
    else if g.Arr? then
      [Kw("GROUP BY ")] + JoinGroups(seq(|g.items|, i requires 0 <= i < |g.items| => [Literal(g.items[i])]), [Kw(", ")])
    else []
  }

  /** `parse.order(options)` */
  function Order(opts: Props): seq<Piece> {
    var o := Lookup(opts, "order");
    if Truthy(o) then [Kw("ORDER BY "), Literal(o), Kw(" ASC")] else [Kw("ORDER BY id ASC")]
  }

  // ---------------------------------------------------------------- SET

  /** One `ident(key) = value` assignment of `parse.set`. */
  function Assignment(key: string, value: Val): seq<Piece> {
    if TypeOf(value) == "number" then [Ident(key), Kw(" = "), Raw(value)]
    else if value.Str? && |value.s| > 0 then [Ident(key), Kw(" = "), Literal(value)]
    else if value.DateObj? then [Ident(key), Kw(" = "), Literal(Str(value.text))]
    else [Ident(key), Kw(" = NULL")]
  }

  function Assignments(es: Props): (gs: seq<seq<Piece>>)
    ensures |gs| == |es|
  {
    seq(|es|, i requires 0 <= i < |es| => Assignment(es[i].0, es[i].1))
  }

  /** `parse.set(options)`, as a value. */
  function SetClause(opts: Props): seq<Piece> {
    var s := Lookup(opts, "set");
    if !Truthy(s) then [] else [Kw("SET ")] + JoinGroups(Assignments(OwnEntries(s)), [Kw(", ")])
  }

  /** `parse.set(options)`: folds the keys of `options.set` into an array of assignments
      and joins it. */
  method Set(opts: Props) returns (clause: seq<Piece>)
    ensures clause == SetClause(opts)
  {
    var s := Lookup(opts, "set");
    if !Truthy(s) {
      return [];
    }
    var es := OwnEntries(s);
    var acc: seq<seq<Piece>> := [];
    var i := 0;
    while i < |es|
      invariant 0 <= i <= |es|
      invariant acc == Assignments(es[..i])
    {
      acc := acc + [Assignment(es[i].0, es[i].1)];
      i := i + 1;
    }
    assert es[..|es|] == es;
    clause := [Kw("SET ")] + JoinGroups(acc, [Kw(", ")]);
  }

  // ---------------------------------------------------------------- properties of WHERE

  /** The terms compile iff every key's term does, and then there is one term per key, in
      key order. */
  lemma {:induction false} MapTermsOnePerKey(term: (string, Val) -> Result<seq<Piece>>, es: Props)
    ensures MapTerms(term, es).Ok? <==> forall i :: 0 <= i < |es| ==> term(es[i].0, es[i].1).Ok?
    ensures MapTerms(term, es).Ok? ==>
              |MapTerms(term, es).value| == |es| &&
              forall i :: 0 <= i < |es| ==> MapTerms(term, es).value[i] == term(es[i].0, es[i].1).value
    decreases |es|
  {
    if |es| > 0 {
      var init := es[..|es| - 1];
      MapTermsOnePerKey(term, init);
      assert forall i :: 0 <= i < |init| ==> init[i] == es[i];
    }
  }

  lemma TermsOnePerKey(es: Props)
    ensures Terms(es).Ok? <==> forall i :: 0 <= i < |es| ==> KeyTerm(es[i].0, es[i].1).Ok?
    ensures Terms(es).Ok? ==>
              |Terms(es).value| == |es| &&
              forall i :: 0 <= i < |es| ==> Terms(es).value[i] == KeyTerm(es[i].0, es[i].1).value
  {
    MapTermsOnePerKey(KeyTerm, es);
  }

  /** Once every term compiles, the `options.limit = 1` of an `id` key runs iff there is one. */
  lemma {:induction false} ReachesIdWhenOk(es: Props)
    requires Terms(es).Ok?
    ensures ReachesId(es) <==> "id" in Keys(es)
    decreases |es|
  {
    if |es| > 0 {
      var init := es[..|es| - 1];
      assert Terms(init).Ok?;
      ReachesIdWhenOk(init);
      assert Keys(es) == Keys(init) + [es[|es| - 1].0];
    }
  }

  /** Whether `parse.where` takes a path that writes `options.limit = 1`: a top-level `id`
      key, or the fallback on a numeric `options.id`. */
  predicate FiltersById(opts: Props) {
    var w := Lookup(opts, "where");
    Readable(w) &&
    if IsObject(w) && |OwnEntries(w)| > 0 then "id" in Keys(OwnEntries(w))
    else !IsNaN(Lookup(opts, "id"))
  }

  /** A `limit` of 1 is still read as `LIMIT 1` after `parse.where`. */
  lemma LimitOneKept(opts: Props)
    requires Lookup(opts, "limit") == Num(1)
    ensures Limit(WhereEffect(opts), Undef) == [Kw("LIMIT "), Raw(Num(1))]
  {
    WhereForcesLimit(opts, Undef);
    LookupPutProp(opts, "limit", Num(1), "limit");
  }

  /** Every option but `limit` reads the same after `parse.where`. */
  lemma WhereEffectKeeps(opts: Props, k: string)
    requires k != "limit"
    ensures Lookup(WhereEffect(opts), k) == Lookup(opts, k)
  {
    WhereForcesLimit(opts, Undef);
    LookupPutProp(opts, "limit", Num(1), k);
  }

  /** `parse.where` changes nothing but `limit`, and when it filters by id and succeeds, the
      LIMIT read after it is `LIMIT 1`. */
  lemma WhereForcesLimit(opts: Props, defaultLimit: Val)
    ensures WhereEffect(opts) == opts || WhereEffect(opts) == PutProp(opts, "limit", Num(1))
    ensures WhereClause(opts).Ok? && FiltersById(opts) ==>
              Lookup(WhereEffect(opts), "limit") == Num(1) &&
              Limit(WhereEffect(opts), defaultLimit) == [Kw("LIMIT "), Raw(Num(1))]
    ensures !FiltersById(opts) ==> WhereEffect(opts) == opts
  {
    var w := Lookup(opts, "where");
    if Readable(w) && IsObject(w) && |OwnEntries(w)| > 0 && Terms(OwnEntries(w)).Ok? {
      ReachesIdWhenOk(OwnEntries(w));
    }
    if Readable(w) && IsObject(w) && |OwnEntries(w)| > 0 && Terms(OwnEntries(w)).Err? {
      if ReachesId(OwnEntries(w)) {
        ReachesIdHasId(OwnEntries(w));
      }
    }
    LookupPutProp(opts, "limit", Num(1), "limit");
  }

  /** A path that runs `options.limit = 1` has met an `id` key. */
  lemma {:induction false} ReachesIdHasId(es: Props)
    requires ReachesId(es)
    ensures "id" in Keys(es)
    decreases |es|
  {
    var init := es[..|es| - 1];
    assert Keys(es) == Keys(init) + [es[|es| - 1].0];
    if ReachesId(init) {
      ReachesIdHasId(init);
    }
  }

  /** Every term other than an `id` term quotes what it splices. */
  lemma KeyTermEscaped(key: string, value: Val)
    requires key != "id" && KeyTerm(key, value).Ok?
    ensures Escaped(KeyTerm(key, value).value)
  {
    match TagOp(key)
    case Some(op) =>
      var gs := Comparisons(op, OwnEntries(value));
      forall i | 0 <= i < |gs|
        ensures Escaped(gs[i])
      {
        GetValueEscaped(OwnEntries(value)[i].1);
      }
      JoinGroupsEscaped(gs, [Kw(" AND ")]);
    case None =>
      GetValueEscaped(value);
  }

  /** A WHERE clause without an `id` key and without a non-numeric `options.id` fallback
      splices nothing unquoted but numbers. */
  lemma WhereEscaped(opts: Props)
    requires WhereClause(opts).Ok?
    requires !Readable(Lookup(opts, "where")) || "id" !in Keys(OwnEntries(Lookup(opts, "where")))
    requires Lookup(opts, "id").Num? || IsNaN(Lookup(opts, "id"))
    ensures Escaped(WhereClause(opts).value)
  {
    var w := Lookup(opts, "where");
    if IsObject(w) && |OwnEntries(w)| > 0 {
      var es := OwnEntries(w);
      TermsOnePerKey(es);
      var ts := Terms(es).value;
      forall i | 0 <= i < |ts|
        ensures Escaped(ts[i])
      {
        assert Keys(es)[i] == es[i].0;
        KeyTermEscaped(es[i].0, es[i].1);
      }
      JoinGroupsEscaped(ts, [Kw(" AND ")]);
    }
  }

  /** The text of a compiled WHERE: 'WHERE ' and the rendered terms, one per key in key
      order, joined by ' AND '. */
  lemma WhereText(esc: Escaper, opts: Props)
    requires WhereClause(opts).Ok?
    requires IsObject(Lookup(opts, "where")) && |OwnEntries(Lookup(opts, "where"))| > 0
    ensures var es := OwnEntries(Lookup(opts, "where"));
            var ts := Terms(es).value;
            |ts| == |es| &&
            (forall i :: 0 <= i < |es| ==> KeyTerm(es[i].0, es[i].1) == Ok(ts[i])) &&
            Render(esc, WhereClause(opts).value) == "WHERE " + Join(RenderEach(esc, ts), " AND ")
  {
    var es := OwnEntries(Lookup(opts, "where"));
    TermsOnePerKey(es);
    var ts := Terms(es).value;
    RenderAppend(esc, [Kw("WHERE ")], JoinGroups(ts, [Kw(" AND ")]));
    RenderJoinGroups(esc, ts, " AND ");
  }

  /** An `id` key is spliced without quoting: a string value goes into the text verbatim. */
  lemma IdTermSplicesRaw(esc: Escaper, s: string)
    ensures KeyTerm("id", Str(s)) == Ok([Kw("id = "), Raw(Str(s))])
    ensures Render(esc, [Kw("id = "), Raw(Str(s))]) == "id = " + s
  {
    RenderPieces(esc, Kw("id = "), Raw(Str(s)), Raw(Str(s)));
  }

  /** 'is null' and 'is not null' are recognised in any letter case and emit no literal. */
  lemma NullTestsIgnoreCase(esc: Escaper, key: string, s: string)
    requires TagOp(key).None? && key != "id"
    ensures Lower(s) == "is null" ==> Render(esc, KeyTerm(key, Str(s)).value) == esc.ident(key) + " IS NULL"
    ensures Lower(s) == "is not null" ==> Render(esc, KeyTerm(key, Str(s)).value) == esc.ident(key) + " IS NOT NULL"
    ensures Lower(s) != "is null" && Lower(s) != "is not null" ==>
              Render(esc, KeyTerm(key, Str(s)).value) == esc.ident(key) + " = " + esc.literal(Str(s))
  {
    RenderPieces(esc, Ident(key), Kw(" IS NULL"), Kw(" IS NULL"));
    RenderPieces(esc, Ident(key), Kw(" IS NOT NULL"), Kw(" IS NOT NULL"));
    RenderPieces(esc, Ident(key), Kw(" = "), Literal(Str(s)));
  }

  /** With an empty `where` and no numeric `options.id` there is no WHERE at all. */
  lemma WhereEmpty(opts: Props)
    requires Readable(Lookup(opts, "where")) && |OwnEntries(Lookup(opts, "where"))| == 0
    requires IsNaN(Lookup(opts, "id"))
    ensures WhereClause(opts) == Ok([]) && WhereEffect(opts) == opts
  {
  }

  // ---------------------------------------------------------------- properties of the other clauses

  lemma ColumnsOfArray(esc: Escaper, options: Val)
    requires Truthy(options) && Get(options, "columns").Arr?
    ensures var items := Get(options, "columns").items;
            Render(esc, Columns(options)) == Join(seq(|items|, i requires 0 <= i < |items| => ElementText(items[i])), ", ")
  {
    RenderPieces(esc, Columns(options)[0], Kw(""), Kw(""));
  }

  /** `OFFSET n` iff `options.offset` reads as a number, else nothing. */
  lemma OffsetText(esc: Escaper, opts: Props)
    ensures ToNumber(Lookup(opts, "offset")).Some? ==>
              Render(esc, Offset(opts)) == "OFFSET " + NumText(ToNumber(Lookup(opts, "offset")).value)
    ensures ToNumber(Lookup(opts, "offset")).None? ==> Render(esc, Offset(opts)) == ""
  {
    RenderPieces(esc, Kw("OFFSET "), Raw(NumberOf(Lookup(opts, "offset"))), Kw(""));
  }

  /** `LIMIT n` iff `options.limit` reads as a number above zero, else the default. */
  lemma LimitText(esc: Escaper, opts: Props, defaultLimit: Val)
    ensures var n := ToNumber(Lookup(opts, "limit"));
            n.Some? && n.value > 0 ==> Render(esc, Limit(opts, defaultLimit)) == "LIMIT " + NumText(n.value)
    ensures var n := ToNumber(Lookup(opts, "limit"));
            !(n.Some? && n.value > 0) ==>
              Render(esc, Limit(opts, defaultLimit)) ==
                "LIMIT " + if defaultLimit.Num? && defaultLimit.n > 0 then NumText(defaultLimit.n) else "1000"
  {
    var l := Limit(opts, defaultLimit);
    RenderPieces(esc, l[0], l[1], l[1]);
  }

  lemma GroupText(esc: Escaper, opts: Props)
    ensures var g := Lookup(opts, "group");
            (g.Str? && |g.s| > 0) ==> Render(esc, Group(opts)) == "GROUP BY " + esc.literal(g)
    ensures var g := Lookup(opts, "group");
            g.Arr? ==>
              Render(esc, Group(opts)) == "GROUP BY " + Join(seq(|g.items|, i requires 0 <= i < |g.items| => esc.literal(g.items[i])), ", ")
    ensures var g := Lookup(opts, "group");
            !(g.Str? && |g.s| > 0) && !g.Arr? ==> Group(opts) == []
  {
    var g := Lookup(opts, "group");
    RenderPieces(esc, Kw("GROUP BY "), Literal(g), Literal(g));
    if g.Arr? {
      var gs := seq(|g.items|, i requires 0 <= i < |g.items| => [Literal(g.items[i])]);
      RenderAppend(esc, [Kw("GROUP BY ")], JoinGroups(gs, [Kw(", ")]));
      RenderJoinGroups(esc, gs, ", ");
      assert RenderEach(esc, gs) == seq(|g.items|, i requires 0 <= i < |g.items| => esc.literal(g.items[i])) by {
        RenderEachSingles(esc, g.items);
      }
    }
  }

  lemma {:induction false} RenderEachSingles(esc: Escaper, items: seq<Val>)
    ensures RenderEach(esc, seq(|items|, i requires 0 <= i < |items| => [Literal(items[i])])) ==
            seq(|items|, i requires 0 <= i < |items| => esc.literal(items[i]))
  {
    var gs := seq(|items|, i requires 0 <= i < |items| => [Literal(items[i])]);
    if |items| > 0 {
      RenderPieces(esc, Literal(items[0]), Literal(items[0]), Literal(items[0]));
      RenderEachSingles(esc, items[1..]);
      assert gs[1..] == seq(|items[1..]|, i requires 0 <= i < |items[1..]| => [Literal(items[1..][i])]);
    }
  }

  lemma OrderText(esc: Escaper, opts: Props)
    ensures Truthy(Lookup(opts, "order")) ==> Render(esc, Order(opts)) == "ORDER BY " + esc.literal(Lookup(opts, "order")) + " ASC"
    ensures !Truthy(Lookup(opts, "order")) ==> Render(esc, Order(opts)) == "ORDER BY id ASC"
  {
    RenderPieces(esc, Kw("ORDER BY "), Literal(Lookup(opts, "order")), Kw(" ASC"));
    RenderPieces(esc, Kw("ORDER BY id ASC"), Kw(""), Kw(""));
  }

  // ---------------------------------------------------------------- properties of SET

  /** 'SET ' and one assignment per key of `options.set`, in key order, joined by ', '. */
  lemma SetText(esc: Escaper, opts: Props)
    ensures !Truthy(Lookup(opts, "set")) ==> Render(esc, SetClause(opts)) == ""
    ensures Truthy(Lookup(opts, "set")) ==>
              var es := OwnEntries(Lookup(opts, "set"));
              Render(esc, SetClause(opts)) == "SET " + Join(RenderEach(esc, Assignments(es)), ", ")
  {
    if Truthy(Lookup(opts, "set")) {
      var gs := Assignments(OwnEntries(Lookup(opts, "set")));
      RenderAppend(esc, [Kw("SET ")], JoinGroups(gs, [Kw(", ")]));
      RenderJoinGroups(esc, gs, ", ");
    }
  }

  /** How each kind of value is assigned: numbers (NaN included) bare, non-empty strings and Dates quoted,
      everything else, the empty string included, NULL. */
  lemma AssignmentText(esc: Escaper, key: string, value: Val)
    ensures value.Num? ==> Render(esc, Assignment(key, value)) == esc.ident(key) + " = " + NumText(value.n)
    ensures value.NaN? ==> Render(esc, Assignment(key, value)) == esc.ident(key) + " = NaN"
    ensures value.Str? && value.s != "" ==> Render(esc, Assignment(key, value)) == esc.ident(key) + " = " + esc.literal(value)
    ensures value.DateObj? ==> Render(esc, Assignment(key, value)) == esc.ident(key) + " = " + esc.literal(Str(value.text))
    ensures value == Str("") || value.Undef? || value.Null? || value.Bool? || value.Obj? || value.Arr? ==>
              Render(esc, Assignment(key, value)) == esc.ident(key) + " = NULL"
  {
    var a := Assignment(key, value);
    if |a| == 3 {
      RenderPieces(esc, a[0], a[1], a[2]);
    } else {
      RenderPieces(esc, a[0], a[1], a[1]);
    }
  }

  /** SET quotes everything it splices except numbers. */
  lemma SetClauseEscaped(opts: Props)
    ensures Escaped(SetClause(opts))
  {
    if Truthy(Lookup(opts, "set")) {
      var gs := Assignments(OwnEntries(Lookup(opts, "set")));
      JoinGroupsEscaped(gs, [Kw(", ")]);
    }
  }
}
