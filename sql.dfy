/** Statement text as the library assembles it: a sequence of fragments, each saying
    where its characters come from, so that what reaches the database unescaped can be
    stated and checked. */
module Sql {
  import opened Js

  /** The two functions the library takes from pg-escape: `ident` quotes an identifier and
      `literal` a value.  Their output is left open: every property below holds whatever
      they return. */
  datatype Escaper = Escaper(ident: string -> string, literal: Val -> string)

  /** A fragment of statement text. */
  datatype Piece =
    | Kw(text: string)     // text written out in the library's own source
    | Ident(name: string)  // ident(name)
    | Literal(value: Val)  // literal(value)
    | Raw(value: Val)      // `${value}`: the value's text spliced in unescaped

  function PieceText(esc: Escaper, p: Piece): string {
    match p
    case Kw(t) => t
    case Ident(n) => esc.ident(n)
    case Literal(v) => esc.literal(v)
    case Raw(v) => ToText(v)
  }

  /** The text of a fragment sequence. */
  function Render(esc: Escaper, ps: seq<Piece>): string
    decreases |ps|
  {
    if |ps| == 0 then "" else PieceText(esc, ps[0]) + Render(esc, ps[1..])
  }

  lemma RenderPieces(esc: Escaper, a: Piece, b: Piece, c: Piece)
    ensures Render(esc, [a]) == PieceText(esc, a)
    ensures Render(esc, [a, b]) == PieceText(esc, a) + PieceText(esc, b)
    ensures Render(esc, [a, b, c]) == PieceText(esc, a) + PieceText(esc, b) + PieceText(esc, c)
  {
    assert Render(esc, [c]) == PieceText(esc, c) by { assert [c][1..] == []; }
    assert Render(esc, [b]) == PieceText(esc, b) by { assert [b][1..] == []; }
    assert Render(esc, [a]) == PieceText(esc, a) by { assert [a][1..] == []; }
    assert Render(esc, [b, c]) == PieceText(esc, b) + Render(esc, [c]) by { assert [b, c][1..] == [c]; }
    assert Render(esc, [a, b]) == PieceText(esc, a) + Render(esc, [b]) by { assert [a, b][1..] == [b]; }
    assert Render(esc, [a, b, c]) == PieceText(esc, a) + Render(esc, [b, c]) by { assert [a, b, c][1..] == [b, c]; }
  }

  lemma {:induction false} RenderAppend(esc: Escaper, a: seq<Piece>, b: seq<Piece>)
    ensures Render(esc, a + b) == Render(esc, a) + Render(esc, b)
    decreases |a|
  {
    if |a| == 0 {
      assert a + b == b;
    } else {
      assert (a + b)[0] == a[0];
      assert (a + b)[1..] == a[1..] + b;
      RenderAppend(esc, a[1..], b);
    }
  }

  /** Fixed text, then fragments, then fixed text. */
  lemma RenderBetween(esc: Escaper, a: string, x: seq<Piece>, b: string)
    ensures Render(esc, [Kw(a)] + x) == a + Render(esc, x)
    ensures Render(esc, [Kw(a)] + x + [Kw(b)]) == a + Render(esc, x) + b
  {
    RenderAppend(esc, [Kw(a)] + x, [Kw(b)]);
    RenderAppend(esc, [Kw(a)], x);
    RenderPieces(esc, Kw(a), Kw(b), Kw(b));
  }

  /** Fragments, then fixed text. */
  lemma RenderThenKw(esc: Escaper, x: seq<Piece>, b: string)
    ensures Render(esc, x + [Kw(b)]) == Render(esc, x) + b
  {
    RenderAppend(esc, x, [Kw(b)]);
    RenderPieces(esc, Kw(b), Kw(b), Kw(b));
  }

  /** Fixed text and fragments, alternating. */
  lemma RenderAlternating(esc: Escaper, a: string, x: seq<Piece>, b: string, y: seq<Piece>, c: string)
    ensures Render(esc, [Kw(a)] + x + [Kw(b)] + y + [Kw(c)]) == a + Render(esc, x) + b + Render(esc, y) + c
  {
    var ax := [Kw(a)] + x;
    RenderBetween(esc, a, x, b);
    RenderAppend(esc, ax + [Kw(b)], y);
    RenderThenKw(esc, ax + [Kw(b)] + y, c);
  }

  /** `${schema}.${model}` */
  lemma RenderTable(esc: Escaper, schema: Val, model: Val)
    ensures Render(esc, Table(schema, model)) == ToText(schema) + "." + ToText(model)
  {
    RenderPieces(esc, Raw(schema), Kw("."), Raw(model));
  }

  /** `groups.join(sep)`, one level above the text. */
  function JoinGroups(gs: seq<seq<Piece>>, sep: seq<Piece>): seq<Piece>
    decreases |gs|
  {
    if |gs| == 0 then []
    else if |gs| == 1 then gs[0]
    else gs[0] + sep + JoinGroups(gs[1..], sep)
  }

  /** The text of each group. */
  function RenderEach(esc: Escaper, gs: seq<seq<Piece>>): (ts: seq<string>)
    ensures |ts| == |gs|
    decreases |gs|
  {
    if |gs| == 0 then [] else [Render(esc, gs[0])] + RenderEach(esc, gs[1..])
  }

  /** Joining fragment groups and then rendering is rendering each group and joining the
      texts with the separator's text. */
  lemma {:induction false} RenderJoinGroups(esc: Escaper, gs: seq<seq<Piece>>, sep: string)
    ensures Render(esc, JoinGroups(gs, [Kw(sep)])) == Join(RenderEach(esc, gs), sep)
    decreases |gs|
  {
    if |gs| > 1 {
      var rest := JoinGroups(gs[1..], [Kw(sep)]);
      RenderJoinGroups(esc, gs[1..], sep);
      RenderAppend(esc, gs[0] + [Kw(sep)], rest);
      RenderAppend(esc, gs[0], [Kw(sep)]);
      assert Render(esc, [Kw(sep)]) == sep;
      assert RenderEach(esc, gs)[1..] == RenderEach(esc, gs[1..]);
    }
  }

  lemma {:induction false} RenderEachAt(esc: Escaper, gs: seq<seq<Piece>>, i: nat)
    requires i < |gs|
    ensures RenderEach(esc, gs)[i] == Render(esc, gs[i])
    decreases i
  {
    if i > 0 {
      RenderEachAt(esc, gs[1..], i - 1);
    }
  }

  /** `schema.model`, as every statement names its table. */
  function Table(schema: Val, model: Val): seq<Piece> {
    [Raw(schema), Kw("."), Raw(model)]
  }

  /** Splices nothing a caller wrote without escaping it: what goes in raw is a number,
      NaN or undefined, whose text is digits or a fixed word. */
  predicate EscapedPiece(p: Piece) {
    p.Raw? ==> p.value.Num? || p.value.NaN? || p.value.Undef?
  }

  predicate Escaped(ps: seq<Piece>) {
    forall i :: 0 <= i < |ps| ==> EscapedPiece(ps[i])
  }

  lemma {:induction false} JoinGroupsEscaped(gs: seq<seq<Piece>>, sep: seq<Piece>)
    requires forall i :: 0 <= i < |gs| ==> Escaped(gs[i])
    requires Escaped(sep)
    ensures Escaped(JoinGroups(gs, sep))
    decreases |gs|
  {
    if |gs| > 1 {
      JoinGroupsEscaped(gs[1..], sep);
      var rest := JoinGroups(gs[1..], sep);
      assert JoinGroups(gs, sep) == gs[0] + sep + rest;
      forall i | 0 <= i < |gs[0] + sep + rest|
        ensures EscapedPiece((gs[0] + sep + rest)[i])
      {
        if i < |gs[0]| {
        } else if i < |gs[0]| + |sep| {
          assert (gs[0] + sep + rest)[i] == sep[i - |gs[0]|];
        } else {
          assert (gs[0] + sep + rest)[i] == rest[i - |gs[0]| - |sep|];
        }
      }
    }
  }

  /** `run` occurs in `ps` as a contiguous stretch of fragments. */
  predicate Contains(ps: seq<Piece>, run: seq<Piece>)
    decreases |ps|
  {
    run <= ps || (|ps| > 0 && Contains(ps[1..], run))
  }

  lemma {:induction false} ContainsAfter(a: seq<Piece>, b: seq<Piece>, run: seq<Piece>)
    requires Contains(b, run)
    ensures Contains(a + b, run)
    decreases |a|
  {
    if |a| == 0 {
      assert a + b == b;
    } else {
      assert (a + b)[1..] == a[1..] + b;
      ContainsAfter(a[1..], b, run);
    }
  }

  lemma {:induction false} ContainsBefore(a: seq<Piece>, b: seq<Piece>, run: seq<Piece>)
    requires Contains(a, run)
    ensures Contains(a + b, run)
    decreases |a|
  {
    if run <= a {
      assert run <= a + b;
    } else {
      assert (a + b)[1..] == a[1..] + b;
      ContainsBefore(a[1..], b, run);
    }
  }

  /** A group that is joined keeps its fragments, contiguously, in the result. */
  lemma ContainsMiddle(a: seq<Piece>, b: seq<Piece>, c: seq<Piece>, run: seq<Piece>)
    requires Contains(b, run)
    ensures Contains(a + b + c, run)
  {
    ContainsBefore(b, c, run);
    ContainsAfter(a, b + c, run);
    assert a + b + c == a + (b + c);
  }

  lemma {:induction false} JoinGroupsContains(gs: seq<seq<Piece>>, sep: seq<Piece>, j: nat)
    requires j < |gs|
    ensures Contains(JoinGroups(gs, sep), gs[j])
    decreases |gs|
  {
    if |gs| == 1 || j == 0 {
      var all := JoinGroups(gs, sep);
      assert gs[0] <= all;
    } else {
      JoinGroupsContains(gs[1..], sep, j - 1);
      ContainsAfter(gs[0] + sep, JoinGroups(gs[1..], sep), gs[j]);
      assert JoinGroups(gs, sep) == gs[0] + sep + JoinGroups(gs[1..], sep);
    }
  }

  // ---------------------------------------------------------------- what the driver returns

  /** A result column as the driver describes it; only its name is used. */
  datatype Field = Field(name: string)

  /** One result set: its column descriptions and its rows.  Rows are opaque values. */
  datatype QueryResult = QueryResult(fields: seq<Field>, rows: seq<Val>)

  /** The `{fields, rows}` object `select` and `def` return. */
  datatype Selected = Selected(fields: seq<string>, rows: seq<Val>)

  /** A statement as it is sent, and the value the operation then returns. */
  datatype Call<T> = Call(text: seq<Piece>, value: T)

  /** `result.fields.map(field => field.name)` */
  function FieldNames(fs: seq<Field>): (names: seq<string>)
    ensures |names| == |fs| && forall i :: 0 <= i < |fs| ==> names[i] == fs[i].name
  {
    seq(|fs|, i requires 0 <= i < |fs| => fs[i].name)
  }

  /** `{fields: result.fields.map(f => f.name), rows: result.rows}` */
  function Reshape(result: QueryResult): Selected {
    Selected(FieldNames(result.fields), result.rows)
  }

  /** `rows[0]`: the first row, or undefined for an empty result. */
  function FirstRow(rows: seq<Val>): (r: Val)
    ensures |rows| > 0 ==> r == rows[0]
    ensures |rows| == 0 ==> r == Undef
  {
    if |rows| > 0 then rows[0] else Undef
  }
}
