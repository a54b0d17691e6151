/** lib/def.js: the column definitions of one table, read from
    `information_schema.columns`.  The database, schema and table names are spliced into
    quoted string literals of the statement without escaping.  The statement's result
    comes from the database and is a parameter here. */
module Def {
  import opened Js
  import opened Sql
  import opened Db

  const DefHead := "\n        SELECT\n            column_name,\n            data_type,\n            ordinal_position\n        FROM information_schema.columns\n        WHERE table_catalog = '"
  const SchemaGap := "'\n            AND table_schema = '"
  const ModelGap := "'\n            AND table_name = '"
  const DefEnd := "'\n        ORDER BY ordinal_position;\n    "

  /** The statement for validated options `p`. */
  function DefText(p: Props): seq<Piece> {
    [Kw(DefHead), Raw(Lookup(p, "database")), Kw(SchemaGap), Raw(Lookup(p, "schema")),
     Kw(ModelGap), Raw(Lookup(p, "model")), Kw(DefEnd)]
  }

  /** What `def(options)` gives for the result the database answers. */
  function DefOutcome(opts: Props, response: QueryResult): Result<Call<Selected>> {
    if NonEmptyString(Lookup(opts, "model")) then Ok(Call(DefText(Defaults(opts)), Reshape(response)))
    else Err(InvalidModel)
  }

  /** `def(options)`.  A null reference stands for an argument that is not an object. */
  method Def(options: JsObject?, response: QueryResult) returns (r: Result<Call<Selected>>)
    modifies options
    ensures options == null ==> r == Err(InvalidOptions)
    ensures options != null ==> options.props == Defaults(old(options.props))
    ensures options != null ==> r == DefOutcome(old(options.props), response)
  {
    var err := ValidateOptions(options);
    if err.Some? {
      return Err(err.value);
    }
    r := Ok(Call(DefText(options.props), Reshape(response)));
  }

  // ---------------------------------------------------------------- properties

  /** The text names the table by the three values as written, each between single
      quotes and none escaped: the database as `String(database)` (so 'undefined' when it
      is missing), the schema as the caller's when it is a non-empty string, else
      'public'.  What comes back is the field names and the rows of the result. */
  lemma DefRendered(esc: Escaper, opts: Props, response: QueryResult)
    requires NonEmptyString(Lookup(opts, "model"))
    ensures DefOutcome(opts, response).Ok?
    ensures var schema := if NonEmptyString(Lookup(opts, "schema")) then Lookup(opts, "schema").s else "public";
            Render(esc, DefOutcome(opts, response).value.text) ==
              DefHead + ToText(Lookup(opts, "database")) + SchemaGap + schema + ModelGap + Lookup(opts, "model").s + DefEnd
    ensures DefOutcome(opts, response).value.value == Selected(FieldNames(response.fields), response.rows)
  {
    var p := Defaults(opts);
    DefaultsSpec(opts, "database");
    DefaultsSpec(opts, "model");
    DefaultsSpec(opts, "schema");
    DefTextRender(esc, p);
  }

  lemma DefTextRender(esc: Escaper, p: Props)
    ensures Render(esc, DefText(p)) ==
              DefHead + ToText(Lookup(p, "database")) + SchemaGap + ToText(Lookup(p, "schema")) + ModelGap +
              ToText(Lookup(p, "model")) + DefEnd
  {
    RenderQuoted(esc, DefHead, Lookup(p, "database"), SchemaGap, Lookup(p, "schema"), ModelGap, Lookup(p, "model"), DefEnd);
  }

  /** Three values spliced between four fixed texts. */
  lemma RenderQuoted(esc: Escaper, h: string, x: Val, g1: string, y: Val, g2: string, z: Val, e: string)
    ensures Render(esc, [Kw(h), Raw(x), Kw(g1), Raw(y), Kw(g2), Raw(z), Kw(e)]) ==
              h + ToText(x) + g1 + ToText(y) + g2 + ToText(z) + e
  {
    var last := [Kw(e)];
    var third := [Kw(g2), Raw(z)] + last;
    var second := [Kw(g1), Raw(y)] + third;
    assert [Kw(h), Raw(x), Kw(g1), Raw(y), Kw(g2), Raw(z), Kw(e)] == [Kw(h), Raw(x)] + second;
    assert Render(esc, last) == e by {
      assert last[1..] == [];
    }
    RenderKwRaw(esc, g2, z, last);
    RenderKwRaw(esc, g1, y, third);
    RenderKwRaw(esc, h, x, second);
    Flatten(h, ToText(x), g1, ToText(y), g2, ToText(z), e);
  }

  /** Regrouping the seven parts of the text. */
  lemma Flatten(a: string, b: string, c: string, d: string, f: string, g: string, k: string)
    ensures a + b + (c + d + (f + g + k)) == a + b + c + d + f + g + k
  {
    var tail := f + g + k;
    assert c + d + tail == (c + d) + tail;
    assert a + b + ((c + d) + tail) == (a + b + c + d) + tail;
    assert (a + b + c + d) + (f + g + k) == a + b + c + d + f + g + k;
  }

  /** A fixed text, a spliced value, then the rest. */
  lemma RenderKwRaw(esc: Escaper, k: string, v: Val, rest: seq<Piece>)
    ensures Render(esc, [Kw(k), Raw(v)] + rest) == k + ToText(v) + Render(esc, rest)
  {
    var ps := [Kw(k), Raw(v)] + rest;
    assert ps[1..][1..] == rest;
  }
}
