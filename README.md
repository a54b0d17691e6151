# pg-role in Dafny

pg-role is a small data-access library for PostgreSQL.  Callers describe an operation as
an options object: `model` (the table), `schema`, `where`, `id`, `set`, `limit`, `group`,
`order`, `columns`, `userId` and `deleted`.  The library validates and normalises the
object in place, compiles it into SQL text, sends the text, and reshapes what the
database answers.  On top of this sit a `Model` class bound to one table and a
`ModelInstance` class bound to one row.

This project models that core and proves properties of it:

- `Js` (js.dfy): the JavaScript value semantics the library relies on.  This covers
  truthiness, `typeof`, `String(v)`, `Number(v)` and `isNaN`, and `parseInt(v, 10)`.
  Objects are ordered property lists, so `Object.keys` order is kept, and
  `Object.assign` is modelled.  A class `JsObject` stands for an options object that the
  library mutates in place.
- `Sql` (sql.dfy): statement text is a sequence of pieces.  Each piece is fixed text,
  `ident(name)`, `literal(value)`, or a value spliced in raw by a template literal.
  `Render` turns the pieces into the string.  `ident` and `literal` come from pg-escape
  and are left uninterpreted, as two function fields of an `Escaper`.
- `Parse` (lib/parse.js): the clause builders and the WHERE compiler, including the
  `options.limit = 1` that compiling an `id` writes.
- `LegacyWhere` (lib/where.js): the older exported WHERE compiler.
- `Db` (lib/db.js): option validation, the `where` helper that folds a numeric `id` into
  `where`, and the pool configuration check, taken as a function of an environment map.
- `Audit`: the `*_at` / `*_by` stamping shared by insert and update.
- `Select`, `Insert`, `Update`, `Remove`, `Restore`, `Def`: the statement assemblers.
- `Models` (lib/Model.js): the `Model` and `ModelInstance` classes.

Each imperative operation is a method on `JsObject` state.  It is proved against a
function of the old state: the statement it sends, the value it returns and what it
leaves in the options object.  Lemmas state the properties of those functions.

Source quirks are modelled as written:

- `getValue` tests `typeof obj === 'date'`, which is never true.  A Date therefore
  gives `undefined` in a WHERE term.
- `select` builds its projection from `options.columns`, not from `options`.  The
  projection is then `*` for any string or array column list (see `Select.ColumnsCollapse`).
- OFFSET comes before GROUP BY.
- The "valid where object" checks in update and delete validation can never fail.
- `new Model({model: 'x'})` throws, while `new Model('x')` is accepted.
- `find(null)` searches for `{id: NaN}`.
- Instances never pass `userId`, so deletes and restores made through an instance do not
  record who made them.

Three further behaviours of the code shape the model:

- `update` sends one transaction, `BEGIN; UPDATE … FROM (SELECT … LIMIT …) sub …; SELECT
  … ; END;`, and returns the rows of the follow-up SELECT (lib/update.js:32-54).
- update, delete and restore do not require a WHERE.  Their "valid where object" checks
  (lib/db.js:112-126) run after the `where` helper has made `where` an object.  With
  neither `where` nor `id`, delete and restore stamp every row, and update changes up to
  1000 rows.
- Operator payloads (`$like`, `$gt`, `$gte`, `$lte`, `$lt`, `$ne`) are not validated
  (lib/parse.js:25-48, lib/where.js:11-34).  An undefined or null payload throws a
  TypeError, and any other payload is compiled from its own keys.

## Model

| member | source | states |
|---|---|---|
| Parse.ColumnsText | lib/parse.js:5-15 | With no options the projection is `*`.  A non-empty string column list passes through unchanged, and a value that is neither a string nor an array gives `*`. |
| Parse.ColumnsOfArray | lib/parse.js:10-11 | An array of columns is rendered as its elements' texts joined with `', '`. |
| Parse.GetValueOfDate | lib/parse.js:68-76 | A Date object gives `undefined`, because no value has `typeof` `'date'`. |
| Parse.GetValueEscaped | lib/parse.js:68-76 | `getValue` never splices a caller's string unescaped: strings go through `literal`, and only numbers, NaN and `undefined` are spliced raw. |
| Parse.CompileTerms | lib/parse.js:21-59 | The key-by-key compilation returns the terms of the `where` entries in key order.  It writes `limit = 1` exactly when it reaches an `id` key before a term throws. |
| Parse.Where | lib/parse.js:17-66 | `parse.where` returns the compiled clause and leaves the options as the WHERE effect describes: unchanged, or with `limit` set to 1. |
| Parse.TermsOnePerKey | lib/parse.js:21-59 | The terms compile exactly when every key's term does.  There is then one term per key, in key order. |
| Parse.ReachesIdWhenOk | lib/parse.js:49-51 | Once every term compiles, `limit = 1` is written if and only if `where` has an `id` key. |
| Parse.ReachesIdHasId | lib/parse.js:49-51 | `limit = 1` is written only when there is an `id` key. |
| Parse.WhereForcesLimit | lib/parse.js:17-66 | `parse.where` changes nothing but `limit`.  When it filters by id and succeeds, the LIMIT read afterwards is `LIMIT 1`; when it does not filter by id, the options are unchanged. |
| Parse.KeyTermEscaped | lib/parse.js:25-58 | Every term except the `id` term quotes each caller-supplied string through `ident` or `literal`. |
| Parse.WhereEscaped | lib/parse.js:17-66 | A WHERE clause without an `id` key, and with a numeric or absent `id` option, splices no caller string raw. |
| Parse.WhereText | lib/parse.js:19-59 | A non-empty `where` renders as `'WHERE '` followed by one term per key, in key order, joined by `' AND '`. |
| Parse.IdTermSplicesRaw | lib/parse.js:49-51 | The `id` term splices its value unescaped: `id = <text>`. |
| Parse.NullTestsIgnoreCase | lib/parse.js:52-57 | A string equal to `is null` or `is not null`, ignoring case, gives `IS [NOT] NULL` with no literal.  Any other string gives `ident(key) = literal(value)`. |
| Parse.WhereEmpty | lib/parse.js:60-65 | An empty `where` with a non-numeric `id` gives the empty clause and leaves the options unchanged. |
| Parse.OffsetText | lib/parse.js:78-82 | `OFFSET n` when `Number(offset)` is a number, otherwise nothing. |
| Parse.LimitText | lib/parse.js:84-92 | `LIMIT n` for a positive numeric limit.  Otherwise the LIMIT is a positive numeric default, or 1000. |
| Parse.GroupText | lib/parse.js:94-102 | `GROUP BY literal(g)` for a non-empty string.  For an array, each element is literal-quoted and joined with `', '`.  Anything else gives nothing. |
| Parse.OrderText | lib/parse.js:104-108 | `ORDER BY literal(order) ASC` for a truthy `order`, otherwise `ORDER BY id ASC`. |
| Parse.Set | lib/parse.js:110-128 | The reduce over the keys builds exactly the SET clause. |
| Parse.SetText | lib/parse.js:110-128 | With no `set` the clause is empty.  Otherwise it is `'SET '` followed by one assignment per key, in key order, joined by `', '`. |
| Parse.AssignmentText | lib/parse.js:116-125 | Numbers, NaN included, are bare, non-empty strings are literal-quoted, and Dates are written as `literal(toString())`.  `''`, `undefined`, `null`, booleans, objects and arrays give `= NULL`. |
| Parse.SetClauseEscaped | lib/parse.js:115-127 | The SET clause never splices a caller string raw. |
| LegacyWhere.Where | lib/where.js:3-51 | The older compiler returns its clause and writes `limit = 1` only on the numeric-`id` fallback.  An undefined or null `where` throws. |
| LegacyWhere.LegacyWhereText | lib/where.js:6-44 | A non-empty `where` gives one term per key, in key order, joined by `' AND '`, and never touches `limit`. |
| LegacyWhere.LegacyWhereFallback | lib/where.js:45-50 | An empty `where` with a numeric `id` gives `WHERE id = <id>` and sets `limit` to 1.  With a non-numeric `id` it gives nothing. |
| LegacyWhere.LegacyIdIsOrdinary | lib/where.js:35-43 | `id` is an ordinary key here: a number is bare and anything else is literal-quoted. |
| LegacyWhere.LegacyTagSplicesRaw | lib/where.js:15-18 | Operator payloads are spliced raw, so `{$gt: {c: s}}` renders `ident(c) > s`.  `parse.where` quotes the same payload. |
| LegacyWhere.LegacyAgreesOnPlainKeys | lib/where.js:35-43 | For string and number values of ordinary keys, both compilers give the same term. |
| Db.DefaultsSpec | lib/db.js:88-93 | A missing, empty or non-string `schema` becomes `'public'` and `pool` becomes `'default'`.  Valid values and all other keys are kept, and defaulting twice changes nothing. |
| Db.ValidateOptions | lib/db.js:84-98 | A non-object throws `invalid options object`.  The defaults are written in place.  A missing, empty or non-string `model` throws `you must specify a valid model`. |
| Db.FoldIdSpec | lib/db.js:160-169 | `where` is always an object afterwards.  A numeric `id` is copied into `where.id` and sets `limit` to 1.  Otherwise `limit` is kept.  No other key changes. |
| Db.InstallWhereSpec | lib/db.js:161-163 | A missing or non-object `where` is replaced by `{}`, and nothing else changes. |
| Db.FoldIdNumeric | lib/db.js:164-167 | Assigning `where.id` and `limit` gives the folded options. |
| Db.FoldIdInto | lib/db.js:160-169 | The in-place helper leaves exactly the folded options. |
| Db.ValidateSelect | lib/db.js:100-102 | Select validation is option validation followed by the `where` helper. |
| Db.ValidateInsert | lib/db.js:104-110 | Insert validation also throws `you must specify a set object` when `set` is missing or not an object. |
| Db.ValidateUpdate | lib/db.js:112-118 | Update validation fails only on the model or the `set`.  Its "valid where object" check never fires. |
| Db.ValidateDelete | lib/db.js:120-126 | Delete validation fails only on the model.  Its "valid where object" check never fires. |
| Db.ValidatedShape | lib/db.js:112-126 | After validation, `model`, `schema` and `pool` are non-empty strings and `where` is an object.  With neither `where` nor `id`, `where` is `{}`. |
| Db.FirstMissing | lib/db.js:147-156 | Finds the first value that is not a string, with every earlier value a string. |
| Db.ValidatePoolConfig | lib/db.js:128-158 | A pool name that is not a non-empty string throws.  The check succeeds if and only if all five values are strings.  Otherwise it throws the message naming the first missing variable, in the order host, database, port, user, password. |
| Db.DefaultPool | lib/db.js:133-139 | The pool `default`, in any case, reads `PGHOST`, `PGDATABASE`, `PGPORT`, `PGUSER` and `PGPASSWORD`. |
| Db.NamedPool | lib/db.js:140-146 | Another pool name needs `PG_<NAME>_USER` and `PG_<NAME>_PASSWORD`, and falls back to `PGHOST` for the host. |
| Audit.StampInto | lib/update.js:28-31 | Stamping writes the stamped `set` into the options and changes nothing else. |
| Audit.StampSpec | lib/insert.js:26-29 | `*_at` becomes `now`.  `*_by` becomes `userId` exactly when `userId` is truthy.  Every other key of `set` is kept. |
| Select.Select | lib/select.js:54-77 | `select` returns the statement and the reshaped result, or the validation error.  It leaves the options validated, filtered and with the WHERE effect applied. |
| Select.PreparedKeeps | lib/select.js:55-58 | Preparing the options changes nothing but `where`, `limit`, `schema` and `pool`. |
| Select.SelectTextRender | lib/select.js:59-67 | The rendered statement is `SELECT`, the projection of `options.columns`, `FROM` the validated schema and the model, the WHERE clause of the filtered options, then OFFSET, GROUP BY and ORDER BY from the caller's own options, and last the LIMIT read after the WHERE clause has been compiled. |
| Select.FilterStep | lib/select.js:56-58 | `where.deleted_at = 'is null'` is added if and only if `where.deleted_at` and `deleted` are both falsy.  Otherwise the options are unchanged. |
| Select.DefaultFilter | lib/select.js:55-58 | After validation, the filter is present exactly when neither `where.deleted_at` nor `deleted` is set. |
| Select.DefaultFilterInText | lib/select.js:56-62 | The added filter appears in the statement as `deleted_at IS NULL`. |
| Select.FilterInWhere | lib/select.js:62 | A `where` holding `deleted_at: 'is null'` compiles to a clause containing `deleted_at IS NULL`. |
| Select.DeletedAtTerm | lib/parse.js:52-53 | `deleted_at: 'is null'` compiles to `deleted_at IS NULL`. |
| Select.SelectById | lib/select.js:62-66 | A numeric `id` makes the LIMIT `LIMIT 1`. |
| Select.ColumnsCollapse | lib/select.js:60 | A string or array column list is still projected as `*`. |
| Select.ColumnListIsStar | lib/select.js:60 | `parse.columns` of a string or an array without its own `columns` property is `*`. |
| Insert.Insert | lib/insert.js:24-45 | `insert` returns the outcome function's value and leaves the validated, stamped options. |
| Insert.InsertStamps | lib/insert.js:26-29 | `set` gains `created_at = now`.  `created_by = userId` is added exactly when `userId` is truthy.  Other keys are kept. |
| Insert.InsertAlwaysThrows | lib/insert.js:30-32 | As written, every insert that passes validation throws `parse.getValue is not a function`. |
| Insert.InsertTextRender | lib/insert.js:33-38 | The INSERT text is the table, the column list and the VALUES list, each joined with `', '`, followed by `RETURNING` and the projection. |
| Insert.ColumnsAlignWithValues | lib/insert.js:30-32 | The columns and the values come from the same key sequence: equal length, and position i holds key i and its value. |
| Insert.IntendedInsertAligned | lib/insert.js:24-45 | With `getValue` reachable, the insert succeeds, returns the first row and renders the aligned column and value lists. |
| Update.Prepare | lib/update.js:27-31 | Update validation is followed by the stamps, or the validation error is returned. |
| Update.Update | lib/update.js:26-55 | `update` returns the outcome function's value and leaves the stamped options with the WHERE effect applied. |
| Update.UpdateStamps | lib/update.js:28-31 | `updated_at = now` is always set, and `updated_by = userId` exactly when `userId` is truthy.  Other keys of `set` are kept. |
| Update.UpdatePreparedKeeps | lib/update.js:28-31 | Stamping touches only `set`. |
| Update.UpdateReturnsFollowUp | lib/update.js:51-54 | The value returned depends only on the third result, the follow-up SELECT: the results of BEGIN and of the UPDATE play no part. |
| Update.UpdateTextRender | lib/update.js:32-48 | The rendered transaction: the UPDATE assigns the SET clause of the stamped `set`; the sub-select carries the WHERE clause of the prepared options; the sub-select and the follow-up SELECT carry the same LIMIT, read after that WHERE clause has been compiled; every table reference is the validated schema and the model. |
| Update.UpdateById | lib/update.js:32-48 | A numeric `id` makes both LIMITs `LIMIT 1`, because `parse.where` runs first. |
| Update.UpdateUnfiltered | lib/update.js:39-40 | With neither `where` nor `id` there is no WHERE, and the sub-select takes up to 1000 rows. |
| Remove.Send | lib/remove.js:35-46 | The UPDATE text is built with the WHERE compiled before RETURNING is read, and every returned row comes back. |
| Remove.ReplaceSet | lib/remove.js:27-34 | `set` is replaced outright by the soft-delete `set`. |
| Remove.Remove | lib/remove.js:25-47 | `remove` validates, replaces `set` and sends the UPDATE.  Its result and effect are the soft-delete functions' values. |
| Remove.RemoveDefault | lib/remove.js:25-26 | `remove()` and `remove(undefined)` take the default `{}`, which has no model, so they reject with 'you must specify a valid model'. |
| Remove.RemoveSetAssigned | lib/remove.js:27-34 | The literal followed by the two assignments builds the soft-delete `set`. |
| Remove.ReplacedKeeps | lib/remove.js:26-30 | Any caller `set` is discarded.  Everything but `set`, `where` and `limit` is as validation left it. |
| Remove.RemoveSetClause | lib/remove.js:27-38 | The SET writes `deleted_at` and `updated_at`, then, for a truthy `userId`, `deleted_by` and `updated_by`.  The caller's `set` plays no part. |
| Remove.RemoveAssignments | lib/remove.js:27-34 | The assignments of the soft-delete `set`, in order. |
| Remove.IdWhere | lib/db.js:164-167 | With no `where` object and a numeric `id`, `where` becomes `{id}`. |
| Remove.SoftById | lib/remove.js:38 | Addressed by a numeric `id` alone, the UPDATE has `WHERE id = <id>`. |
| Remove.SoftUnfiltered | lib/remove.js:38 | With neither `where` nor `id` there is no WHERE, so every row is stamped. |
| Remove.SoftIsUpdate | lib/remove.js:35-46 | The statement begins `UPDATE schema.model` and is never a DELETE.  Every returned row comes back. |
| Remove.SoftTextStart | lib/remove.js:35-40 | The soft-delete text starts with `UPDATE` and the table. |
| Restore.ClearSet | lib/restore.js:27-34 | `set` is replaced outright by the restore `set`. |
| Restore.Restore | lib/restore.js:25-47 | `restore` validates as a delete, replaces `set` and sends the same UPDATE layout as `remove`. |
| Restore.RestoreDefault | lib/restore.js:25-26 | `restore()` and `restore(undefined)` take the default `{}`, which has no model, so they reject with 'you must specify a valid model'. |
| Restore.RestoreSetAssigned | lib/restore.js:27-34 | The literal followed by the assignment builds the restore `set`. |
| Restore.RestoreSetClause | lib/restore.js:27-34 | The SET writes NULL into `deleted_at` and `deleted_by` and the stamp into `updated_at`.  For a truthy `userId` it also writes `String(userId)` into `updated_by`.  The caller's `set` plays no part. |
| Restore.RestoreAssignments | lib/restore.js:27-31 | The empty strings render as `= NULL`. |
| Restore.NumericUserIsText | lib/restore.js:32-34 | A numeric `userId` is written as its decimal text, literal-quoted. |
| Restore.SameTarget | lib/restore.js:35-40 | A restore addresses exactly the rows a remove would, and adds no `deleted_at` filter. |
| Def.Def | lib/def.js:22-44 | `def` validates the options, then returns the introspection statement and the reshaped result. |
| Def.DefRendered | lib/def.js:24-43 | The statement reads `column_name, data_type, ordinal_position` from `information_schema.columns`.  It filters by database, schema (default `public`) and model, each in single quotes and unescaped, and orders by `ordinal_position`.  The value returned is the field names and the rows. |
| Def.DefTextRender | lib/def.js:24-34 | The three names are spliced between the fixed texts. |
| Js.NumberOfNumText | lib/Model.js:126 | The decimal text of an integer reads back as that integer under `Number`. |
| Js.ParseIntOfNumText | lib/Model.js:127 | The decimal text of an integer reads back as that integer under `parseInt(_, 10)`. |
| Models.Model.constructor | lib/Model.js:31-47 | The state is the defaults, overridden by the props, with `model` set to the resolved name. |
| Models.Model.New | lib/Model.js:31-47 | `new Model` either throws the constructor's error or gives a fresh model with that state. |
| Models.ModelAccepts | lib/Model.js:33-39 | A model is accepted if and only if it is a non-empty string or an object whose `model` is a string of more than one character.  Otherwise `'invalid model' + model` is thrown, or for `null` the TypeError of reading `null.model`. |
| Models.ModelStateKeys | lib/Model.js:41-46 | Every other key holds the value the props assign it last, falling back to `database: PGDATABASE` and `columns: '*'`. |
| Models.OneCharacterName | lib/Model.js:33-36 | A one-character name is accepted as a string but rejected inside an object. |
| Models.Model.GetModelDef | lib/Model.js:49-56 | `getModelDef` is `def` of the model's name, schema and database. |
| Models.ModelDefRendered | lib/Model.js:49-56 | `getModelDef` introspects the model's own table in its own database and schema. |
| Models.Model.Create | lib/Model.js:68-77 | `create` inserts into the model's table and wraps the returned row in a new instance, or returns the insert's error. |
| Models.CreateAlwaysThrows | lib/Model.js:68-77 | As the library is written, `create` throws for every `set` that is an object. |
| Models.Model.Select | lib/Model.js:92-107 | `select` is `select` of the arguments described next. |
| Models.SelectArgsSpec | lib/Model.js:94-106 | The projection and schema fall back to the state and then to `*` or `public`.  Only `where`, `limit`, `group` and `order` are forwarded, and only from an object `opts`. |
| Models.SelectHidesDeleted | lib/Model.js:98-106 | A model's select always contains `deleted_at IS NULL` unless its `where` filters on `deleted_at`. |
| Models.Model.Find | lib/Model.js:121-146 | `find` throws for an invalid `where`.  Otherwise it selects and wraps the first row in a new instance whose props are the state followed by the options. |
| Models.FindWhereThrows | lib/Model.js:124-130 | `find` throws `invalid where object` exactly for a value that is not a number, is NaN under `Number` and is not an object.  A plain object is used as it is. |
| Models.FindWhereNumber | lib/Model.js:124-127 | A number and its decimal text both become `{id: n}`. |
| Models.FindWhereNull | lib/Model.js:126-127 | `find(null)` looks for `{id: NaN}`. |
| Models.FindLimitsToOne | lib/Model.js:134-143 | Whatever `find` is given, its statement ends in `LIMIT 1`. |
| Models.FindByIdHidesDeleted | lib/Model.js:134-143 | A find by a numeric id, without `deleted`, compiles to `WHERE id = <id> AND deleted_at IS NULL`, so a soft-deleted row is not found. |
| Models.ModelInstance.constructor | lib/Model.js:182-187 | The instance's state is the props followed by `data`. |
| Models.Project | lib/Model.js:205-208 | `get` of an array gives an array of the same length. |
| Models.ModelInstance.Get | lib/Model.js:203-213 | `get` is the projection of the row, as stated by `ProjectEach`. |
| Models.ProjectEach | lib/Model.js:203-213 | `get(array)` succeeds if and only if the array is empty or the row can be read.  It then gives, position by position, what `get` gives for each key alone.  Otherwise it throws the TypeError of the first key. |
| Models.ModelInstance.Update | lib/Model.js:223-234 | `update` sends an update for the row's id.  On success `state.data` becomes the first returned row and nothing else changes.  On an error the state is unchanged. |
| Models.ModelInstance.Delete | lib/Model.js:243-253 | `delete` is a soft delete of the row's id.  On success `state.data` becomes the first returned row.  On an error the state is unchanged. |
| Models.ModelInstance.Restore | lib/Model.js:262-272 | `restore` addresses the row's id.  On success `state.data` becomes the first returned row.  On an error the state is unchanged. |
| Models.InstanceArgsSpec | lib/Model.js:226-231 | An instance passes its model, its schema, the row's `id` and, for an update, the `set`.  It never passes `where`, `limit` or `userId`. |
| Models.InstanceTargetsRow | lib/Model.js:246-250 | For a row with a numeric `id`, the delete or restore has `WHERE id = <id>`. |
| Models.InstanceWithoutId | lib/Model.js:246-250 | For a row without a numeric `id` there is no WHERE, so the delete or restore stamps every row. |
| Models.InstanceUpdateTargetsRow | lib/Model.js:226-231 | For a row with a numeric `id`, the update has `WHERE id = <id>` and `LIMIT 1`. |
| Models.InstanceUpdateWithoutId | lib/Model.js:226-231 | For a row without a numeric `id` there is no WHERE, and the update changes up to 1000 rows. |

## Left out

- The pool registry and connection lifecycle (`db.connect`, `db.client`, `db.release`)
  are left out.  They are promise and `pg.Pool` plumbing over process-wide state.  The
  `role` option only selects a pool there.
- Executing statements (`client.query`, lib/query.js) is left out.  What the database
  answers is a parameter of each operation.  `rowMode` is forwarded to the driver, and
  the model does not capture it.
- The effects of the statements on the database are database behaviour, not library
  logic.  Examples: a removed row still exists with a non-null `deleted_at`; a restored
  row has a null `deleted_at` and is found again by a default select.
- `ident` and `literal` (pg-escape) are uninterpreted.  Every property holds whatever
  they return.
- `new Date().toISOString()` and the environment (`lib/env`, `PGDATABASE`) are
  parameters.  Date values carry their `toString()` and `toISOString()` texts as fields.
- Asynchrony is left out: a rejected promise is an `Err` result.
- Numbers are integers and NaN.  Fractions, exponents, Infinity and `-0` are not
  modelled.  `Number` of a string accepts surrounding white space, an optional sign and
  decimal digits, so texts such as `"1.5"` or `"0x10"` are read as NaN.
- `Object.keys` puts integer-like keys first in ascending order.  The model keeps plain
  insertion order for every key.
- Error values are identified by their kind and message.  The TypeError messages use
  V8's wording.
- tmp/deploy.js, tmp/apply.js and tmp/rollback.js are left out: they are deployment and
  migration scripts.  index.js only re-exports the modules.
- The test files are used only as evidence of intended behaviour.
- Db.ValidatePoolConfig: the pool name is upper-cased by mapping the ASCII letters only.
  `toUpperCase` also maps other letters (`'straße'` gives `STRASSE`), so for a non-ASCII
  pool name the model reads other environment variables than the library.
- Db.FoldIdInto, Select.Select, Audit.StampInto, Insert.Insert, Update.Update and the
  methods of Models.Model and Models.ModelInstance: nested `where` and `set` objects are
  values inside the options object, not shared references.  The library writes into the
  caller's own `where` and `set` objects (`where.id`, `where.deleted_at`, the `*_at` and
  `*_by` stamps), and a caller that reuses such an object sees those writes in later
  calls.  The model does not capture that aliasing: only the options object itself is
  updated in place.
- Models.ModelInstance.Get: its contract equates it with the projection function.  The
  properties of the projection are stated by `Models.ProjectEach` and `Models.Project`.

## Findings

| source | as written | input that shows it | evidently intended | confidence | as-written member | corrected member |
|---|---|---|---|---|---|---|
| lib/insert.js:32 | The VALUES list calls `parse.getValue`.  lib/parse.js defines `getValue` as a private function and never attaches it to the exported object, so the call hits `undefined`. | `insert({model: 'users', set: {email: 'a'}})`: after stamping, `set` always has the key `created_at`, so the map calls `undefined` and throws `TypeError: parse.getValue is not a function` before anything is sent. | The VALUES list holds `getValue` of each `set` value, aligned with the column list, and the insert returns the first returned row. | not executed | Insert.InsertAlwaysThrows | Insert.IntendedInsertAligned |
