# Opportunity listing normaliser — a Dafny model

The server of this lead-capture kanban exposes two tools over an external
SQL endpoint. CREATE_OPPORTUNITY inserts one opportunity (company, contact,
phone, email, interest, plus a generated id and a creation timestamp).
LIST_OPPORTUNITIES selects the newest rows and normalises the endpoint's
loosely typed response into an ordered list of `items`, each with an `id`
and six further fields.

The normaliser is the core of this model. It digs the rows out of
`res.result[0].results`. It then re-keys them when the first row carries a
`values` array: by the result-level `meta.columns` when those are an array,
otherwise by the row's own `columns` when the result-level ones are falsy.
Finally it maps every row to an item: an array positionally, anything else
by key, with `id` falling back through `id`, `ID`, `Id`, `rowid`, made text,
and cleaned of the literal "undefined".

Files:

- `js_values.dfy` (module `JsValues`): JavaScript values (`undefined` kept
  apart from `null`), `??`, truthiness, property and index access with and
  without optional chaining, `String(...)`, and a `Result` for the TypeError
  a property read of a nullish value throws.
- `normalizer.dfy` (module `Normalizer`): the normaliser as functions
  (`Normalize` and its parts) and as the step-by-step code of the tool
  (`ListItems`, with the re-keying loops `FillObject`, `RekeyOne`,
  `RekeyRows` and the mapping loop `MapItems`), each method proved equal to
  its function.
- `normalizer_lemmas.dfy` (module `NormalizerProperties`): what the
  normaliser promises.
- `accessor.dfy` (module `Accessor`): the INSERT parameters and returned id
  of CREATE_OPPORTUNITY, the id generator's fallback, the default limit of
  LIST_OPPORTUNITIES, and the create-then-list round trip.

## Model

| member | source | states |
|---|---|---|
| `JsValues.Decimal` | server/main.ts:68 | The decimal text of a number, as `String(Date.now())` gives it, is non-empty and made of digits only |
| `JsValues.DecimalValue` | server/main.ts:68 | The decimal text of `n` read back as digits is `n` itself, so distinct numbers have distinct texts |
| `Normalizer.ResultList` | server/main.ts:124 | `res?.result ?? []` is never nullish, so indexing it cannot throw |
| `Normalizer.FirstEntry` | server/main.ts:125 | `resultArray[0] ?? {}` is never nullish |
| `Normalizer.RawRows` | server/main.ts:126 | `first?.results ?? []` is never nullish |
| `Normalizer.MetaColumns` | server/main.ts:130-131 | The result-level columns are `undefined` when the first entry has no `meta` (or a nullish one), and otherwise that `meta`'s `columns` |
| `Normalizer.DetectRekeying` | server/main.ts:133-150 | Result-level columns are chosen only when they are an array; per-row columns only when the result-level columns are falsy; any re-keying needs a non-empty row list whose first row is an object with a `values` array |
| `Normalizer.RekeyAll` | server/main.ts:138-149 | Re-keying the rows succeeds exactly when every row re-keys; it then gives one row per input row, in order, row k coming from input row k |
| `Normalizer.OrNull` | server/main.ts:160-175 | `x ?? null` is never `undefined`; it is `null` for a nullish `x` and `x` otherwise |
| `Normalizer.Sanitize` | server/main.ts:179-180 | The literal id "undefined" becomes "", and any other id is kept unchanged, so the cleaned id is never "undefined" |
| `Normalizer.ToItem` | server/main.ts:155-183 | Every item's id is text other than "undefined", and none of its six other fields is `undefined` |
| `Normalizer.Normalize` | server/main.ts:122-186 | A row list that is not an array gives no items; otherwise there are as many items as rows; no item's id is "undefined" |
| `Normalizer.FillObject` | server/main.ts:139-141 | The loop `obj[keys[i]] = r.values[i]` builds exactly the object `Fill` describes, or throws exactly when `Fill` does |
| `Normalizer.FillStopsAtError` | server/main.ts:140 | Once one iteration of the filling loop throws, the whole loop throws |
| `Normalizer.RekeyOne` | server/main.ts:145-149 | One call of the re-keying callback yields the row `RekeyRow` describes, for all three re-keyings |
| `Normalizer.RekeyRows` | server/main.ts:138-142 | `rows.map` with the re-keying callback yields what `RekeyAll` describes, a TypeError as soon as a row throws |
| `Normalizer.MapItems` | server/main.ts:154-183 | The mapping callback, with its in-place `id` clean-up, gives one item per row in order, item k equal to `ToItem` of row k |
| `Normalizer.ListItems` | server/main.ts:124-186 | The tool's code, with `rows` reassigned by the re-keying, computes exactly `Normalize` of the response |
| `NormalizerProperties.EmptyResponses` | server/main.ts:124-126 | A missing or empty `result`, or a missing `results`, lists no items and raises nothing |
| `NormalizerProperties.ItemsFollowRows` | server/main.ts:154-184 | There are as many items as rows, and item k is the mapping of row k re-keyed on its own |
| `NormalizerProperties.DetectionReadsFirstRowOnly` | server/main.ts:133-143 | Two row lists with the same first row get the same re-keying, whatever their other rows |
| `NormalizerProperties.PositionalRow` | server/main.ts:157-166 | An array row puts index 1..6 into `empresa`..`created_at`, `null` when absent or nullish; its id is the text of index 0, or "" when that is absent, nullish or the text "undefined" |
| `NormalizerProperties.FirstPresentFinds` | server/main.ts:169 | A chain of `r?.k ?? ...` yields the value under the first key whose value is not nullish |
| `NormalizerProperties.FirstPresentNone` | server/main.ts:169 | The chain yields "" when every key's value is nullish |
| `NormalizerProperties.KeyedRowId` | server/main.ts:169 | A keyed row's id is the cleaned text of the first non-nullish of `id`, `ID`, `Id`, `rowid` |
| `NormalizerProperties.KeyedRowNoId` | server/main.ts:169 | A keyed row with none of `id`, `ID`, `Id`, `rowid` gets the id "" |
| `NormalizerProperties.KeyedRowFields` | server/main.ts:170-175 | Each of the six other fields of a keyed row is read by its exact key, `null` when missing or nullish |
| `NormalizerProperties.FillSucceeds` | server/main.ts:140 | The filling loop throws exactly when it runs at least once and the row or its `values` is nullish |
| `NormalizerProperties.FillKeys` | server/main.ts:139-141 | The filled object's keys are exactly the texts of the column names |
| `NormalizerProperties.FillLastWriteWins` | server/main.ts:140 | Under column name i the object holds `values[i]` (`undefined` past its end) unless a later column has the same name |
| `NormalizerProperties.SharedColumnsRekey` | server/main.ts:137-142 | With distinct result-level column names, each row becomes the object mapping `columns[i]` to `values[i]` for every i below the number of columns, and nothing else |
| `NormalizerProperties.SharedColumnsWin` | server/main.ts:137 | When the first row has a `values` array and the result-level columns are an array, those columns are used even if the row has its own |
| `NormalizerProperties.RowColumnsWhen` | server/main.ts:143 | Per-row columns are used if and only if the first row is an object with `values` and `columns` arrays and the result-level columns are falsy |
| `NormalizerProperties.SharedColumnsWhen` | server/main.ts:133-137 | Result-level columns are used if and only if they are an array and the first row is an object whose `values` is an array, so keyed rows are never re-keyed |
| `NormalizerProperties.PositionalRowsAsIs` | server/main.ts:137-143 | A batch whose first row is an array is never re-keyed, because an array's `values` is a function |
| `NormalizerProperties.AsIsNeverThrows` | server/main.ts:154-184 | Without re-keying the normaliser never throws |
| `NormalizerProperties.RekeyedThrowsIff` | server/main.ts:138-149 | With re-keying the normaliser throws if and only if some row cannot be re-keyed |
| `NormalizerProperties.NullSecondRowThrows` | server/main.ts:140 | A batch with result-level columns whose second row is `null` throws a TypeError |
| `NormalizerProperties.RowColumnsRowThrows` | server/main.ts:145-147 | Under per-row columns, a `null` row or a row whose `columns` is missing or nullish throws a TypeError |
| `NormalizerProperties.RowColumnsNullRowThrows` | server/main.ts:143-149 | A batch under per-row columns whose first row's column list is empty and whose second row is `null` throws a TypeError |
| `NormalizerProperties.SelectColumnNames` | server/main.ts:118 | The SELECT's seven column names are distinct |
| `NormalizerProperties.FillSelectColumns` | server/main.ts:137-142 | Filling the SELECT's columns from seven values gives the row keyed by column name |
| `NormalizerProperties.KeyedMatchesPositional` | server/main.ts:157-176 | A keyed row and an array row with the same seven values map to the same item |
| `NormalizerProperties.FourShapesAgree` | server/main.ts:124-186 | Positional rows, `values` rows with result-level columns, `values` rows with their own columns, and keyed rows holding the same data all normalise, without throwing, to the same items |
| `NormalizerProperties.SharedColumnsExample` | server/main.ts:137-142 | One `values` row `[1, "Acme", ...]` with a numeric id under the SELECT's columns lists as the item with id "1" and company "Acme" |
| `Accessor.NewId` | server/main.ts:68 | The new id is the UUID when the runtime offers one, otherwise non-empty decimal digits that stand for the current time in milliseconds |
| `Accessor.Create` | server/main.ts:70-83 | The INSERT binds seven parameters, parameter i holding the value for column i in the table's column order, and the tool returns the id it bound first |
| `Accessor.CreateThenList` | server/main.ts:70-83 | A created opportunity, read back positionally, as `values` under the SELECT's columns, as `values` with its own columns, or keyed, lists with the fields it was created with and the id that was returned (unless that id is the text "undefined") |
| `Accessor.ListLimit` | server/main.ts:102 | The limit is 100 when the caller gives none and the caller's limit otherwise; for an input the schema admits it is a positive integer |

## Intended behaviour and code

The normaliser is meant to turn any response into a list of items, reading
the four documented row shapes alike. Where that intent and the code
differ, the model follows the code:

- The normaliser is meant to be total. The code is total without
  re-keying and for the documented shapes (`AsIsNeverThrows`,
  `FourShapesAgree`). Once the first row selects a re-keying, every row is
  read without optional chaining. Under result-level columns, when at
  least one column is filled, a later row that is `null` or has no
  `values` throws a TypeError (`RekeyedThrowsIff`, `FillSucceeds`,
  `NullSecondRowThrows`). With an empty result-level column list the
  filling loop never runs, so such a row becomes `{}` and nothing throws.
  Under per-row columns, the loop reads `r.columns.length` before its first
  iteration. So a `null` row, or a row without `columns`, always throws,
  whatever the other rows' column lists are (`RowColumnsRowThrows`,
  `RowColumnsNullRowThrows`).
- Per-row columns are meant for responses without result-level columns.
  The code tests `!columns`, so result-level columns that are `null`,
  `false`, `0` or `""` also let the per-row columns apply
  (`RowColumnsWhen`).
- The id is meant to be read whatever its capitalisation. The code reads
  exactly `id`, `ID`, `Id` and then `rowid`, so a key spelled `iD` is not
  read (`KeyedRowId`).
- The shape is meant to be recognised from the rows. The code looks at the
  first row only and applies the result to every row
  (`DetectionReadsFirstRowOnly`).

## Left out

- The calls to the SQL endpoint, including the `CREATE TABLE IF NOT EXISTS` statements (server/main.ts:56-66, 105-120): they are a network service. The response is an input of `Normalize`, and the INSERT is modelled by its parameters.
- `crypto.randomUUID()`, `Date.now()` and `new Date().toISOString()`: they are random or read the clock, so they are parameters of `NewId` and `Create`.
- The input and output schemas (server/main.ts:44-51, 91-100): they belong to a validation library. The email-format check is not modelled. The list input schema appears only as `ValidListInput`. The output schema's check that the six fields are text or null is not modelled, so an item may carry a number there, as the normaliser's own result can.
- `MY_TOOL`, the workflows, runtime registration, `fallbackToView` and `DEBUG_DB_RUN_SQL`: these are framework plumbing, request proxying and a pass-through with no logic.
- All of `view/`: React UI, routing and RPC client set-up.
- Numbers are integers; `String(...)` of fractional numbers, `NaN` or exponents is not modelled.
- `Normalizer.ColumnKeys`: an object that has its own `length` property and is used as a row's `columns` is read as having no columns, whereas JavaScript would loop up to that length.
- Objects whose own `toString` or `valueOf` keys change what `String(...)` does, and column names such as `__proto__` that touch the prototype, are not modelled.
- Strings are sequences of characters, not of UTF-16 code units.
