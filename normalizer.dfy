/** The result normaliser of the LIST_OPPORTUNITIES tool: it turns the raw
    response of the SQL endpoint into the ordered list of opportunity
    records the tool returns as `items`. */
module Normalizer {
  import opened JsValues

  /** One listed record. `id` is always text; the other six fields keep
      whatever value the row held, or `Null` when it held none. */
  datatype Opportunity = Opportunity(
    id: string,
    empresa: JsValue,
    pessoa: JsValue,
    telefone: JsValue,
    email: JsValue,
    interesse: JsValue,
    created_at: JsValue)

  /** The table's columns, in the order the INSERT binds and the SELECT reads them. */
  const OpportunityColumns: seq<string> :=
    ["id", "empresa", "pessoa", "telefone", "email", "interesse", "created_at"]

  /** The keys a keyed row may carry its identifier under, in order of preference. */
  const IdKeys: seq<string> := ["id", "ID", "Id", "rowid"]

  /** Field `f` (1 to 6) of an opportunity, in column order. */
  function Field(o: Opportunity, f: nat): JsValue
    requires 1 <= f < |OpportunityColumns|
  {
    match f
    case 1 => o.empresa
    case 2 => o.pessoa
    case 3 => o.telefone
    case 4 => o.email
    case 5 => o.interesse
    case _ => o.created_at
  }

  // ---------------------------------------------------------------------
  // Digging the rows out of the response

  /** `res?.result ?? []`. */
  function ResultList(res: JsValue): (r: JsValue)
    ensures !Nullish(r)
  {
    Coalesce(OptProp(res, "result"), Arr([]))
  }

  /** `resultArray[0] ?? {}`. */
  function FirstEntry(res: JsValue): (r: JsValue)
    ensures !Nullish(r)
  {
    Coalesce(At(ResultList(res), 0), Obj(map[]))
  }

  /** `first?.results ?? []`: the row list before re-keying. */
  function RawRows(res: JsValue): (r: JsValue)
    ensures !Nullish(r)
  {
    Coalesce(OptProp(FirstEntry(res), "results"), Arr([]))
  }

  /** `(first?.meta ?? {})?.columns`: the result-level column names, if any. */
  function MetaColumns(res: JsValue): (columns: JsValue)
    ensures Nullish(OptProp(FirstEntry(res), "meta")) ==> columns == Undefined
    ensures !Nullish(OptProp(FirstEntry(res), "meta")) ==>
              columns == OptProp(OptProp(FirstEntry(res), "meta"), "columns")
  {
    OptProp(Coalesce(OptProp(FirstEntry(res), "meta"), Obj(map[])), "columns")
  }

  // ---------------------------------------------------------------------
  // Shape detection

  /** How the rows of a batch are re-keyed before field mapping. */
  datatype Rekeying =
    | SharedColumns(columns: seq<JsValue>)  // every row's `values` named by the result-level columns
    | RowColumns                            // every row's `values` named by its own `columns`
    | AsIs                                  // rows are mapped as they are

  /** The re-keying the code chooses. It looks at the first row only: that
      row must be an object or an array; re-keying needs its `values` to be
      an array; the result-level columns win when they are an array, and
      the row's own columns are used only when the result-level ones are
      falsy. */
  function DetectRekeying(rows: JsValue, columns: JsValue): (mode: Rekeying)
    ensures mode.SharedColumns? ==> columns == Arr(mode.columns)
    ensures mode.RowColumns? ==> !Truthy(columns)
    ensures !mode.AsIs? ==> rows.Arr? && |rows.elems| > 0 && rows.elems[0].Obj?
                              && Prop(rows.elems[0], "values").Arr?
  {
    if rows.Arr? && |rows.elems| > 0 && (rows.elems[0].Arr? || rows.elems[0].Obj?) then
      var firstValues := Prop(rows.elems[0], "values");
      if firstValues.Arr? && columns.Arr? then SharedColumns(columns.elems)
      else if firstValues.Arr? && !Truthy(columns) && Prop(rows.elems[0], "columns").Arr? then RowColumns
      else AsIs
    else AsIs
  }

  // ---------------------------------------------------------------------
  // Re-keying

  /** `r.values[i]`. */
  function ValueAt(r: JsValue, i: nat): Result<JsValue> {
    match Member(r, "values")
    case TypeError => TypeError
    case Ok(vs) => Index(vs, i)
  }

  /** The keys the loop over `r.columns` visits: `r.columns[i]` for every
      `i < r.columns.length`. A value without a numeric length yields none. */
  function ColumnKeys(cols: JsValue): Result<seq<JsValue>> {
    match cols
    case Undefined => TypeError
    case Null => TypeError
    case Arr(cs) => Ok(cs)
    case Str(s) => Ok(seq(|s|, i requires 0 <= i < |s| => Str([s[i]])))
    case _ => Ok([])
  }

  /** The fresh object the loop `for (i ...) obj[keys[i]] = r.values[i]`
      builds; each key is the text of `keys[i]`, and a later equal key
      overwrites an earlier one. */
  function Fill(keys: seq<JsValue>, r: JsValue): Result<map<string, JsValue>>
    decreases |keys|
  {
    if |keys| == 0 then Ok(map[])
    else
      var n := |keys| - 1;
      match Fill(keys[..n], r)
      case TypeError => TypeError
      case Ok(m) =>
        match ValueAt(r, n)
        case TypeError => TypeError
        case Ok(v) => Ok(m[ToStr(keys[n]) := v])
  }

  /** Row `r` after re-keying under `mode`. */
  function RekeyRow(mode: Rekeying, r: JsValue): Result<JsValue> {
    match mode
    case AsIs => Ok(r)
    case SharedColumns(cs) =>
      (match Fill(cs, r)
       case TypeError => TypeError
       case Ok(m) => Ok(Obj(m)))
    case RowColumns =>
      (match Member(r, "columns")
       case TypeError => TypeError
       case Ok(cols) =>
         match ColumnKeys(cols)
         case TypeError => TypeError
         case Ok(keys) =>
           match Fill(keys, r)
           case TypeError => TypeError
           case Ok(m) => Ok(Obj(m)))
  }

  /** Every row re-keys without throwing. */
  predicate AllRekey(mode: Rekeying, rows: seq<JsValue>) {
    forall k :: 0 <= k < |rows| ==> RekeyRow(mode, rows[k]).Ok?
  }

  /** `rows.map(...)` with the re-keying callback: one output row per input
      row, in order, or a TypeError if any row throws. */
  function RekeyAll(mode: Rekeying, rows: seq<JsValue>): (r: Result<seq<JsValue>>)
    ensures r.Ok? <==> AllRekey(mode, rows)
    ensures r.Ok? ==> |r.value| == |rows|
    ensures r.Ok? ==> forall k :: 0 <= k < |rows| ==> RekeyRow(mode, rows[k]) == Ok(r.value[k])
  {
    if AllRekey(mode, rows) then
      Ok(seq(|rows|, k requires 0 <= k < |rows| => RekeyRow(mode, rows[k]).value))
    else TypeError
  }

  // ---------------------------------------------------------------------
  // Field mapping

  /** `x ?? null`. */
  function OrNull(v: JsValue): (r: JsValue)
    ensures !r.Undefined?
    ensures Nullish(v) ==> r == Null
    ensures !Nullish(v) ==> r == v
  {
    Coalesce(v, Null)
  }

  /** The first of `r?.keys[0] ?? r?.keys[1] ?? ... ?? ""`. */
  function FirstPresent(r: JsValue, keys: seq<string>): JsValue
    decreases |keys|
  {
    if |keys| == 0 then Str("") else Coalesce(OptProp(r, keys[0]), FirstPresent(r, keys[1..]))
  }

  /** The item built from a positional row (before the `id` clean-up). */
  function PositionalItem(r: JsValue): Opportunity
    requires r.Arr?
  {
    Opportunity(
      ToStr(Coalesce(At(r, 0), Str(""))),
      OrNull(At(r, 1)), OrNull(At(r, 2)), OrNull(At(r, 3)),
      OrNull(At(r, 4)), OrNull(At(r, 5)), OrNull(At(r, 6)))
  }

  /** The item built from any other row, read by key (before the `id` clean-up). */
  function KeyedItem(r: JsValue): Opportunity {
    Opportunity(
      ToStr(FirstPresent(r, IdKeys)),
      OrNull(OptProp(r, "empresa")), OrNull(OptProp(r, "pessoa")), OrNull(OptProp(r, "telefone")),
      OrNull(OptProp(r, "email")), OrNull(OptProp(r, "interesse")), OrNull(OptProp(r, "created_at")))
  }

  /** The `id` clean-up: the literal text "undefined" becomes empty. */
  function Sanitize(id: string): (r: string)
    ensures r != "undefined"
    ensures id == "undefined" ==> r == ""
    ensures id != "undefined" ==> r == id
  {
    if id == "undefined" then "" else id
  }

  /** The item the mapping callback returns for row `r`. */
  function ToItem(r: JsValue): (item: Opportunity)
    ensures item.id != "undefined"
    ensures forall f :: 1 <= f < |OpportunityColumns| ==> !Field(item, f).Undefined?
  {
    var raw := if r.Arr? then PositionalItem(r) else KeyedItem(r);
    raw.(id := Sanitize(raw.id))
  }

  // ---------------------------------------------------------------------
  // The whole normaliser

  /** The `items` the tool returns for the response `res`, or the TypeError
      its re-keying throws. */
  function Normalize(res: JsValue): (r: Result<seq<Opportunity>>)
    ensures !RawRows(res).Arr? ==> r == Ok([])
    ensures r.Ok? && RawRows(res).Arr? ==> |r.value| == |RawRows(res).elems|
    ensures r.Ok? ==> forall k :: 0 <= k < |r.value| ==> r.value[k].id != "undefined"
  {
    var rows := RawRows(res);
    if !rows.Arr? then Ok([])
    else
      match RekeyAll(DetectRekeying(rows, MetaColumns(res)), rows.elems)
      case TypeError => TypeError
      case Ok(rs) => Ok(seq(|rs|, k requires 0 <= k < |rs| => ToItem(rs[k])))
  }

  // ---------------------------------------------------------------------
  // The same computation, step by step as the tool runs it

  /** The loop that fills a fresh object from `keys` and `r.values`. */
  method FillObject(keys: seq<JsValue>, r: JsValue) returns (out: Result<map<string, JsValue>>)
    ensures out == Fill(keys, r)
  {
    var obj: map<string, JsValue> := map[];
    var i := 0;
    while i < |keys|
      invariant 0 <= i <= |keys|
      invariant Fill(keys[..i], r) == Ok(obj)
    {
      assert keys[..i + 1][..i] == keys[..i];
      var v := ValueAt(r, i);
      if v.TypeError? {
        FillStopsAtError(keys, r, i + 1);
        return TypeError;
      }
      obj := obj[ToStr(keys[i]) := v.value];
      i := i + 1;
    }
    assert keys[..i] == keys;
    out := Ok(obj);
  }

  /** Once a prefix of the keys throws, the whole loop throws. */
  lemma {:induction false} FillStopsAtError(keys: seq<JsValue>, r: JsValue, n: nat)
    requires n <= |keys|
    requires Fill(keys[..n], r).TypeError?
    ensures Fill(keys, r).TypeError?
    decreases |keys| - n
  {
    if n < |keys| {
      assert keys[..n + 1][..n] == keys[..n];
      FillStopsAtError(keys, r, n + 1);
    } else {
      assert keys[..n] == keys;
    }
  }

  /** One call of the re-keying callback. */
  method RekeyOne(mode: Rekeying, r: JsValue) returns (out: Result<JsValue>)
    ensures out == RekeyRow(mode, r)
  {
    match mode {
      case AsIs =>
        out := Ok(r);
      case SharedColumns(cs) =>
        var obj := FillObject(cs, r);
        out := if obj.Ok? then Ok(Obj(obj.value)) else TypeError;
      case RowColumns =>
        var cols :- Member(r, "columns");
        var keys :- ColumnKeys(cols);
        var obj := FillObject(keys, r);
        out := if obj.Ok? then Ok(Obj(obj.value)) else TypeError;
    }
  }

  /** `rows.map(...)` with the re-keying callback. */
  method RekeyRows(mode: Rekeying, rows: seq<JsValue>) returns (out: Result<seq<JsValue>>)
    ensures out == RekeyAll(mode, rows)
  {
    var mapped: seq<JsValue> := [];
    for k := 0 to |rows|
      invariant |mapped| == k
      invariant forall j :: 0 <= j < k ==> RekeyRow(mode, rows[j]) == Ok(mapped[j])
    {
      var row := RekeyOne(mode, rows[k]);
      if row.TypeError? {
        assert !AllRekey(mode, rows) by { assert RekeyRow(mode, rows[k]).TypeError?; }
        return TypeError;
      }
      mapped := mapped + [row.value];
    }
    assert AllRekey(mode, rows);
    assert mapped == RekeyAll(mode, rows).value;
    out := Ok(mapped);
  }

  /** The normalising part of the tool's `execute`: `rows` is re-assigned
      when a re-keying applies, then every row is mapped to an item whose
      `id` is cleaned up in place. */
  method ListItems(res: JsValue) returns (out: Result<seq<Opportunity>>)
    ensures out == Normalize(res)
  {
    var resultArray := Coalesce(OptProp(res, "result"), Arr([]));
    var first := Coalesce(At(resultArray, 0), Obj(map[]));
    var rows := Coalesce(OptProp(first, "results"), Arr([]));
    var meta := Coalesce(OptProp(first, "meta"), Obj(map[]));
    var columns := OptProp(meta, "columns");
    assert rows == RawRows(res) && columns == MetaColumns(res);
    ghost var mode := DetectRekeying(rows, columns);

    if rows.Arr? && |rows.elems| > 0 && (rows.elems[0].Arr? || rows.elems[0].Obj?) {
      var firstRow := rows.elems[0];
      if Prop(firstRow, "values").Arr? && columns.Arr? {
        var mapped :- RekeyRows(SharedColumns(columns.elems), rows.elems);
        rows := Arr(mapped);
      } else if Prop(firstRow, "values").Arr? && !Truthy(columns) && Prop(firstRow, "columns").Arr? {
        var mapped :- RekeyRows(RowColumns, rows.elems);
        rows := Arr(mapped);
      }
    }
    if mode.AsIs? && rows.Arr? {
      assert AllRekey(mode, rows.elems);
      assert RekeyAll(mode, rows.elems).value == rows.elems;
    }
    assert RawRows(res).Arr? <==> rows.Arr?;
    assert rows.Arr? ==> RekeyAll(mode, RawRows(res).elems) == Ok(rows.elems);

    var items: seq<Opportunity> := [];
    if rows.Arr? {
      items := MapItems(rows.elems);
      assert items == seq(|rows.elems|, k requires 0 <= k < |rows.elems| => ToItem(rows.elems[k]));
    }
    out := Ok(items);
  }

  /** `rows.map(...)` with the field-mapping callback. */
  method MapItems(rows: seq<JsValue>) returns (items: seq<Opportunity>)
    ensures |items| == |rows|
    ensures forall k :: 0 <= k < |rows| ==> items[k] == ToItem(rows[k])
  {
    items := [];
    for k := 0 to |rows|
      invariant |items| == k
      invariant forall j :: 0 <= j < k ==> items[j] == ToItem(rows[j])
    {
      var item := if rows[k].Arr? then PositionalItem(rows[k]) else KeyedItem(rows[k]);
      if item.id == "undefined" {
        item := item.(id := "");
      }
      items := items + [item];
    }
  }
}
