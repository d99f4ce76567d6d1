/** What the result normaliser promises: empty responses give no items,
    items follow rows one for one, the positional and keyed mappings, the
    re-keying loop's contents, which re-keying wins, when the normaliser can
    throw, and that the four documented response shapes agree. */
module NormalizerProperties {
  import opened JsValues
  import opened Normalizer

  // ---------------------------------------------------------------------
  // Empty and missing results

  /** A missing or empty `result`, or a missing `results`, lists nothing and
      raises nothing. */
  lemma EmptyResponses(res: JsValue)
    requires || Nullish(OptProp(res, "result"))
             || OptProp(res, "result") == Arr([])
             || Nullish(OptProp(FirstEntry(res), "results"))
    ensures Normalize(res) == Ok([])
  {
  }

  /** Item k is the mapping of row k alone, re-keyed under the mode the
      batch's first row and result-level columns select. */
  lemma ItemsFollowRows(res: JsValue)
    requires Normalize(res).Ok? && RawRows(res).Arr?
    ensures var rows := RawRows(res).elems;
            var mode := DetectRekeying(RawRows(res), MetaColumns(res));
            && |Normalize(res).value| == |rows|
            && forall k :: 0 <= k < |rows| ==>
                 RekeyRow(mode, rows[k]).Ok? && Normalize(res).value[k] == ToItem(RekeyRow(mode, rows[k]).value)
  {
  }

  /** The re-keying chosen depends on the first row only. */
  lemma DetectionReadsFirstRowOnly(rows1: seq<JsValue>, rows2: seq<JsValue>, columns: JsValue)
    requires |rows1| > 0 && |rows2| > 0 && rows1[0] == rows2[0]
    ensures DetectRekeying(Arr(rows1), columns) == DetectRekeying(Arr(rows2), columns)
  {
  }

  // ---------------------------------------------------------------------
  // Positional rows

  /** A positional row gives index 0 as the id, as text, or "" when it is
      absent or nullish; indices 1 to 6 go to `empresa` .. `created_at`,
      and an absent or nullish entry becomes `Null`. */
  lemma PositionalRow(s: seq<JsValue>)
    ensures forall f :: 1 <= f < |OpportunityColumns| ==>
              Field(ToItem(Arr(s)), f) == (if f < |s| && !Nullish(s[f]) then s[f] else Null)
    ensures (|s| == 0 || Nullish(s[0])) ==> ToItem(Arr(s)).id == ""
    ensures |s| > 0 && !Nullish(s[0]) && ToStr(s[0]) != "undefined" ==> ToItem(Arr(s)).id == ToStr(s[0])
    ensures |s| > 0 && ToStr(s[0]) == "undefined" ==> ToItem(Arr(s)).id == ""
  {
  }

  // ---------------------------------------------------------------------
  // Keyed rows

  /** `FirstPresent` is the value under the first key whose value is not nullish. */
  lemma {:induction false} FirstPresentFinds(r: JsValue, keys: seq<string>, j: nat)
    requires j < |keys| && !Nullish(OptProp(r, keys[j]))
    requires forall i :: 0 <= i < j ==> Nullish(OptProp(r, keys[i]))
    ensures FirstPresent(r, keys) == OptProp(r, keys[j])
    decreases j
  {
    if j > 0 {
      assert Nullish(OptProp(r, keys[0]));
      FirstPresentFinds(r, keys[1..], j - 1);
    }
  }

  /** ... and "" when every key's value is nullish. */
  lemma {:induction false} FirstPresentNone(r: JsValue, keys: seq<string>)
    requires forall i :: 0 <= i < |keys| ==> Nullish(OptProp(r, keys[i]))
    ensures FirstPresent(r, keys) == Str("")
    decreases |keys|
  {
    if |keys| > 0 {
      assert Nullish(OptProp(r, keys[0]));
      FirstPresentNone(r, keys[1..]);
    }
  }

  /** A keyed row's id is the text of the first non-nullish of `id`, `ID`,
      `Id`, `rowid` (cleaned of "undefined") ... */
  lemma KeyedRowId(r: JsValue, j: nat)
    requires !r.Arr? && j < |IdKeys| && !Nullish(OptProp(r, IdKeys[j]))
    requires forall i :: 0 <= i < j ==> Nullish(OptProp(r, IdKeys[i]))
    ensures ToItem(r).id == Sanitize(ToStr(OptProp(r, IdKeys[j])))
  {
    FirstPresentFinds(r, IdKeys, j);
  }

  /** ... or "" when the row carries none of them. */
  lemma KeyedRowNoId(r: JsValue)
    requires !r.Arr?
    requires forall i :: 0 <= i < |IdKeys| ==> Nullish(OptProp(r, IdKeys[i]))
    ensures ToItem(r).id == ""
  {
    FirstPresentNone(r, IdKeys);
  }

  /** Each other field of a keyed row is read by its exact key, and is
      `Null` when that key is missing or nullish. */
  lemma KeyedRowFields(r: JsValue)
    requires !r.Arr?
    ensures forall f :: 1 <= f < |OpportunityColumns| ==>
              Field(ToItem(r), f) ==
                (if Nullish(OptProp(r, OpportunityColumns[f])) then Null else OptProp(r, OpportunityColumns[f]))
  {
  }

  // ---------------------------------------------------------------------
  // The re-keying loop

  /** The loop throws exactly when it runs at least once and the row, or
      the row's `values`, is nullish. */
  lemma {:induction false} FillSucceeds(keys: seq<JsValue>, r: JsValue)
    ensures Fill(keys, r).Ok? <==> (|keys| == 0 || (!Nullish(r) && !Nullish(Prop(r, "values"))))
    decreases |keys|
  {
    if |keys| > 0 {
      FillSucceeds(keys[..|keys| - 1], r);
    }
  }

  /** The filled object has exactly the texts of the keys as its keys. */
  lemma {:induction false} FillKeys(keys: seq<JsValue>, r: JsValue)
    requires Fill(keys, r).Ok?
    ensures Fill(keys, r).value.Keys == set i | 0 <= i < |keys| :: ToStr(keys[i])
    decreases |keys|
  {
    if |keys| > 0 {
      var n := |keys| - 1;
      FillKeys(keys[..n], r);
      var prefix := set i | 0 <= i < n :: ToStr(keys[..n][i]);
      assert prefix == set i | 0 <= i < n :: ToStr(keys[i]);
      assert (set i | 0 <= i < |keys| :: ToStr(keys[i])) == prefix + {ToStr(keys[n])};
    }
  }

  /** Under key `keys[i]` the filled object holds `r.values[i]`, unless a
      later key has the same text and overwrote it. */
  lemma {:induction false} FillLastWriteWins(keys: seq<JsValue>, r: JsValue, i: nat)
    requires Fill(keys, r).Ok? && i < |keys|
    requires forall j :: i < j < |keys| ==> ToStr(keys[j]) != ToStr(keys[i])
    ensures !Nullish(r) && !Nullish(Prop(r, "values"))
    ensures ToStr(keys[i]) in Fill(keys, r).value
    ensures Fill(keys, r).value[ToStr(keys[i])] == At(Prop(r, "values"), i)
    decreases |keys|
  {
    FillSucceeds(keys, r);
    var n := |keys| - 1;
    if i < n {
      assert keys[..n][i] == keys[i];
      FillLastWriteWins(keys[..n], r, i);
    }
  }

  /** With distinct column names, a row re-keyed under the result-level
      columns becomes the object that maps `columns[i]` to `values[i]` for
      every i below the number of columns, and has no other key. */
  lemma SharedColumnsRekey(columns: seq<JsValue>, r: JsValue)
    requires forall i, j :: 0 <= i < j < |columns| ==> ToStr(columns[i]) != ToStr(columns[j])
    requires !Nullish(r) && Prop(r, "values").Arr?
    ensures RekeyRow(SharedColumns(columns), r).Ok?
    ensures RekeyRow(SharedColumns(columns), r).value.Obj?
    ensures var m := RekeyRow(SharedColumns(columns), r).value.fields;
            && m.Keys == (set i | 0 <= i < |columns| :: ToStr(columns[i]))
            && forall i :: 0 <= i < |columns| ==> m[ToStr(columns[i])] == At(Prop(r, "values"), i)
  {
    FillSucceeds(columns, r);
    FillKeys(columns, r);
    forall i | 0 <= i < |columns|
      ensures Fill(columns, r).value[ToStr(columns[i])] == At(Prop(r, "values"), i)
    {
      FillLastWriteWins(columns, r, i);
    }
  }

  // ---------------------------------------------------------------------
  // Which re-keying applies

  /** When the first row has a `values` array and the result-level columns
      are an array, the result-level columns are used, whatever columns the
      row carries itself. */
  lemma SharedColumnsWin(rows: seq<JsValue>, columns: seq<JsValue>)
    requires |rows| > 0 && rows[0].Obj? && Prop(rows[0], "values").Arr?
    ensures DetectRekeying(Arr(rows), Arr(columns)) == SharedColumns(columns)
  {
  }

  /** The row's own columns are used exactly when the first row is an object
      with a `values` array and a `columns` array, and the result-level
      columns are falsy (absent, null, false, 0 or ""). */
  lemma RowColumnsWhen(rows: seq<JsValue>, columns: JsValue)
    ensures DetectRekeying(Arr(rows), columns) == RowColumns <==>
              && |rows| > 0 && rows[0].Obj?
              && Prop(rows[0], "values").Arr? && Prop(rows[0], "columns").Arr?
              && !Truthy(columns)
  {
  }

  /** Result-level columns are used exactly when they are an array and the
      first row is an object whose `values` is an array; keyed rows stay as
      they are whatever the columns. */
  lemma SharedColumnsWhen(rows: seq<JsValue>, columns: JsValue)
    ensures DetectRekeying(Arr(rows), columns).SharedColumns? <==>
              && |rows| > 0 && rows[0].Obj?
              && Prop(rows[0], "values").Arr?
              && columns.Arr?
  {
  }

  /** A batch of positional rows is never re-keyed: an array's `values` is
      its iterator function, not an array. */
  lemma PositionalRowsAsIs(rows: seq<JsValue>, columns: JsValue)
    requires |rows| > 0 && rows[0].Arr?
    ensures DetectRekeying(Arr(rows), columns) == AsIs
  {
  }

  // ---------------------------------------------------------------------
  // When the normaliser throws

  /** Without re-keying the normaliser never throws. */
  lemma AsIsNeverThrows(res: JsValue)
    requires DetectRekeying(RawRows(res), MetaColumns(res)) == AsIs
    ensures Normalize(res).Ok?
  {
  }

  /** With re-keying it throws exactly when some row cannot be re-keyed:
      each row, and under result-level columns each row's `values`, is read
      without optional chaining. */
  lemma RekeyedThrowsIff(res: JsValue)
    requires !DetectRekeying(RawRows(res), MetaColumns(res)).AsIs?
    ensures Normalize(res).TypeError? <==>
              exists k :: 0 <= k < |RawRows(res).elems| &&
                RekeyRow(DetectRekeying(RawRows(res), MetaColumns(res)), RawRows(res).elems[k]).TypeError?
  {
  }

  /** A concrete batch that throws: result-level columns, a first row with
      `values`, and a second row that is `null`. */
  lemma NullSecondRowThrows()
    ensures Normalize(Envelope(
              [Obj(map["values" := Arr([Num(7)])]), Null],
              Obj(map["columns" := Arr([Str("id")])]))) == TypeError
  {
    var res := Envelope([Obj(map["values" := Arr([Num(7)])]), Null], Obj(map["columns" := Arr([Str("id")])]));
    var mode := DetectRekeying(RawRows(res), MetaColumns(res));
    assert mode == SharedColumns([Str("id")]);
    FillSucceeds([Str("id")], Null);
    assert RekeyRow(mode, RawRows(res).elems[1]).TypeError?;
  }

  /** Under per-row columns a row is read as `r.columns.length` before the
      filling loop starts, so a `null` row, or a row without `columns`,
      throws whatever the other rows' column lists are. */
  lemma RowColumnsRowThrows(r: JsValue)
    requires Nullish(r) || Nullish(Prop(r, "columns"))
    ensures RekeyRow(RowColumns, r) == TypeError
  {
  }

  /** A concrete batch that throws under per-row columns: the first row's
      column list is empty, and the second row is `null`. */
  lemma RowColumnsNullRowThrows()
    ensures Normalize(Envelope(
              [Obj(map["values" := Arr([]), "columns" := Arr([])]), Null],
              Obj(map[]))) == TypeError
  {
    var res := Envelope([Obj(map["values" := Arr([]), "columns" := Arr([])]), Null], Obj(map[]));
    var mode := DetectRekeying(RawRows(res), MetaColumns(res));
    assert mode == RowColumns;
    RowColumnsRowThrows(Null);
    assert RekeyRow(mode, RawRows(res).elems[1]).TypeError?;
  }

  // ---------------------------------------------------------------------
  // The four documented shapes agree

  /** A response whose first result entry holds `rows` and `meta`. */
  function Envelope(rows: seq<JsValue>, meta: JsValue): JsValue {
    Obj(map["result" := Arr([Obj(map["results" := Arr(rows), "meta" := meta])])])
  }

  /** The column names the SELECT reports, as values. */
  const SelectColumns: seq<JsValue> :=
    [Str("id"), Str("empresa"), Str("pessoa"), Str("telefone"), Str("email"), Str("interesse"), Str("created_at")]

  /** One row of seven values, keyed by column name. */
  function KeyedFields(d: seq<JsValue>): map<string, JsValue>
    requires |d| == 7
  {
    map["id" := d[0], "empresa" := d[1], "pessoa" := d[2], "telefone" := d[3],
        "email" := d[4], "interesse" := d[5], "created_at" := d[6]]
  }

  /** The same rows in each of the four documented shapes. */
  function PositionalRows(data: seq<seq<JsValue>>): seq<JsValue> {
    seq(|data|, k requires 0 <= k < |data| => Arr(data[k]))
  }

  function ValuesRows(data: seq<seq<JsValue>>): seq<JsValue> {
    seq(|data|, k requires 0 <= k < |data| => Obj(map["values" := Arr(data[k])]))
  }

  function ColumnsRows(data: seq<seq<JsValue>>): seq<JsValue> {
    seq(|data|, k requires 0 <= k < |data| => Obj(map["columns" := Arr(SelectColumns), "values" := Arr(data[k])]))
  }

  function KeyedRows(data: seq<seq<JsValue>>): seq<JsValue>
    requires forall k :: 0 <= k < |data| ==> |data[k]| == 7
  {
    seq(|data|, k requires 0 <= k < |data| => Obj(KeyedFields(data[k])))
  }

  /** The items every shape yields: the positional mapping of each row. */
  function Expected(data: seq<seq<JsValue>>): seq<Opportunity> {
    seq(|data|, k requires 0 <= k < |data| => ToItem(Arr(data[k])))
  }

  /** The SELECT's column values read as the table's column names. */
  lemma SelectColumnNames()
    ensures |SelectColumns| == |OpportunityColumns|
    ensures forall i :: 0 <= i < |SelectColumns| ==> ToStr(SelectColumns[i]) == OpportunityColumns[i]
    ensures forall i, j :: 0 <= i < j < |SelectColumns| ==> ToStr(SelectColumns[i]) != ToStr(SelectColumns[j])
  {
  }

  /** Filling the SELECT's columns from `values` puts `values[i]` under column name i. */
  lemma FillSelectColumnsAt(r: JsValue, d: seq<JsValue>, i: nat)
    requires |d| == 7 && !Nullish(r) && Prop(r, "values") == Arr(d) && i < 7
    ensures Fill(SelectColumns, r).Ok?
    ensures OpportunityColumns[i] in Fill(SelectColumns, r).value
    ensures Fill(SelectColumns, r).value[OpportunityColumns[i]] == d[i]
  {
    SelectColumnNames();
    FillSucceeds(SelectColumns, r);
    FillLastWriteWins(SelectColumns, r, i);
  }

  /** Filling the SELECT's columns yields no key besides the column names. */
  lemma FillSelectColumnsKeys(r: JsValue, d: seq<JsValue>)
    requires |d| == 7 && !Nullish(r) && Prop(r, "values") == Arr(d)
    ensures Fill(SelectColumns, r).Ok?
    ensures Fill(SelectColumns, r).value.Keys == KeyedFields(d).Keys
  {
    SelectColumnNames();
    FillSucceeds(SelectColumns, r);
    FillKeys(SelectColumns, r);
    var names := set i | 0 <= i < 7 :: ToStr(SelectColumns[i]);
    assert names == set i | 0 <= i < 7 :: OpportunityColumns[i];
    assert (set i | 0 <= i < 7 :: OpportunityColumns[i]) == KeyedFields(d).Keys by {
      assert forall i :: 0 <= i < 7 ==> OpportunityColumns[i] in KeyedFields(d);
      assert "id" == OpportunityColumns[0] && "empresa" == OpportunityColumns[1];
      assert "pessoa" == OpportunityColumns[2] && "telefone" == OpportunityColumns[3];
      assert "email" == OpportunityColumns[4] && "interesse" == OpportunityColumns[5];
      assert "created_at" == OpportunityColumns[6];
    }
  }

  /** Filling the SELECT's columns from seven values gives the keyed row. */
  lemma FillSelectColumns(r: JsValue, d: seq<JsValue>)
    requires |d| == 7 && !Nullish(r) && Prop(r, "values") == Arr(d)
    ensures Fill(SelectColumns, r) == Ok(KeyedFields(d))
  {
    FillSelectColumnsKeys(r, d);
    FillSelectColumnsAt(r, d, 0);
    FillSelectColumnsAt(r, d, 1);
    FillSelectColumnsAt(r, d, 2);
    FillSelectColumnsAt(r, d, 3);
    FillSelectColumnsAt(r, d, 4);
    FillSelectColumnsAt(r, d, 5);
    FillSelectColumnsAt(r, d, 6);
    var m := Fill(SelectColumns, r).value;
    forall key | key in m
      ensures m[key] == KeyedFields(d)[key]
    {
      assert key in KeyedFields(d).Keys;
      assert key in ["id", "empresa", "pessoa", "telefone", "email", "interesse", "created_at"];
    }
    assert m.Keys == KeyedFields(d).Keys;
    assert m == KeyedFields(d);
  }

  /** A keyed row and the positional row with the same seven values map to
      the same item. */
  lemma KeyedMatchesPositional(d: seq<JsValue>)
    requires |d| == 7
    ensures ToItem(Obj(KeyedFields(d))) == ToItem(Arr(d))
  {
    var r := Obj(KeyedFields(d));
    assert OptProp(r, "id") == d[0];
    assert OptProp(r, "ID") == OptProp(r, "Id") == OptProp(r, "rowid") == Undefined;
    if Nullish(d[0]) {
      FirstPresentNone(r, IdKeys);
    } else {
      FirstPresentFinds(r, IdKeys, 0);
    }
    assert KeyedItem(r).id == PositionalItem(Arr(d)).id;
    assert OptProp(r, "empresa") == d[1] && OptProp(r, "pessoa") == d[2] && OptProp(r, "telefone") == d[3];
    assert OptProp(r, "email") == d[4] && OptProp(r, "interesse") == d[5] && OptProp(r, "created_at") == d[6];
    assert KeyedItem(r) == PositionalItem(Arr(d));
  }

  /** Normalising rows that all re-key to their keyed form. */
  lemma RekeyedToKeyed(res: JsValue, data: seq<seq<JsValue>>)
    requires forall k :: 0 <= k < |data| ==> |data[k]| == 7
    requires RawRows(res).Arr? && |RawRows(res).elems| == |data|
    requires forall k :: 0 <= k < |data| ==>
               RekeyRow(DetectRekeying(RawRows(res), MetaColumns(res)), RawRows(res).elems[k]) == Ok(Obj(KeyedFields(data[k])))
    ensures Normalize(res) == Ok(Expected(data))
  {
    var mode := DetectRekeying(RawRows(res), MetaColumns(res));
    assert AllRekey(mode, RawRows(res).elems);
    var rs := RekeyAll(mode, RawRows(res).elems).value;
    assert Normalize(res) == Ok(seq(|rs|, k requires 0 <= k < |rs| => ToItem(rs[k])));
    forall k | 0 <= k < |data| ensures ToItem(rs[k]) == Expected(data)[k] {
      assert rs[k] == Obj(KeyedFields(data[k]));
      KeyedMatchesPositional(data[k]);
    }
    assert seq(|rs|, k requires 0 <= k < |rs| => ToItem(rs[k])) == Expected(data);
  }

  /** Where the normaliser finds the rows and the columns of an envelope. */
  lemma EnvelopeParts(rows: seq<JsValue>, meta: JsValue)
    requires !Nullish(meta)
    ensures RawRows(Envelope(rows, meta)) == Arr(rows)
    ensures MetaColumns(Envelope(rows, meta)) == Prop(meta, "columns")
  {
  }

  /** The metadata the SELECT returns with its rows. */
  const SelectMeta: JsValue := Obj(map["columns" := Arr(SelectColumns)])

  lemma PositionalShape(data: seq<seq<JsValue>>)
    requires forall k :: 0 <= k < |data| ==> |data[k]| == 7
    ensures Normalize(Envelope(PositionalRows(data), SelectMeta)) == Ok(Expected(data))
  {
    var res := Envelope(PositionalRows(data), SelectMeta);
    EnvelopeParts(PositionalRows(data), SelectMeta);
    if |data| > 0 {
      PositionalRowsAsIs(PositionalRows(data), MetaColumns(res));
    }
    var mode := DetectRekeying(RawRows(res), MetaColumns(res));
    assert AllRekey(mode, PositionalRows(data));
    var rs := RekeyAll(mode, PositionalRows(data)).value;
    assert rs == PositionalRows(data);
    assert Normalize(res) == Ok(seq(|rs|, k requires 0 <= k < |rs| => ToItem(rs[k])));
    assert seq(|rs|, k requires 0 <= k < |rs| => ToItem(rs[k])) == Expected(data);
  }

  lemma ValuesShape(data: seq<seq<JsValue>>)
    requires forall k :: 0 <= k < |data| ==> |data[k]| == 7
    ensures Normalize(Envelope(ValuesRows(data), SelectMeta)) == Ok(Expected(data))
  {
    var res := Envelope(ValuesRows(data), SelectMeta);
    EnvelopeParts(ValuesRows(data), SelectMeta);
    forall k | 0 <= k < |data|
      ensures RekeyRow(DetectRekeying(RawRows(res), MetaColumns(res)), RawRows(res).elems[k])
              == Ok(Obj(KeyedFields(data[k])))
    {
      SharedColumnsWin(ValuesRows(data), SelectColumns);
      FillSelectColumns(ValuesRows(data)[k], data[k]);
    }
    RekeyedToKeyed(res, data);
  }

  lemma ColumnsShape(data: seq<seq<JsValue>>)
    requires forall k :: 0 <= k < |data| ==> |data[k]| == 7
    ensures Normalize(Envelope(ColumnsRows(data), Obj(map[]))) == Ok(Expected(data))
  {
    var res := Envelope(ColumnsRows(data), Obj(map[]));
    EnvelopeParts(ColumnsRows(data), Obj(map[]));
    forall k | 0 <= k < |data|
      ensures RekeyRow(DetectRekeying(RawRows(res), MetaColumns(res)), RawRows(res).elems[k])
              == Ok(Obj(KeyedFields(data[k])))
    {
      RowColumnsWhen(ColumnsRows(data), MetaColumns(res));
      FillSelectColumns(ColumnsRows(data)[k], data[k]);
    }
    RekeyedToKeyed(res, data);
  }

  lemma KeyedShape(data: seq<seq<JsValue>>)
    requires forall k :: 0 <= k < |data| ==> |data[k]| == 7
    ensures Normalize(Envelope(KeyedRows(data), SelectMeta)) == Ok(Expected(data))
  {
    var res := Envelope(KeyedRows(data), SelectMeta);
    EnvelopeParts(KeyedRows(data), SelectMeta);
    assert DetectRekeying(RawRows(res), MetaColumns(res)) == AsIs;
    RekeyedToKeyed(res, data);
  }

  /** Positional rows, rows of `values` with result-level columns, rows of
      `values` with their own columns, and keyed rows holding the same data
      all normalise to the same items, and none of them throws. */
  lemma FourShapesAgree(data: seq<seq<JsValue>>)
    requires forall k :: 0 <= k < |data| ==> |data[k]| == 7
    ensures Normalize(Envelope(PositionalRows(data), SelectMeta)) == Ok(Expected(data))
    ensures Normalize(Envelope(ValuesRows(data), SelectMeta)) == Ok(Expected(data))
    ensures Normalize(Envelope(ColumnsRows(data), Obj(map[]))) == Ok(Expected(data))
    ensures Normalize(Envelope(KeyedRows(data), SelectMeta)) == Ok(Expected(data))
  {
    PositionalShape(data);
    ValuesShape(data);
    ColumnsShape(data);
    KeyedShape(data);
  }

  /** A single `values` row with a numeric id under the SELECT's columns
      lists as one item whose id is that number in decimal. */
  lemma SharedColumnsExample()
    ensures Normalize(Envelope(
              [Obj(map["values" := Arr([Num(1), Str("Acme"), Str("Jane"), Str("555"), Str("j@a.com"),
                                        Str("demo"), Str("2024-01-01T00:00:00Z")])])],
              SelectMeta))
            == Ok([Opportunity("1", Str("Acme"), Str("Jane"), Str("555"), Str("j@a.com"),
                               Str("demo"), Str("2024-01-01T00:00:00Z"))])
  {
    var d := [Num(1), Str("Acme"), Str("Jane"), Str("555"), Str("j@a.com"), Str("demo"), Str("2024-01-01T00:00:00Z")];
    ValuesShape([d]);
    assert ValuesRows([d]) == [Obj(map["values" := Arr(d)])];
    assert ToItem(Arr(d)).id == "1" by {
      assert Decimal(1) == "1";
    }
    assert Expected([d]) == [ToItem(Arr(d))];
  }
}
