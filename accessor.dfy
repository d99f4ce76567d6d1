/** The record-store side of the two tools: the parameters CREATE_OPPORTUNITY
    binds to its INSERT and the id it returns, and the row limit
    LIST_OPPORTUNITIES binds to its SELECT. The SQL endpoint itself, the
    clock and the random generator are outside the model; their results
    are parameters. */
module Accessor {
  import opened JsValues
  import opened Normalizer
  import opened NormalizerProperties

  datatype Option<T> = None | Some(value: T)

  /** The five fields CREATE_OPPORTUNITY takes from its caller. */
  datatype Lead = Lead(empresa: string, pessoa: string, telefone: string, email: string, interesse: string)

  /** What CREATE_OPPORTUNITY does once the table exists: the parameters
      `$1` to `$7` of its INSERT, and the `id` it returns. */
  datatype Insert = Insert(params: seq<string>, id: string)

  /** The row limit of a listing when the caller gives none. */
  const DefaultLimit: int := 100

  /** `crypto?.randomUUID?.() ?? String(Date.now())`: the random UUID when
      the runtime offers one, otherwise the current time in milliseconds,
      in decimal. */
  function NewId(uuid: Option<string>, nowMillis: nat): (id: string)
    ensures uuid.Some? ==> id == uuid.value
    ensures uuid.None? ==> |id| > 0 && forall k :: 0 <= k < |id| ==> '0' <= id[k] <= '9'
    ensures uuid.None? ==> DigitsValue(id) == nowMillis
  {
    match uuid
    case Some(u) => u
    case None => DecimalValue(nowMillis); ToStr(Num(nowMillis))
  }

  /** The value a new row holds in the named column. */
  function ColumnValue(lead: Lead, id: string, createdAt: string, column: string): string {
    match column
    case "id" => id
    case "empresa" => lead.empresa
    case "pessoa" => lead.pessoa
    case "telefone" => lead.telefone
    case "email" => lead.email
    case "interesse" => lead.interesse
    case _ => createdAt
  }

  /** CREATE_OPPORTUNITY with the generated `id` and the ISO timestamp
      `createdAt`: seven parameters, one per column in the table's column
      order, and the same `id` returned. */
  function Create(lead: Lead, id: string, createdAt: string): (call: Insert)
    ensures |call.params| == |OpportunityColumns|
    ensures forall i :: 0 <= i < |OpportunityColumns| ==>
              call.params[i] == ColumnValue(lead, id, createdAt, OpportunityColumns[i])
    ensures call.id == id && call.params[0] == call.id
  {
    Insert([id, lead.empresa, lead.pessoa, lead.telefone, lead.email, lead.interesse, createdAt], id)
  }

  /** The row the SELECT reads back for an inserted opportunity, in column order. */
  function StoredRow(call: Insert): seq<JsValue> {
    seq(|call.params|, i requires 0 <= i < |call.params| => Str(call.params[i]))
  }

  /** The item the normaliser lists for an inserted opportunity. */
  function Listed(lead: Lead, id: string, createdAt: string): Opportunity {
    Opportunity(Sanitize(id), Str(lead.empresa), Str(lead.pessoa), Str(lead.telefone),
                Str(lead.email), Str(lead.interesse), Str(createdAt))
  }

  /** A created opportunity lists back with the fields it was created with
      and the id CREATE_OPPORTUNITY returned (unless that id is the text
      "undefined"), whether the endpoint returns the row positionally, as
      `values` under the SELECT's columns, as `values` with its own columns,
      or keyed by column name. */
  lemma CreateThenList(lead: Lead, id: string, createdAt: string)
    ensures var row := StoredRow(Create(lead, id, createdAt));
            && |row| == 7
            && Normalize(Envelope(PositionalRows([row]), SelectMeta)) == Ok([Listed(lead, id, createdAt)])
            && Normalize(Envelope(ValuesRows([row]), SelectMeta)) == Ok([Listed(lead, id, createdAt)])
            && Normalize(Envelope(ColumnsRows([row]), Obj(map[]))) == Ok([Listed(lead, id, createdAt)])
            && Normalize(Envelope(KeyedRows([row]), SelectMeta)) == Ok([Listed(lead, id, createdAt)])
    ensures id != "undefined" ==> Listed(lead, id, createdAt).id == Create(lead, id, createdAt).id
  {
    var row := StoredRow(Create(lead, id, createdAt));
    FourShapesAgree([row]);
    assert Expected([row]) == [ToItem(Arr(row))];
    assert ToItem(Arr(row)) == Listed(lead, id, createdAt);
  }

  /** What the input schema of LIST_OPPORTUNITIES admits: no input, or an
      object whose `limit` is absent or a positive integer. */
  predicate ValidListInput(context: JsValue) {
    || context == Undefined
    || (context.Obj? && var limit := Prop(context, "limit");
        limit == Undefined || (limit.Num? && limit.n > 0))
  }

  /** `context?.limit ?? 100`: the limit bound to the SELECT. */
  function ListLimit(context: JsValue): (limit: JsValue)
    ensures Nullish(OptProp(context, "limit")) ==> limit == Num(DefaultLimit)
    ensures !Nullish(OptProp(context, "limit")) ==> limit == OptProp(context, "limit")
    ensures ValidListInput(context) ==> limit.Num? && limit.n > 0
  {
    Coalesce(OptProp(context, "limit"), Num(DefaultLimit))
  }
}
