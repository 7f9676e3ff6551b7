/**
  The three shapes an invoice document's content takes -- a single invoice
  object, a bare array of invoices, or the `{invoices, tokenUsage}` envelope --
  and the rule every reader uses to turn them into a list of invoices.
*/
module InvoiceShapes {
  import opened JsValue

  /** `Array.isArray(v) ? v : [v]` */
  function AsList(v: Json): (r: seq<Json>)
    ensures v.JArr? ==> r == v.items
    ensures !v.JArr? ==> r == [v]
  {
    if v.JArr? then v.items else [v]
  }

  /**
    The shared reading rule: a truthy `invoices` property wins (wrapped unless
    it is an array), otherwise the whole value (wrapped unless it is an array).
    Reading `.invoices` of `null` throws.
  */
  function Normalise(content: Json): Result<seq<Json>> {
    match GetProp(content, "invoices")
    case Err(e) => Err(e)
    case Ok(inv) => if IsTruthy(inv) then Ok(AsList(inv.value)) else Ok(AsList(content))
  }

  /** The envelope the table writes back; an undefined `tokenUsage` is omitted by `JSON.stringify`. */
  function Envelope(invoices: seq<Json>, tokenUsage: Option<Json>): (v: Json)
    ensures Prop(v, "invoices") == Some(JArr(invoices))
    ensures Prop(v, "tokenUsage") == tokenUsage
  {
    var head := Field("invoices", JArr(invoices));
    if tokenUsage.Some? then
      var fs := [head, Field("tokenUsage", tokenUsage.value)];
      assert Lookup(fs[1..], "tokenUsage") == tokenUsage;
      JObj(fs)
    else
      assert [head][1..] == [];
      JObj([head])
  }

  /** The envelope has no properties besides `invoices` and `tokenUsage`. */
  lemma EnvelopeKeys(invoices: seq<Json>, tokenUsage: Option<Json>, k: string)
    requires k != "invoices" && k != "tokenUsage"
    ensures Prop(Envelope(invoices, tokenUsage), k) == None
  {
    var fs := Envelope(invoices, tokenUsage).fields;
    assert forall i :: 0 <= i < |fs| ==> fs[i].key == "invoices" || fs[i].key == "tokenUsage";
  }

  /** `inv.documentId = inv.documentId || id`: only a missing or falsy id is replaced. */
  function Backfill(inv: Json, id: string): (r: Json)
    ensures inv.JObj? ==> IsTruthy(Prop(r, "documentId"))
                          == (IsTruthy(Prop(inv, "documentId")) || id != "")
    ensures inv.JObj? && IsTruthy(Prop(inv, "documentId")) ==> r == inv
    ensures inv.JObj? && !IsTruthy(Prop(inv, "documentId")) ==> Prop(r, "documentId") == Some(JStr(id))
    ensures forall k :: k != "documentId" ==> Prop(r, k) == Prop(inv, k)
  {
    if inv.JObj? && !IsTruthy(Lookup(inv.fields, "documentId"))
    then SetProp(inv, "documentId", JStr(id))
    else inv
  }

  /** How each shape normalises, shape by shape (queries.ts:351-359). */
  lemma NormaliseByShape(content: Json)
    ensures content == JNull ==> Normalise(content).Err?
    ensures content.JArr? ==> Normalise(content) == Ok(content.items)
    ensures content.JObj? && IsTruthy(Prop(content, "invoices"))
            ==> Normalise(content) == Ok(AsList(Prop(content, "invoices").value))
    ensures content.JObj? && !IsTruthy(Prop(content, "invoices"))
            ==> Normalise(content) == Ok([content])
    ensures !content.JObj? && !content.JArr? && content != JNull
            ==> Normalise(content) == Ok([content])
  {
  }

  /**
    One invoice stored in any of the three shapes -- on its own, in a bare
    array, or in an envelope -- reads back as the same one-element list.
  */
  lemma ThreeShapesAgree(invoice: Json, tokenUsage: Option<Json>)
    requires invoice.JObj? && !IsTruthy(Prop(invoice, "invoices"))
    ensures Normalise(invoice) == Ok([invoice])
    ensures Normalise(JArr([invoice])) == Ok([invoice])
    ensures Normalise(Envelope([invoice], tokenUsage)) == Ok([invoice])
  {
  }

  /** Writing the envelope and reading it back gives the same invoices, whatever they are. */
  lemma EnvelopeRoundTrip(invoices: seq<Json>, tokenUsage: Option<Json>)
    ensures Normalise(Envelope(invoices, tokenUsage)) == Ok(invoices)
  {
  }

  /** Back-filling twice is the same as back-filling once. */
  lemma BackfillIdempotent(inv: Json, id: string, id': string)
    requires id != ""
    ensures Backfill(Backfill(inv, id), id') == Backfill(inv, id)
  {
  }
}
