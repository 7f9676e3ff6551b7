/**
  The server half of the invoice block: the content a newly created invoice
  document gets, and the draft an update streams. The language-model calls
  are inputs: the parsed reply (or `None` when it does not parse), the token
  counts the provider reports, and the sequence of partial objects.
*/
module InvoiceServer {
  import opened JsValue
  import opened Accounting
  import opened Streams

  /**
    `{...jsonResponse, tokenUsage: calculateTokenUsage(…)}` (server.ts:59-62):
    the reply's own properties, with `tokenUsage` overriding any the reply had.
  */
  function CreatedContent(response: Option<Json>, inputTokens: nat, outputTokens: nat): (v: Json)
    ensures v.JObj?
    ensures Prop(v, "tokenUsage") == Some(UsageJson(CalculateTokenUsage(inputTokens, outputTokens)))
    ensures response.Some? && response.value.JObj?
            ==> forall k :: k != "tokenUsage" ==> Prop(v, k) == Prop(response.value, k)
  {
    JObj(SetField(SpreadFields(response), "tokenUsage", UsageJson(CalculateTokenUsage(inputTokens, outputTokens))))
  }

  /**
    `onCreateDocument` (server.ts:25-92): exactly one `invoice-data` part,
    whose text is also what the handler returns. The `catch` around the
    stringify (server.ts:73-86) cannot be reached: serialising a parsed value
    does not throw.
  */
  method OnCreateDocument(response: Option<Json>, inputTokens: nat, outputTokens: nat, dataStream: DataStream)
    returns (draftContent: Text)
    modifies dataStream
    ensures draftContent == Stringify(CreatedContent(response, inputTokens, outputTokens))
    ensures dataStream.events == old(dataStream.events) + [InvoiceDataPart(draftContent)]
  {
    var responseWithTokens := JObj(SetField(SpreadFields(response), "tokenUsage",
                                            UsageJson(CalculateTokenUsage(inputTokens, outputTokens))));
    var jsonData := Stringify(responseWithTokens);
    dataStream.WriteData(InvoiceDataPart(jsonData));
    draftContent := jsonData;
  }

  /**
    A reply that does not parse leaves the spread empty: the stored content is
    an object holding only `tokenUsage`, not an error object.
  */
  lemma UnparseableReplyKeepsOnlyUsage(inputTokens: nat, outputTokens: nat)
    ensures CreatedContent(None, inputTokens, outputTokens)
            == JObj([Field("tokenUsage", UsageJson(CalculateTokenUsage(inputTokens, outputTokens)))])
    ensures HasKey(CreatedContent(None, inputTokens, outputTokens), "error") == Ok(false)
  {
  }

  /** A reply that is a bare array is spread by index: element `i` lands under the key `"i"`. */
  lemma ArrayReplySpreadByIndex(xs: seq<Json>, i: nat, inputTokens: nat, outputTokens: nat)
    requires i < |xs|
    ensures Field(NatToString(i), xs[i]) in CreatedContent(Some(JArr(xs)), inputTokens, outputTokens).fields
  {
    var fs := SpreadFields(Some(JArr(xs)));
    assert fs[i] == Field(NatToString(i), xs[i]);
    assert NatToString(i)[0] != "tokenUsage"[0];
    SetFieldKeepsOthers(fs, "tokenUsage", UsageJson(CalculateTokenUsage(inputTokens, outputTokens)), i);
  }

  lemma {:induction false} SetFieldKeepsOthers(fs: seq<Field>, k: string, x: Json, i: nat)
    requires i < |fs| && fs[i].key != k
    ensures fs[i] in SetField(fs, k, x)
  {
    if fs[0].key != k && i > 0 {
      SetFieldKeepsOthers(fs[1..], k, x, i - 1);
    }
  }

  /** One step of `fullStream` in `onUpdateDocument`: an `object` part (possibly without an object) or another part. */
  datatype Delta = ObjectDelta(partial: Option<Json>) | OtherDelta

  predicate CarriesObject(d: Delta) {
    d.ObjectDelta? && IsTruthy(d.partial)
  }

  /** The parts `onUpdateDocument` writes: one `invoice-data` per object, in arrival order. */
  function UpdateEvents(deltas: seq<Delta>): seq<Event> {
    if deltas == [] then []
    else (if CarriesObject(deltas[0]) then [InvoiceDataPart(Stringify(deltas[0].partial.value))] else [])
         + UpdateEvents(deltas[1..])
  }

  /** `draftContent` after the remaining parts, starting from `draft`. */
  function DraftAfter(deltas: seq<Delta>, draft: Text): Text {
    if deltas == [] then draft
    else DraftAfter(deltas[1..], if CarriesObject(deltas[0]) then Stringify(deltas[0].partial.value) else draft)
  }

  /** `onUpdateDocument` (server.ts:94-141). */
  method OnUpdateDocument(deltas: seq<Delta>, dataStream: DataStream) returns (draftContent: Text)
    modifies dataStream
    ensures dataStream.events == old(dataStream.events) + UpdateEvents(deltas)
    ensures draftContent == DraftAfter(deltas, EmptyText)
  {
    draftContent := EmptyText;
    for i := 0 to |deltas|
      invariant dataStream.events + UpdateEvents(deltas[i..]) == old(dataStream.events) + UpdateEvents(deltas)
      invariant DraftAfter(deltas[i..], draftContent) == DraftAfter(deltas, EmptyText)
    {
      var delta := deltas[i];
      assert deltas[i..][1..] == deltas[i + 1..];
      if delta.ObjectDelta? {
        var partial := delta.partial;
        if IsTruthy(partial) {
          dataStream.WriteData(InvoiceDataPart(Stringify(partial.value)));
          draftContent := Stringify(partial.value);
        }
      }
    }
  }

  /**
    What `onUpdateDocument` returns is the text of the last `invoice-data`
    part it wrote, or '' when it wrote none.
  */
  lemma {:induction false} DraftIsLastWritten(deltas: seq<Delta>, draft: Text)
    ensures UpdateEvents(deltas) == [] ==> DraftAfter(deltas, draft) == draft
    ensures UpdateEvents(deltas) != [] ==>
            UpdateEvents(deltas)[|UpdateEvents(deltas)| - 1] == InvoiceDataPart(DraftAfter(deltas, draft))
  {
    if deltas != [] {
      var next := if CarriesObject(deltas[0]) then Stringify(deltas[0].partial.value) else draft;
      DraftIsLastWritten(deltas[1..], next);
    }
  }
}
