/**
  The two invoice tools: `processInvoice`, which classifies the model's
  extraction, checks for a duplicate, persists a new invoice and streams the
  whole collection, and `displayExistingInvoice`, which streams one stored
  document or the whole collection.

  Everything outside the code is an input: the extraction reply (as `Text`),
  the token counts the provider reports, the id `generateUUID` returns, the
  document table when it is scanned and when it is read back, and whether an
  invoice handler is registered.
*/
module ProcessInvoice {
  import opened JsValue
  import opened InvoiceShapes
  import opened Accounting
  import opened Queries
  import opened Streams
  import InvoiceServer

  datatype ProcessInput = ProcessInput(
    responseText: Text,              // the extraction reply, as `JSON.parse` sees it
    inputTokens: nat,
    outputTokens: nat,
    existingBlockId: Option<string>,
    freshId: string,                 // the value of `generateUUID()` on this run
    store: Option<seq<Doc>>,         // the table the duplicate queries see (None: the query throws)
    handlerRegistered: bool,         // an `invoice` entry exists in the handler list
    storeAfter: Option<seq<Doc>>)    // the table `getAllDocumentsByKind` sees after persisting

  /** The descriptor the tool returns; absent optional fields are `false` / `None`. */
  datatype ToolResult = ToolResult(
    id: string, title: string, kind: string, content: Json,
    isDuplicate: bool, isError: bool,
    invoiceDetails: Option<Json>, existingInvoiceId: Option<string>)

  datatype ToolOutcome = Returned(result: ToolResult) | Threw(message: string)

  /** One run: how the tool ends and the parts it wrote, in order. */
  datatype Run = Run(outcome: ToolOutcome, events: seq<Event>)

  const ParseFailureMessage: string := "Failed to parse invoice data. Please check the document format."
  const NoHandlerMessage: string := "No document handler found for invoice blocks"
  const RetrievalFailureMessage: string := "Error: Failed to retrieve invoices after processing."
  const ProcessedMessage: string :=
    "The invoice has been processed and is now visible with all other invoices in the invoice block."

  /** `existingBlockId || generateUUID()` */
  function BlockId(inp: ProcessInput): string {
    if inp.existingBlockId.Some? && inp.existingBlockId.value != "" then inp.existingBlockId.value else inp.freshId
  }

  /** The three fields the duplicate queries receive. */
  function CandidateOf(x: Json): Candidate {
    Candidate(Prop(x, "vendorName"), Prop(x, "invoiceNumber"), Prop(x, "amount"))
  }

  /** `Duplicate invoice detected: ${invoiceNumber} from ${vendorName} for $${amount}` */
  function DuplicateMessage(x: Json, num: real -> string): string {
    "Duplicate invoice detected: " + ShowOpt(Prop(x, "invoiceNumber"), num)
    + " from " + ShowOpt(Prop(x, "vendorName"), num)
    + " for $" + ShowOpt(Prop(x, "amount"), num)
  }

  /** `Invoice: ${vendorName} - ${invoiceNumber}` */
  function InvoiceTitle(x: Json, num: real -> string): string {
    "Invoice: " + ShowOpt(Prop(x, "vendorName"), num) + " - " + ShowOpt(Prop(x, "invoiceNumber"), num)
  }

  /** The extraction after `documentId` and the unfloored `tokenUsage` are assigned. */
  function Stamped(x: Json, id: string, inputTokens: nat, outputTokens: nat): Json {
    SetProp(SetProp(x, "documentId", JStr(id)), "tokenUsage", UsageJson(CalculateTokenUsage(inputTokens, outputTokens)))
  }

  /**
    `allInvoices` after the processing loop body ran on `d` (process-invoice.ts:175-184):
    a non-empty document that parses to something without an `error` key is
    pushed, with its id back-filled; anything else is skipped.
  */
  function ProcessingInto(d: Doc, acc: seq<Json>): seq<Json> {
    if d.content == EmptyText then acc
    else match Parse(d.content)
      case None => acc
      case Some(v) => if HasKey(v, "error") == Ok(false) then acc + [Backfill(v, d.id)] else acc
  }

  /** `allInvoices` after the loop ran over `docs`, starting from `acc`. */
  function ProcessingPushes(docs: seq<Doc>, acc: seq<Json>): seq<Json> {
    if docs == [] then acc else ProcessingPushes(docs[1..], ProcessingInto(docs[0], acc))
  }

  /** The processing aggregate (process-invoice.ts:172-185). */
  function AggregateForProcessing(docs: seq<Doc>): seq<Json> {
    ProcessingPushes(docs, [])
  }

  /** The six parts the success path writes. */
  function SuccessEvents(id: string, all: seq<Json>, inputTokens: nat, outputTokens: nat): seq<Event> {
    [KindPart("invoice"), IdPart(id), TitlePart("All Invoices"), ClearPart,
     InvoiceDataPart(Stringify(Envelope(all, Some(UsageJson(DisplayUsage(inputTokens, outputTokens)))))),
     FinishPart]
  }

  function ErrorResult(id: string, title: string, content: Json): ToolResult {
    ToolResult(id, title, "invoice", content, false, true, None, None)
  }

  /** What `processInvoice.execute` does, branch by branch (process-invoice.ts:49-232). */
  function ProcessRun(inp: ProcessInput, num: real -> string): Run {
    match Parse(inp.responseText)
    case None => Run(Returned(ErrorResult(BlockId(inp), "Invoice Processing Error", JStr(ParseFailureMessage))), [])
    case Some(x) => ClassifyRun(inp, x, num)
  }

  /** The `'error' in` test on the parsed reply (process-invoice.ts:79-87, 116-124). */
  function ClassifyRun(inp: ProcessInput, x: Json, num: real -> string): Run {
    match HasKey(x, "error")
    case Err(_) => Run(Returned(ErrorResult(BlockId(inp), "Invoice Processing Error", JStr(ParseFailureMessage))), [])
    case Ok(true) => Run(Returned(ErrorResult(BlockId(inp), "Invalid Invoice", Prop(x, "error").value)), [])
    case Ok(false) =>
      if IsDuplicate(inp.store, CandidateOf(x), num) then DuplicateRun(inp, x, num)
      else PersistRun(inp, x, num)
  }

  /** The duplicate reply (process-invoice.ts:95-115). */
  function DuplicateRun(inp: ProcessInput, x: Json, num: real -> string): Run {
    var e := ExistingByDetails(inp.store, CandidateOf(x), num);
    var known := e.found && e.id.Some? && e.id.value != "";
    Run(Returned(ToolResult(if known then e.id.value else BlockId(inp), "Duplicate Invoice", "invoice",
                            JStr(DuplicateMessage(x, num)), true, false, Some(x),
                            if known then e.id else None)), [])
  }

  /** Persisting a new invoice and streaming the collection (process-invoice.ts:126-228). */
  function PersistRun(inp: ProcessInput, x: Json, num: real -> string): Run {
    if !inp.handlerRegistered then Run(Threw(NoHandlerMessage), [])
    else
      var docs := DocumentsByKind(inp.storeAfter, "invoice");
      if docs == [] then
        Run(Returned(ErrorResult(inp.freshId, InvoiceTitle(x, num), JStr(RetrievalFailureMessage))), [])
      else
        Run(Returned(ToolResult(inp.freshId, "All Invoices", "invoice", JStr(ProcessedMessage), false, false,
                                Some(Stamped(x, inp.freshId, inp.inputTokens, inp.outputTokens)), None)),
            SuccessEvents(inp.freshId, AggregateForProcessing(docs), inp.inputTokens, inp.outputTokens))
  }

  /** The `allInvoices` loop of the processing path (process-invoice.ts:172-185). */
  method CollectForProcessing(docs: seq<Doc>) returns (allInvoices: seq<Json>)
    ensures allInvoices == AggregateForProcessing(docs)
  {
    allInvoices := [];
    for i := 0 to |docs|
      invariant ProcessingPushes(docs[i..], allInvoices) == AggregateForProcessing(docs)
    {
      var doc := docs[i];
      assert docs[i..][1..] == docs[i + 1..];
      if doc.content != EmptyText {
        var parsed := Parse(doc.content);
        if parsed.Some? {
          var invoice := parsed.value;
          var hasError := HasKey(invoice, "error");
          if hasError == Ok(false) {
            allInvoices := allInvoices + [Backfill(invoice, doc.id)];
          }
        }
      }
    }
  }

  /** `processInvoice.execute`, writing to `dataStream`. */
  method ProcessInvoice(inp: ProcessInput, num: real -> string, dataStream: DataStream) returns (outcome: ToolOutcome)
    modifies dataStream
    ensures outcome == ProcessRun(inp, num).outcome
    ensures dataStream.events == old(dataStream.events) + ProcessRun(inp, num).events
  {
    var blockId := BlockId(inp);
    var extractedInvoice := Parse(inp.responseText);
    if extractedInvoice.None? {
      return Returned(ErrorResult(blockId, "Invoice Processing Error", JStr(ParseFailureMessage)));
    }
    var x := extractedInvoice.value;
    assert ProcessRun(inp, num) == ClassifyRun(inp, x, num);
    var hasError := HasKey(x, "error");
    if hasError.Err? {
      return Returned(ErrorResult(blockId, "Invoice Processing Error", JStr(ParseFailureMessage)));
    }
    if hasError.value {
      return Returned(ErrorResult(blockId, "Invalid Invoice", Prop(x, "error").value));
    }
    var candidate := CandidateOf(x);
    var isDuplicateInvoice := CheckInvoiceDuplicate(inp.store, candidate, num);
    if isDuplicateInvoice {
      assert ProcessRun(inp, num) == DuplicateRun(inp, x, num);
      var existingInvoice := GetExistingInvoiceByDetails(inp.store, candidate, num);
      var known := existingInvoice.found && existingInvoice.id.Some? && existingInvoice.id.value != "";
      var id := if known then existingInvoice.id.value else blockId;
      return Returned(ToolResult(id, "Duplicate Invoice", "invoice", JStr(DuplicateMessage(x, num)), true, false,
                                 Some(x), if known then existingInvoice.id else None));
    }
    assert ProcessRun(inp, num) == PersistRun(inp, x, num);
    outcome := PersistNewInvoice(inp, x, num, dataStream);
  }

  /**
    The part of `processInvoice.execute` after the duplicate check
    (process-invoice.ts:126-228): stamp the extraction, persist it through the
    handler, read the collection back and stream it.
  */
  method PersistNewInvoice(inp: ProcessInput, extractedInvoice: Json, num: real -> string, dataStream: DataStream)
    returns (outcome: ToolOutcome)
    modifies dataStream
    ensures outcome == PersistRun(inp, extractedInvoice, num).outcome
    ensures dataStream.events == old(dataStream.events) + PersistRun(inp, extractedInvoice, num).events
  {
    var x := extractedInvoice;
    var id := inp.freshId;
    var title := InvoiceTitle(x, num);
    x := SetProp(x, "documentId", JStr(id));
    x := SetProp(x, "tokenUsage", UsageJson(CalculateTokenUsage(inp.inputTokens, inp.outputTokens)));
    if !inp.handlerRegistered {
      return Threw(NoHandlerMessage);
    }
    var invoiceDocuments := DocumentsByKind(inp.storeAfter, "invoice");
    if invoiceDocuments == [] {
      return Returned(ErrorResult(id, title, JStr(RetrievalFailureMessage)));
    }
    var allInvoices := CollectForProcessing(invoiceDocuments);
    var payload := Stringify(Envelope(allInvoices, Some(UsageJson(DisplayUsage(inp.inputTokens, inp.outputTokens)))));
    dataStream.WriteData(KindPart("invoice"));
    dataStream.WriteData(IdPart(id));
    dataStream.WriteData(TitlePart("All Invoices"));
    dataStream.WriteData(ClearPart);
    dataStream.WriteData(InvoiceDataPart(payload));
    dataStream.WriteData(FinishPart);
    AppendSix(old(dataStream.events), KindPart("invoice"), IdPart(id), TitlePart("All Invoices"), ClearPart,
              InvoiceDataPart(payload), FinishPart);
    return Returned(ToolResult(id, "All Invoices", "invoice", JStr(ProcessedMessage), false, false, Some(x), None));
  }

  // ---------------------------------------------------------------------
  // Properties of the processing pipeline

  /**
    A parsed object with an `error` key is rejected verbatim under the block
    id, with no stream parts and no duplicate lookup.
  */
  lemma RejectionIsVerbatim(inp: ProcessInput, num: real -> string)
    requires Parse(inp.responseText).Some? && Parse(inp.responseText).value.JObj?
    requires Prop(Parse(inp.responseText).value, "error").Some?
    ensures ProcessRun(inp, num)
            == Run(Returned(ToolResult(BlockId(inp), "Invalid Invoice", "invoice",
                                       Prop(Parse(inp.responseText).value, "error").value,
                                       false, true, None, None)), [])
  {
  }

  /**
    A reply that does not parse, or parses to `null` or a primitive, makes the
    `in` test throw and yields the fixed processing-error descriptor.
  */
  lemma UnparseableReplyIsProcessingError(inp: ProcessInput, num: real -> string)
    requires Parse(inp.responseText).None? || !(Parse(inp.responseText).value.JObj? || Parse(inp.responseText).value.JArr?)
    ensures ProcessRun(inp, num).events == []
    ensures ProcessRun(inp, num).outcome
            == Returned(ToolResult(BlockId(inp), "Invoice Processing Error", "invoice",
                                   JStr(ParseFailureMessage), false, true, None, None))
  {
  }

  /** Ids in a document list. */
  predicate IdIn(id: string, docs: seq<Doc>) {
    exists j :: 0 <= j < |docs| && docs[j].id == id
  }

  lemma {:induction false} FirstMatchIdIsStored(docs: seq<Doc>, key: Key, num: real -> string)
    requires FirstMatch(docs, key, num).found
    ensures IdIn(FirstMatch(docs, key, num).id.value, docs)
  {
    if ScanDoc(docs[0], key, num).Found? {
      assert docs[0].id == FirstMatch(docs, key, num).id.value;
    } else {
      FirstMatchIdIsStored(docs[1..], key, num);
      var j :| 0 <= j < |docs[1..]| && docs[1..][j].id == FirstMatch(docs[1..], key, num).id.value;
      assert docs[j + 1].id == FirstMatch(docs, key, num).id.value;
    }
  }

  lemma {:induction false} OfKindIdsStored(docs: seq<Doc>, kind: string, id: string)
    requires IdIn(id, OfKind(docs, kind))
    ensures IdIn(id, docs)
  {
    var j :| 0 <= j < |OfKind(docs, kind)| && OfKind(docs, kind)[j].id == id;
    var d := OfKind(docs, kind)[j];
    assert d in docs;
    var k :| 0 <= k < |docs| && docs[k] == d;
  }

  /**
    On a duplicate nothing is streamed; when the lookup found a document with
    an id, `id` and `existingInvoiceId` are both that stored id, otherwise
    `id` is the block id and `existingInvoiceId` is undefined. With a fresh
    UUID and no block id, the reply's id is fresh exactly when no stored
    document was named.
  */
  lemma DuplicateNamesStoredDocument(inp: ProcessInput, num: real -> string)
    requires Parse(inp.responseText).Some?
    requires HasKey(Parse(inp.responseText).value, "error") == Ok(false)
    requires IsDuplicate(inp.store, CandidateOf(Parse(inp.responseText).value), num)
    ensures var r := ProcessRun(inp, num);
            && r.events == []
            && r.outcome.Returned? && r.outcome.result.isDuplicate && r.outcome.result.title == "Duplicate Invoice"
            && r.outcome.result.invoiceDetails == Parse(inp.responseText)
            && (r.outcome.result.existingInvoiceId.Some? ==>
                  r.outcome.result.id == r.outcome.result.existingInvoiceId.value && IdIn(r.outcome.result.id, inp.store.value))
            && (r.outcome.result.existingInvoiceId.None? ==> r.outcome.result.id == BlockId(inp))
    ensures inp.existingBlockId.None? && !IdIn(inp.freshId, inp.store.GetOr([]))
            ==> (ProcessRun(inp, num).outcome.result.id == inp.freshId
                 <==> ProcessRun(inp, num).outcome.result.existingInvoiceId.None?)
  {
    var x := Parse(inp.responseText).value;
    var c := CandidateOf(x);
    DuplicateAgreesWithExisting(inp.store, c, num);
    var e := ExistingByDetails(inp.store, c, num);
    var docs := OfKind(inp.store.value, "invoice");
    var a := AmountText(c.amount, num).value;
    FirstMatchIdIsStored(docs, KeyOf(c, a), num);
    OfKindIdsStored(inp.store.value, "invoice", e.id.value);
  }

  /** The success path, when it is taken: its descriptor and its six parts. */
  predicate Succeeds(inp: ProcessInput, num: real -> string) {
    && Parse(inp.responseText).Some?
    && HasKey(Parse(inp.responseText).value, "error") == Ok(false)
    && !IsDuplicate(inp.store, CandidateOf(Parse(inp.responseText).value), num)
    && inp.handlerRegistered
    && DocumentsByKind(inp.storeAfter, "invoice") != []
  }

  /**
    Parts are written only on the success path, and then exactly `kind`,
    `id`, `title`, `clear`, `invoice-data`, `finish`, under the fresh id;
    the descriptor then carries the stamped extraction.
  */
  lemma EventsOnlyOnSuccess(inp: ProcessInput, num: real -> string)
    ensures ProcessRun(inp, num).events != [] <==> Succeeds(inp, num)
    ensures Succeeds(inp, num) ==>
            ProcessRun(inp, num).events
            == SuccessEvents(inp.freshId, AggregateForProcessing(DocumentsByKind(inp.storeAfter, "invoice")),
                             inp.inputTokens, inp.outputTokens)
    ensures Succeeds(inp, num) ==>
            ProcessRun(inp, num).outcome
            == Returned(ToolResult(inp.freshId, "All Invoices", "invoice", JStr(ProcessedMessage), false, false,
                                   Some(Stamped(Parse(inp.responseText).value, inp.freshId,
                                                inp.inputTokens, inp.outputTokens)), None))
  {
    if Succeeds(inp, num) {
      var x := Parse(inp.responseText).value;
      assert ProcessRun(inp, num) == PersistRun(inp, x, num);
    }
  }

  /**
    A new invoice object comes back stamped with the given id and the exact,
    unfloored usage; every other property is the extraction's own.
  */
  lemma NewInvoiceStamped(x: Json, id: string, inputTokens: nat, outputTokens: nat)
    requires x.JObj?
    ensures var details := Stamped(x, id, inputTokens, outputTokens);
            && Prop(details, "documentId") == Some(JStr(id))
            && Prop(details, "tokenUsage") == Some(UsageJson(CalculateTokenUsage(inputTokens, outputTokens)))
            && forall k :: k != "documentId" && k != "tokenUsage" ==> Prop(details, k) == Prop(x, k)
  {
  }

  /**
    The streamed aggregate reads back as exactly the collected invoices and
    carries the floored usage, which equals the stamped, unfloored usage
    exactly when no flooring was needed.
  */
  lemma StreamedAggregate(id: string, all: seq<Json>, inputTokens: nat, outputTokens: nat)
    ensures var payload := Parse(SuccessEvents(id, all, inputTokens, outputTokens)[4].data).value;
            && Prop(payload, "tokenUsage") == Some(UsageJson(DisplayUsage(inputTokens, outputTokens)))
            && Normalise(payload) == Ok(all)
    ensures UsageJson(DisplayUsage(inputTokens, outputTokens)) == UsageJson(CalculateTokenUsage(inputTokens, outputTokens))
            <==> DisplayUsage(inputTokens, outputTokens) == CalculateTokenUsage(inputTokens, outputTokens)
  {
    EnvelopeRoundTrip(all, Some(UsageJson(DisplayUsage(inputTokens, outputTokens))));
    var d := DisplayUsage(inputTokens, outputTokens);
    var u := CalculateTokenUsage(inputTokens, outputTokens);
    if UsageJson(d) == UsageJson(u) {
      assert UsageJson(d).fields[0].value == UsageJson(u).fields[0].value;
      assert UsageJson(d).fields[1].value == UsageJson(u).fields[1].value;
      assert UsageJson(d).fields[2].value == UsageJson(u).fields[2].value;
      assert UsageJson(d).fields[3].value == UsageJson(u).fields[3].value;
    }
  }

  /** The aggregates keep only values whose `in` test says there is no `error` key. */
  predicate NoErrorKey(v: Json) {
    HasKey(v, "error") == Ok(false)
  }

  lemma ProcessingIntoKeepsNoErrors(d: Doc, acc: seq<Json>)
    requires forall v :: v in acc ==> NoErrorKey(v)
    ensures forall v :: v in ProcessingInto(d, acc) ==> NoErrorKey(v)
  {
    if d.content != EmptyText && Parse(d.content).Some? {
      var v := Parse(d.content).value;
      if NoErrorKey(v) {
        assert Prop(Backfill(v, d.id), "error") == Prop(v, "error");
      }
    }
  }

  lemma {:induction false} ProcessingPushesKeepNoErrors(docs: seq<Doc>, acc: seq<Json>)
    requires forall v :: v in acc ==> NoErrorKey(v)
    ensures forall v :: v in ProcessingPushes(docs, acc) ==> NoErrorKey(v)
  {
    if docs != [] {
      ProcessingIntoKeepsNoErrors(docs[0], acc);
      ProcessingPushesKeepNoErrors(docs[1..], ProcessingInto(docs[0], acc));
    }
  }

  /** Nothing in the processing aggregate carries an `error` key. */
  lemma ProcessingAggregateHasNoErrors(docs: seq<Doc>)
    ensures forall v :: v in AggregateForProcessing(docs) ==> NoErrorKey(v)
  {
    ProcessingPushesKeepNoErrors(docs, []);
  }

  lemma {:induction false} ProcessingPushesBound(docs: seq<Doc>, acc: seq<Json>)
    ensures |acc| <= |ProcessingPushes(docs, acc)| <= |acc| + |docs|
    ensures ProcessingPushes(docs, acc)[..|acc|] == acc
  {
    if docs != [] {
      var next := ProcessingInto(docs[0], acc);
      ProcessingPushesBound(docs[1..], next);
      assert next[..|acc|] == acc;
    }
  }

  /** The processing aggregate has at most one entry per document. */
  lemma ProcessingAggregateBound(docs: seq<Doc>)
    ensures |AggregateForProcessing(docs)| <= |docs|
  {
    ProcessingPushesBound(docs, []);
  }

  /**
    The processing aggregate does not unwrap envelopes: a document holding
    `{invoices, tokenUsage}` contributes the envelope itself, as one entry,
    with the document's id back-filled.
  */
  lemma ProcessingKeepsEnvelopeWhole(d: Doc, invoices: seq<Json>, tokenUsage: Option<Json>)
    requires d.content == Stringify(Envelope(invoices, tokenUsage))
    ensures AggregateForProcessing([d]) == [Backfill(Envelope(invoices, tokenUsage), d.id)]
  {
    assert [d][1..] == [];
    var env := Envelope(invoices, tokenUsage);
    EnvelopeKeys(invoices, tokenUsage, "error");
    assert ProcessingInto(d, []) == [] + [Backfill(env, d.id)] == [Backfill(env, d.id)];
    assert ProcessingPushes([d], []) == ProcessingPushes([], ProcessingInto(d, []));
  }

  /**
    Resubmitting an invoice that `onCreateDocument` stored is a duplicate:
    the stored object carries the same vendor name, invoice number and amount
    (its extra `tokenUsage` does not matter), so the check answers true and,
    by `DuplicateNamesStoredDocument`, the run reports 'Duplicate Invoice'
    and streams nothing.
  */
  lemma ResubmissionIsDuplicate(store: seq<Doc>, stored: Json, inputTokens: nat, outputTokens: nat, j: nat,
                                num: real -> string)
    requires stored.JObj? && !IsTruthy(Prop(stored, "invoices"))
    requires Prop(stored, "vendorName").Some? && Prop(stored, "vendorName").value.JStr?
    requires Prop(stored, "vendorName").value.s != ""
    requires IsTruthy(Prop(stored, "invoiceNumber"))
    requires !Prop(stored, "invoiceNumber").value.JArr? && !Prop(stored, "invoiceNumber").value.JObj?
    requires Prop(stored, "amount").Some? && Prop(stored, "amount").value != JNull
    requires j < |store| && store[j].kind == "invoice"
    requires store[j].content == Stringify(InvoiceServer.CreatedContent(Some(stored), inputTokens, outputTokens))
    ensures IsDuplicate(Some(store), CandidateOf(stored), num)
  {
    var c := CandidateOf(stored);
    var key := KeyOf(c, AmountText(c.amount, num).value);
    CreatedContentMatches(store[j], stored, inputTokens, outputTokens, key, num);
    StoredMatchIsDuplicate(store, c, j, num);
  }

  /** The content `onCreateDocument` stored matches the key of the invoice it was created from. */
  lemma CreatedContentMatches(d: Doc, stored: Json, inputTokens: nat, outputTokens: nat, key: Key,
                              num: real -> string)
    requires stored.JObj? && !IsTruthy(Prop(stored, "invoices"))
    requires Prop(stored, "vendorName").Some? && Prop(stored, "vendorName").value.JStr?
    requires Prop(stored, "vendorName").value.s != ""
    requires IsTruthy(Prop(stored, "invoiceNumber"))
    requires !Prop(stored, "invoiceNumber").value.JArr? && !Prop(stored, "invoiceNumber").value.JObj?
    requires key.vendorName == Prop(stored, "vendorName") && key.invoiceNumber == Prop(stored, "invoiceNumber")
    requires AmountText(Prop(stored, "amount"), num) == Ok(key.amountText)
    requires d.content == Stringify(InvoiceServer.CreatedContent(Some(stored), inputTokens, outputTokens))
    ensures ScanDoc(d, key, num) == Found(InvoiceServer.CreatedContent(Some(stored), inputTokens, outputTokens))
  {
    var content := InvoiceServer.CreatedContent(Some(stored), inputTokens, outputTokens);
    assert Normalise(content) == Ok([content]);
    MatchIff(content, key, num);
    assert ScanEntries([content], key, num) == Found(content);
  }

  /** A matching document of kind `invoice` anywhere in the table makes the candidate a duplicate. */
  lemma StoredMatchIsDuplicate(docs: seq<Doc>, c: Candidate, j: nat, num: real -> string)
    requires j < |docs| && docs[j].kind == "invoice"
    requires AmountText(c.amount, num).Ok?
    requires ScanDoc(docs[j], KeyOf(c, AmountText(c.amount, num).value), num).Found?
    ensures IsDuplicate(Some(docs), c, num)
  {
    var of := OfKind(docs, "invoice");
    assert docs[j] in of;
    var i :| 0 <= i < |of| && of[i] == docs[j];
  }

  // ---------------------------------------------------------------------
  // displayExistingInvoice

  datatype DisplayResult =
    | DisplayError(message: string)
    | Displayed(id: string, title: string, kind: string, content: string)

  datatype DisplayRun = DisplayRun(result: DisplayResult, events: seq<Event>)

  const NoInvoicesMessage: string := "No invoices found in the system."
  const NotFoundMessage: string := "Could not find the requested invoice."
  const NoValidInvoicesMessage: string := "No valid invoices found in the system."
  const DisplayedMessage: string := "The invoice data is now displayed in the invoice block."

  /**
    The inner loop over an unwrapped `invoices` list (process-invoice.ts:290-295):
    entries with an `error` key are skipped, the rest are back-filled and
    pushed, and the first entry the `in` test throws on ends the document
    (entries pushed before it stay).
  */
  function PushInto(entries: seq<Json>, id: string, acc: seq<Json>): seq<Json> {
    if entries == [] then acc
    else match HasKey(entries[0], "error")
      case Err(_) => acc
      case Ok(true) => PushInto(entries[1..], id, acc)
      case Ok(false) => PushInto(entries[1..], id, acc + [Backfill(entries[0], id)])
  }

  /** `allInvoices` after the display loop body ran on `d` (process-invoice.ts:285-303). */
  function DisplayInto(d: Doc, acc: seq<Json>): seq<Json> {
    if d.content == EmptyText then acc
    else match Parse(d.content)
      case None => acc
      case Some(v) =>
        match GetProp(v, "invoices")
        case Err(_) => acc
        case Ok(invoices) =>
          if IsTruthy(invoices) then PushInto(AsList(invoices.value), d.id, acc)
          else if HasKey(v, "error") == Ok(false) then acc + [Backfill(v, d.id)]
          else acc
  }

  function DisplayPushes(docs: seq<Doc>, acc: seq<Json>): seq<Json> {
    if docs == [] then acc else DisplayPushes(docs[1..], DisplayInto(docs[0], acc))
  }

  /** The display aggregate (process-invoice.ts:282-304). */
  function AggregateForDisplay(docs: seq<Doc>): seq<Json> {
    DisplayPushes(docs, [])
  }

  /** `docs.find(doc => doc.id === id)` */
  function FindById(docs: seq<Doc>, id: string): (r: Option<Doc>)
    ensures r.Some? ==> r.value in docs && r.value.id == id
    ensures r.None? ==> forall d :: d in docs ==> d.id != id
  {
    if docs == [] then None else if docs[0].id == id then Some(docs[0]) else FindById(docs[1..], id)
  }

  /** What `displayExistingInvoice.execute` does (process-invoice.ts:242-354). */
  function DisplayRunOf(invoiceId: Option<string>, store: Option<seq<Doc>>): DisplayRun {
    var docs := DocumentsByKind(store, "invoice");
    if docs == [] then DisplayRun(DisplayError(NoInvoicesMessage), [])
    else if invoiceId.Some? && invoiceId.value != "" then DisplayOneRun(invoiceId.value, docs)
    else DisplayAllRun(docs)
  }

  /** One requested document (process-invoice.ts:252-280, 343-350). */
  function DisplayOneRun(invoiceId: string, docs: seq<Doc>): DisplayRun {
    var found := FindById(docs, invoiceId);
    if found.None? || found.value.content == EmptyText then DisplayRun(DisplayError(NotFoundMessage), [])
    else
      DisplayRun(Displayed(invoiceId, "Invoice Collection", "invoice", DisplayedMessage),
                 [KindPart("invoice"), IdPart(found.value.id), TitlePart(found.value.title),
                  InvoiceDataPart(found.value.content), FinishPart])
  }

  /** The whole collection (process-invoice.ts:281-350). */
  function DisplayAllRun(docs: seq<Doc>): DisplayRun
    requires docs != []
  {
    var all := AggregateForDisplay(docs);
    if all == [] then DisplayRun(DisplayError(NoValidInvoicesMessage), [])
    else
      DisplayRun(Displayed(docs[0].id, "Invoice Collection", "invoice", DisplayedMessage),
                 [KindPart("invoice"), IdPart(docs[0].id), TitlePart("All Invoices"),
                  InvoiceDataPart(Stringify(Envelope(all, Some(UsageJson(ZeroUsage))))), FinishPart])
  }

  /** The `allInvoices` loops of the display path. */
  method CollectForDisplay(docs: seq<Doc>) returns (allInvoices: seq<Json>)
    ensures allInvoices == AggregateForDisplay(docs)
  {
    allInvoices := [];
    for i := 0 to |docs|
      invariant DisplayPushes(docs[i..], allInvoices) == AggregateForDisplay(docs)
    {
      var doc := docs[i];
      assert docs[i..][1..] == docs[i + 1..];
      ghost var before := allInvoices;
      if doc.content != EmptyText {
        var parsed := Parse(doc.content);
        if parsed.Some? {
          var invoice := parsed.value;
          var invoices := GetProp(invoice, "invoices");
          if invoices.Ok? {
            if IsTruthy(invoices.value) {
              var invoicesArray := AsList(invoices.value.value);
              var j := 0;
              while j < |invoicesArray|
                invariant 0 <= j <= |invoicesArray|
                invariant PushInto(invoicesArray[j..], doc.id, allInvoices) == PushInto(invoicesArray, doc.id, before)
              {
                var inv := invoicesArray[j];
                assert invoicesArray[j..][1..] == invoicesArray[j + 1..];
                var hasError := HasKey(inv, "error");
                if hasError.Err? {
                  break;
                }
                if !hasError.value {
                  allInvoices := allInvoices + [Backfill(inv, doc.id)];
                }
                j := j + 1;
              }
            } else {
              var hasError := HasKey(invoice, "error");
              if hasError == Ok(false) {
                allInvoices := allInvoices + [Backfill(invoice, doc.id)];
              }
            }
          }
        }
      }
      assert allInvoices == DisplayInto(doc, before);
    }
  }

  /** `displayExistingInvoice.execute`, writing to `dataStream`. */
  method DisplayExistingInvoice(invoiceId: Option<string>, store: Option<seq<Doc>>, dataStream: DataStream)
    returns (result: DisplayResult)
    modifies dataStream
    ensures result == DisplayRunOf(invoiceId, store).result
    ensures dataStream.events == old(dataStream.events) + DisplayRunOf(invoiceId, store).events
  {
    var invoiceDocuments := DocumentsByKind(store, "invoice");
    if invoiceDocuments == [] {
      return DisplayError(NoInvoicesMessage);
    }
    ghost var parts: seq<Event>;
    if invoiceId.Some? && invoiceId.value != "" {
      assert DisplayRunOf(invoiceId, store) == DisplayOneRun(invoiceId.value, invoiceDocuments);
      var document := FindById(invoiceDocuments, invoiceId.value);
      if document.None? || document.value.content == EmptyText {
        return DisplayError(NotFoundMessage);
      }
      dataStream.WriteData(KindPart("invoice"));
      dataStream.WriteData(IdPart(document.value.id));
      dataStream.WriteData(TitlePart(document.value.title));
      dataStream.WriteData(InvoiceDataPart(document.value.content));
      parts := [KindPart("invoice"), IdPart(document.value.id), TitlePart(document.value.title),
                InvoiceDataPart(document.value.content)];
    } else {
      assert DisplayRunOf(invoiceId, store) == DisplayAllRun(invoiceDocuments);
      var allInvoices := CollectForDisplay(invoiceDocuments);
      if allInvoices == [] {
        return DisplayError(NoValidInvoicesMessage);
      }
      var recentDoc := invoiceDocuments[0];
      var payload := Stringify(Envelope(allInvoices, Some(UsageJson(ZeroUsage))));
      dataStream.WriteData(KindPart("invoice"));
      dataStream.WriteData(IdPart(recentDoc.id));
      dataStream.WriteData(TitlePart("All Invoices"));
      dataStream.WriteData(InvoiceDataPart(payload));
      parts := [KindPart("invoice"), IdPart(recentDoc.id), TitlePart("All Invoices"), InvoiceDataPart(payload)];
    }
    dataStream.WriteData(FinishPart);
    AppendFive(old(dataStream.events), parts[0], parts[1], parts[2], parts[3], FinishPart);
    var id := if invoiceId.Some? && invoiceId.value != "" then invoiceId.value else invoiceDocuments[0].id;
    return Displayed(id, "Invoice Collection", "invoice", DisplayedMessage);
  }

  // ---------------------------------------------------------------------
  // Properties of the display tool

  /**
    Every error leaves the stream untouched, and every success ends with
    `finish`; only the whole-collection view streams the newest document's id
    with an all-zero usage.
  */
  lemma DisplayEventsByOutcome(invoiceId: Option<string>, store: Option<seq<Doc>>)
    ensures var r := DisplayRunOf(invoiceId, store);
            && (r.result.DisplayError? ==> r.events == [])
            && (r.events == [] ==> r.result.DisplayError?)
            && (r.result.Displayed? ==> |r.events| == 5 && r.events[4] == FinishPart && r.events[0] == KindPart("invoice"))
            && (r.result.Displayed? ==> ClearPart !in r.events)
    ensures DocumentsByKind(store, "invoice") == [] ==> DisplayRunOf(invoiceId, store).result == DisplayError(NoInvoicesMessage)
  {
    var docs := DocumentsByKind(store, "invoice");
    if docs != [] {
      if invoiceId.Some? && invoiceId.value != "" {
        DisplayOneEvents(invoiceId.value, docs);
      } else {
        DisplayAllEvents(docs);
      }
    }
  }

  lemma DisplayOneEvents(invoiceId: string, docs: seq<Doc>)
    ensures var r := DisplayOneRun(invoiceId, docs);
            && (r.result.DisplayError? <==> r.events == [])
            && (r.result.Displayed? ==> |r.events| == 5 && r.events[4] == FinishPart && r.events[0] == KindPart("invoice"))
            && (r.result.Displayed? ==> ClearPart !in r.events)
  {
  }

  lemma DisplayAllEvents(docs: seq<Doc>)
    requires docs != []
    ensures var r := DisplayAllRun(docs);
            && (r.result.DisplayError? <==> r.events == [])
            && (r.result.Displayed? ==> |r.events| == 5 && r.events[4] == FinishPart && r.events[0] == KindPart("invoice"))
            && (r.result.Displayed? ==> ClearPart !in r.events)
  {
  }

  /** Asked for one id, the display streams that stored document's own content, unchanged. */
  lemma DisplayOneIsRawContent(invoiceId: string, store: Option<seq<Doc>>)
    requires invoiceId != ""
    requires DisplayRunOf(Some(invoiceId), store).result.Displayed?
    ensures exists d :: d in DocumentsByKind(store, "invoice") && d.id == invoiceId && d.content != EmptyText
                        && DisplayRunOf(Some(invoiceId), store).events[3] == InvoiceDataPart(d.content)
  {
    var found := FindById(DocumentsByKind(store, "invoice"), invoiceId);
    assert found.Some?;
  }

  /** The whole-collection view reads back (through the shared reading rule) as exactly the aggregate. */
  lemma DisplayAllRoundTrip(store: Option<seq<Doc>>)
    requires DisplayRunOf(None, store).result.Displayed?
    ensures Parse(DisplayRunOf(None, store).events[3].data) == Some(Envelope(AggregateForDisplay(DocumentsByKind(store, "invoice")), Some(UsageJson(ZeroUsage))))
    ensures Normalise(Parse(DisplayRunOf(None, store).events[3].data).value) == Ok(AggregateForDisplay(DocumentsByKind(store, "invoice")))
    ensures AggregateForDisplay(DocumentsByKind(store, "invoice")) != []
  {
    EnvelopeRoundTrip(AggregateForDisplay(DocumentsByKind(store, "invoice")), Some(UsageJson(ZeroUsage)));
  }

  lemma {:induction false} PushIntoKeepsNoErrors(entries: seq<Json>, id: string, acc: seq<Json>)
    requires forall v :: v in acc ==> NoErrorKey(v)
    ensures forall v :: v in PushInto(entries, id, acc) ==> NoErrorKey(v)
  {
    if entries != [] && HasKey(entries[0], "error").Ok? {
      if NoErrorKey(entries[0]) {
        assert Prop(Backfill(entries[0], id), "error") == Prop(entries[0], "error");
        PushIntoKeepsNoErrors(entries[1..], id, acc + [Backfill(entries[0], id)]);
      } else {
        PushIntoKeepsNoErrors(entries[1..], id, acc);
      }
    }
  }

  lemma DisplayIntoKeepsNoErrors(d: Doc, acc: seq<Json>)
    requires forall v :: v in acc ==> NoErrorKey(v)
    ensures forall v :: v in DisplayInto(d, acc) ==> NoErrorKey(v)
  {
    if d.content != EmptyText && Parse(d.content).Some? {
      var v := Parse(d.content).value;
      match GetProp(v, "invoices")
      case Err(_) =>
      case Ok(invoices) =>
        if IsTruthy(invoices) {
          PushIntoKeepsNoErrors(AsList(invoices.value), d.id, acc);
        } else if NoErrorKey(v) {
          assert Prop(Backfill(v, d.id), "error") == Prop(v, "error");
        }
    }
  }

  lemma {:induction false} DisplayPushesKeepNoErrors(docs: seq<Doc>, acc: seq<Json>)
    requires forall v :: v in acc ==> NoErrorKey(v)
    ensures forall v :: v in DisplayPushes(docs, acc) ==> NoErrorKey(v)
  {
    if docs != [] {
      DisplayIntoKeepsNoErrors(docs[0], acc);
      DisplayPushesKeepNoErrors(docs[1..], DisplayInto(docs[0], acc));
    }
  }

  /** Nothing in the display aggregate carries an `error` key, even inside an unwrapped envelope. */
  lemma DisplayAggregateHasNoErrors(docs: seq<Doc>)
    ensures forall v :: v in AggregateForDisplay(docs) ==> NoErrorKey(v)
  {
    DisplayPushesKeepNoErrors(docs, []);
  }

  /**
    Where the two aggregates part ways: the display path unwraps an envelope
    of error-free invoice objects into its invoices, while the processing
    path keeps the envelope as one entry.
  */
  lemma DisplayUnwrapsEnvelope(d: Doc, invoices: seq<Json>, tokenUsage: Option<Json>)
    requires d.content == Stringify(Envelope(invoices, tokenUsage))
    requires invoices != []
    requires forall v :: v in invoices ==> v.JObj? && Prop(v, "error").None?
    ensures |AggregateForDisplay([d])| == |invoices|
    ensures |AggregateForProcessing([d])| == 1
  {
    assert [d][1..] == [];
    var env := Envelope(invoices, tokenUsage);
    DisplayIntoUnwraps(d, env, JArr(invoices), []);
    assert DisplayPushes([d], []) == DisplayPushes([], DisplayInto(d, []));
    PushAllObjects(invoices, d.id, []);
    ProcessingKeepsEnvelopeWhole(d, invoices, tokenUsage);
  }

  lemma DisplayIntoUnwraps(d: Doc, v: Json, invoices: Json, acc: seq<Json>)
    requires d.content == JsonText(v) && Prop(v, "invoices") == Some(invoices) && Truthy(invoices)
    ensures DisplayInto(d, acc) == PushInto(AsList(invoices), d.id, acc)
  {
  }

  lemma {:induction false} PushAllObjects(entries: seq<Json>, id: string, acc: seq<Json>)
    requires forall v :: v in entries ==> v.JObj? && Prop(v, "error").None?
    ensures |PushInto(entries, id, acc)| == |acc| + |entries|
  {
    if entries != [] {
      assert entries[0] in entries;
      PushAllObjects(entries[1..], id, acc + [Backfill(entries[0], id)]);
    }
  }

  /** For a document holding one plain invoice object, the two loop bodies do the same. */
  lemma SinglesAgree(d: Doc, acc: seq<Json>)
    requires Parse(d.content).Some? && Parse(d.content).value.JObj?
    requires !IsTruthy(Prop(Parse(d.content).value, "invoices"))
    ensures DisplayInto(d, acc) == ProcessingInto(d, acc)
  {
  }
}
