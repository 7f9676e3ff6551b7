/**
  The client half of the invoice block: the reducer that applies streamed
  parts to the block and its metadata, the choice of which token usage the
  table shows, the CSV download and the version-navigation rules.
*/
module InvoiceClient {
  import opened JsValue
  import opened InvoiceShapes
  import opened Accounting
  import opened Streams
  import InvoiceServer
  import ProcessInvoice

  /** What the reducer can change: the block's content, visibility and status, and the metadata's `tokenUsage`. */
  datatype BlockView = BlockView(content: Text, isVisible: bool, status: string, tokenUsage: Option<Json>)

  /** `onStreamPart` on one part (client.tsx:25-47). */
  function StreamStep(b: BlockView, part: Event): BlockView {
    if !part.InvoiceDataPart? then b
    else match Parse(part.data)
      case None => b
      case Some(v) =>
        var shown := b.(content := Stringify(v), isVisible := true, status := "streaming");
        if v.JArr? then shown
        else match GetProp(v, "tokenUsage")
          case Err(_) => shown
          case Ok(t) => if IsTruthy(t) then shown.(tokenUsage := t) else shown
  }

  /** The block after a whole sequence of parts, applied in order. */
  function Replay(b: BlockView, parts: seq<Event>): BlockView
    decreases |parts|
  {
    if parts == [] then b else Replay(StreamStep(b, parts[0]), parts[1..])
  }

  /** The block state `setBlock` and `setMetadata` update. */
  class InvoiceBlock {
    var content: Text
    var isVisible: bool
    var status: string
    var tokenUsage: Option<Json>

    function View(): BlockView
      reads this
    {
      BlockView(content, isVisible, status, tokenUsage)
    }

    constructor (initial: BlockView)
      ensures View() == initial
    {
      content := initial.content;
      isVisible := initial.isVisible;
      status := initial.status;
      tokenUsage := initial.tokenUsage;
    }

    /**
      `onStreamPart`: an `invoice-data` part that parses replaces the content
      and shows the block; a non-array value with a truthy `tokenUsage` also
      replaces the metadata's. Reading `tokenUsage` of `null` throws after the
      block was updated, and the `catch` swallows it.
    */
    method OnStreamPart(part: Event)
      modifies this
      ensures View() == StreamStep(old(View()), part)
    {
      if part.InvoiceDataPart? {
        var invoiceData := Parse(part.data);
        if invoiceData.Some? {
          var v := invoiceData.value;
          content := Stringify(v);
          isVisible := true;
          status := "streaming";
          if !v.JArr? {
            var usage := GetProp(v, "tokenUsage");
            if usage.Ok? && IsTruthy(usage.value) {
              tokenUsage := usage.value;
            }
          }
        }
      }
    }
  }

  /**
    One step of the reducer: every part other than `invoice-data`, and every
    `invoice-data` part that does not parse, changes nothing; a part that
    parses replaces the content wholesale, shows the block and sets the
    status to 'streaming'; the metadata's usage changes only for a non-array
    value with a truthy `tokenUsage`, and then becomes exactly that value.
  */
  lemma StreamStepSpec(b: BlockView, part: Event)
    ensures !part.InvoiceDataPart? ==> StreamStep(b, part) == b
    ensures part.InvoiceDataPart? && Parse(part.data).None? ==> StreamStep(b, part) == b
    ensures part.InvoiceDataPart? && Parse(part.data).Some? ==>
            var v := Parse(part.data).value;
            var r := StreamStep(b, part);
            && Parse(r.content) == Some(v) && r.isVisible && r.status == "streaming"
            && (r.tokenUsage != b.tokenUsage ==> !v.JArr? && IsTruthy(Prop(v, "tokenUsage")) && r.tokenUsage == Prop(v, "tokenUsage"))
            && (!v.JArr? && IsTruthy(Prop(v, "tokenUsage")) ==> r.tokenUsage == Prop(v, "tokenUsage"))
  {
  }

  lemma {:induction false} ReplayAppend(b: BlockView, parts: seq<Event>, part: Event)
    ensures Replay(b, parts + [part]) == StreamStep(Replay(b, parts), part)
    decreases |parts|
  {
    if parts != [] {
      assert (parts + [part])[1..] == parts[1..] + [part];
      ReplayAppend(StreamStep(b, parts[0]), parts[1..], part);
    }
  }

  /** Parts other than `invoice-data` leave the block as it was. */
  lemma {:induction false} ReplayWithoutData(b: BlockView, parts: seq<Event>)
    requires forall i :: 0 <= i < |parts| ==> !parts[i].InvoiceDataPart?
    ensures Replay(b, parts) == b
    decreases |parts|
  {
    if parts != [] {
      ReplayWithoutData(b, parts[1..]);
    }
  }

  /**
    Replaying the six parts of a successful `processInvoice` run shows the
    streamed envelope, whose invoices read back as the aggregate, and puts
    the floored usage into the metadata.
  */
  lemma ReplaySuccessEvents(b: BlockView, id: string, all: seq<Json>, inputTokens: nat, outputTokens: nat)
    ensures var r := Replay(b, ProcessInvoice.SuccessEvents(id, all, inputTokens, outputTokens));
            && r.content == Stringify(Envelope(all, Some(UsageJson(DisplayUsage(inputTokens, outputTokens)))))
            && Normalise(Parse(r.content).value) == Ok(all)
            && r.isVisible && r.status == "streaming"
            && r.tokenUsage == Some(UsageJson(DisplayUsage(inputTokens, outputTokens)))
  {
    var usage := Some(UsageJson(DisplayUsage(inputTokens, outputTokens)));
    var payload := Stringify(Envelope(all, usage));
    var parts := ProcessInvoice.SuccessEvents(id, all, inputTokens, outputTokens);
    assert parts == [KindPart("invoice"), IdPart(id), TitlePart("All Invoices"), ClearPart] + [InvoiceDataPart(payload)] + [FinishPart];
    ReplayAppend(b, parts[..4], InvoiceDataPart(payload));
    ReplayAppend(b, parts[..5], FinishPart);
    assert parts[..5] == parts[..4] + [InvoiceDataPart(payload)];
    assert parts == parts[..5] + [FinishPart];
    ReplayWithoutData(b, parts[..4]);
    EnvelopeRoundTrip(all, usage);
  }

  /**
    Replaying what `onCreateDocument` wrote shows the created content and puts
    its exact, unfloored usage into the metadata.
  */
  lemma ReplayCreatedDocument(b: BlockView, response: Option<Json>, inputTokens: nat, outputTokens: nat)
    ensures var r := Replay(b, [InvoiceDataPart(Stringify(InvoiceServer.CreatedContent(response, inputTokens, outputTokens)))]);
            && r.content == Stringify(InvoiceServer.CreatedContent(response, inputTokens, outputTokens))
            && r.tokenUsage == Some(UsageJson(CalculateTokenUsage(inputTokens, outputTokens)))
  {
    var part := InvoiceDataPart(Stringify(InvoiceServer.CreatedContent(response, inputTokens, outputTokens)));
    assert Replay(b, [part]) == Replay(StreamStep(b, part), []);
  }

  lemma {:induction false} UpdateEventsParse(deltas: seq<InvoiceServer.Delta>)
    ensures forall e :: e in InvoiceServer.UpdateEvents(deltas) ==> e.InvoiceDataPart? && e.data.JsonText?
  {
    if deltas != [] {
      UpdateEventsParse(deltas[1..]);
    }
  }

  /**
    After the parts `onUpdateDocument` wrote, the client shows exactly the
    draft the server returned: the last object wins on both sides.
  */
  lemma ClientShowsServerDraft(b: BlockView, deltas: seq<InvoiceServer.Delta>)
    requires InvoiceServer.UpdateEvents(deltas) != []
    ensures Replay(b, InvoiceServer.UpdateEvents(deltas)).content == InvoiceServer.DraftAfter(deltas, EmptyText)
  {
    var parts := InvoiceServer.UpdateEvents(deltas);
    var n := |parts| - 1;
    InvoiceServer.DraftIsLastWritten(deltas, EmptyText);
    UpdateEventsParse(deltas);
    assert parts[n] in parts;
    assert parts == parts[..n] + [parts[n]];
    ReplayAppend(b, parts[..n], parts[n]);
  }

  // ---------------------------------------------------------------------
  // The token usage the table is given

  /** `tokenUsageFromContent`: the content's own truthy `tokenUsage`, or nothing (client.tsx:72-79). */
  function ContentTokenUsage(content: Text): (r: Option<Json>)
    ensures r.Some? ==> Truthy(r.value)
  {
    match Parse(content)
    case None => None
    case Some(v) =>
      match GetProp(v, "tokenUsage")
      case Err(_) => None
      case Ok(t) => if IsTruthy(t) then t else None
  }

  /** `tokenUsageFromContent || metadata?.tokenUsage` (client.tsx:88). */
  function TableTokenUsage(content: Text, metadataTokenUsage: Option<Json>): Option<Json> {
    if ContentTokenUsage(content).Some? then ContentTokenUsage(content) else metadataTokenUsage
  }

  /**
    The table is given the content's own usage whenever the content parses to
    a value with a truthy `tokenUsage`, and the metadata's otherwise.
  */
  lemma TableUsagePrefersContent(content: Text, metadataTokenUsage: Option<Json>)
    ensures Parse(content).Some? && IsTruthy(Prop(Parse(content).value, "tokenUsage"))
            ==> TableTokenUsage(content, metadataTokenUsage) == Prop(Parse(content).value, "tokenUsage")
    ensures !(Parse(content).Some? && IsTruthy(Prop(Parse(content).value, "tokenUsage")))
            ==> TableTokenUsage(content, metadataTokenUsage) == metadataTokenUsage
  {
  }

  /** After a successful run's parts, the content and the metadata name the same (floored) usage. */
  lemma TableUsageAfterSuccess(b: BlockView, id: string, all: seq<Json>, inputTokens: nat, outputTokens: nat)
    ensures var r := Replay(b, ProcessInvoice.SuccessEvents(id, all, inputTokens, outputTokens));
            TableTokenUsage(r.content, r.tokenUsage) == r.tokenUsage
            == Some(UsageJson(DisplayUsage(inputTokens, outputTokens)))
  {
    ReplaySuccessEvents(b, id, all, inputTokens, outputTokens);
  }

  // ---------------------------------------------------------------------
  // Download as CSV (client.tsx:124-157)

  const CsvHeader: string := "Vendor Name,Customer Name,Invoice Number,Invoice Date,Due Date,Amount\n"
  const InvalidJsonContent: string := "Invalid JSON content"

  /** How the download ends: the file's text, or the error the toast reports. */
  datatype CsvResult =
    | Downloaded(csv: string)
    | InvalidJson        // the `Error('Invalid JSON content')` thrown for content that does not parse
    | NullInvoice        // reading `vendorName` of a `null` entry throws a TypeError

  /** Five double-quoted fields and the unquoted amount, ended by a line break. */
  function CsvLine(inv: Json, num: real -> string): string {
    "\"" + ShowOpt(Prop(inv, "vendorName"), num) + "\",\""
    + ShowOpt(Prop(inv, "customerName"), num) + "\",\""
    + ShowOpt(Prop(inv, "invoiceNumber"), num) + "\",\""
    + ShowOpt(Prop(inv, "invoiceDate"), num) + "\",\""
    + ShowOpt(Prop(inv, "dueDate"), num) + "\","
    + ShowOpt(Prop(inv, "amount"), num) + "\n"
  }

  /** The `forEach` from the remaining invoices, with `csv` written so far. */
  function CsvFrom(invoices: seq<Json>, csv: string, num: real -> string): CsvResult
    decreases |invoices|
  {
    if invoices == [] then Downloaded(csv)
    else if invoices[0] == JNull then NullInvoice
    else CsvFrom(invoices[1..], csv + CsvLine(invoices[0], num), num)
  }

  /** What the download action produces for `content`. */
  function ExportCsv(content: Text, num: real -> string): CsvResult {
    match Parse(content)
    case None => InvalidJson
    case Some(v) =>
      match Normalise(v)
      case Err(_) => InvalidJson
      case Ok(invoices) => CsvFrom(invoices, CsvHeader, num)
  }

  /**
    The download action's string building. Reading `invoices` of `null`
    throws inside the inner `try`, so it reports 'Invalid JSON content' too.
  */
  method DownloadCsv(content: Text, num: real -> string) returns (r: CsvResult)
    ensures r == ExportCsv(content, num)
  {
    var parsedContent := Parse(content);
    if parsedContent.None? {
      return InvalidJson;
    }
    var invoicesProp := GetProp(parsedContent.value, "invoices");
    if invoicesProp.Err? {
      return InvalidJson;
    }
    var invoices := if IsTruthy(invoicesProp.value) then invoicesProp.value.value else parsedContent.value;
    var invoiceArray := AsList(invoices);
    assert Normalise(parsedContent.value) == Ok(invoiceArray);
    var csv := CsvHeader;
    for i := 0 to |invoiceArray|
      invariant CsvFrom(invoiceArray[i..], csv, num) == CsvFrom(invoiceArray, CsvHeader, num)
    {
      var invoice := invoiceArray[i];
      assert invoiceArray[i..][1..] == invoiceArray[i + 1..];
      if invoice == JNull {
        return NullInvoice;
      }
      csv := csv + CsvLine(invoice, num);
    }
    return Downloaded(csv);
  }

  /** The lines of the invoices, in order. */
  function CsvLines(invoices: seq<Json>, num: real -> string): string
    decreases |invoices|
  {
    if invoices == [] then "" else CsvLine(invoices[0], num) + CsvLines(invoices[1..], num)
  }

  lemma {:induction false} CsvFromLines(invoices: seq<Json>, csv: string, num: real -> string)
    requires JNull !in invoices
    ensures CsvFrom(invoices, csv, num) == Downloaded(csv + CsvLines(invoices, num))
    decreases |invoices|
  {
    if invoices == [] {
      assert csv + CsvLines(invoices, num) == csv;
    } else {
      var line := CsvLine(invoices[0], num);
      assert invoices == [invoices[0]] + invoices[1..];
      CsvFromLines(invoices[1..], csv + line, num);
      assert csv + line + CsvLines(invoices[1..], num) == csv + (line + CsvLines(invoices[1..], num));
    }
  }

  lemma {:induction false} CsvFromNull(invoices: seq<Json>, csv: string, num: real -> string)
    requires JNull in invoices
    ensures CsvFrom(invoices, csv, num) == NullInvoice
    decreases |invoices|
  {
    if invoices[0] != JNull {
      assert JNull in invoices[1..];
      CsvFromNull(invoices[1..], csv + CsvLine(invoices[0], num), num);
    }
  }

  /**
    The download succeeds exactly when the content parses to something that
    is not `null` and no normalised invoice is `null`; the file is then the
    header followed by one line per normalised invoice, in order.
  */
  lemma CsvIsHeaderAndLines(content: Text, num: real -> string)
    ensures ExportCsv(content, num).Downloaded?
            <==> Parse(content).Some? && Normalise(Parse(content).value).Ok?
                 && JNull !in Normalise(Parse(content).value).value
    ensures ExportCsv(content, num).Downloaded? ==>
            ExportCsv(content, num).csv == CsvHeader + CsvLines(Normalise(Parse(content).value).value, num)
    ensures Parse(content).None? || Parse(content).value == JNull ==> ExportCsv(content, num) == InvalidJson
  {
    if Parse(content).Some? && Normalise(Parse(content).value).Ok? {
      var invoices := Normalise(Parse(content).value).value;
      if JNull in invoices {
        CsvFromNull(invoices, CsvHeader, num);
      } else {
        CsvFromLines(invoices, CsvHeader, num);
      }
    }
  }

  /** The number of line breaks in a string. */
  function LineBreaks(s: string): nat {
    multiset(s)['\n']
  }

  /** The six properties a CSV line shows contain no line break of their own. */
  predicate PlainFields(inv: Json, num: real -> string) {
    && LineBreaks(ShowOpt(Prop(inv, "vendorName"), num)) == 0
    && LineBreaks(ShowOpt(Prop(inv, "customerName"), num)) == 0
    && LineBreaks(ShowOpt(Prop(inv, "invoiceNumber"), num)) == 0
    && LineBreaks(ShowOpt(Prop(inv, "invoiceDate"), num)) == 0
    && LineBreaks(ShowOpt(Prop(inv, "dueDate"), num)) == 0
    && LineBreaks(ShowOpt(Prop(inv, "amount"), num)) == 0
  }

  lemma CsvLineIsOneLine(inv: Json, num: real -> string)
    requires PlainFields(inv, num)
    ensures LineBreaks(CsvLine(inv, num)) == 1
  {
    var f1 := ShowOpt(Prop(inv, "vendorName"), num);
    var f2 := ShowOpt(Prop(inv, "customerName"), num);
    var f3 := ShowOpt(Prop(inv, "invoiceNumber"), num);
    var f4 := ShowOpt(Prop(inv, "invoiceDate"), num);
    var f5 := ShowOpt(Prop(inv, "dueDate"), num);
    var f6 := ShowOpt(Prop(inv, "amount"), num);
    PiecesAreOneLine(f1, f2, f3, f4, f5, f6);
  }

  lemma PiecesAreOneLine(f1: string, f2: string, f3: string, f4: string, f5: string, f6: string)
    requires LineBreaks(f1) == LineBreaks(f2) == LineBreaks(f3) == 0
    requires LineBreaks(f4) == LineBreaks(f5) == LineBreaks(f6) == 0
    ensures LineBreaks("\"" + f1 + "\",\"" + f2 + "\",\"" + f3 + "\",\"" + f4 + "\",\"" + f5 + "\"," + f6 + "\n") == 1
  {
    assert LineBreaks("\"") == 0 && LineBreaks("\",\"") == 0 && LineBreaks("\",") == 0 && LineBreaks("\n") == 1;
  }

  /**
    When no shown property holds a line break, the file has exactly one line
    break per normalised invoice after those of the header.
  */
  lemma CsvLineCount(content: Text, num: real -> string)
    requires ExportCsv(content, num).Downloaded?
    requires forall inv :: inv in Normalise(Parse(content).value).value ==> PlainFields(inv, num)
    ensures LineBreaks(ExportCsv(content, num).csv) == LineBreaks(CsvHeader) + |Normalise(Parse(content).value).value|
  {
    var invoices := Normalise(Parse(content).value).value;
    assert ExportCsv(content, num) == CsvFrom(invoices, CsvHeader, num);
    CsvFromCount(invoices, CsvHeader, num);
  }

  lemma {:induction false} CsvFromCount(invoices: seq<Json>, csv: string, num: real -> string)
    requires CsvFrom(invoices, csv, num).Downloaded?
    requires forall inv :: inv in invoices ==> PlainFields(inv, num)
    ensures LineBreaks(CsvFrom(invoices, csv, num).csv) == LineBreaks(csv) + |invoices|
    decreases |invoices|
  {
    if invoices != [] {
      assert invoices[0] in invoices;
      CsvLineIsOneLine(invoices[0], num);
      assert forall inv :: inv in invoices[1..] ==> inv in invoices;
      CsvFromCount(invoices[1..], csv + CsvLine(invoices[0], num), num);
    }
  }

  // ---------------------------------------------------------------------
  // Version navigation (client.tsx:92-112)

  /** 'View Previous version' is disabled on the first version. */
  predicate PreviousDisabled(currentVersionIndex: int) {
    currentVersionIndex == 0
  }

  /** 'View Next version' is disabled on the current (latest) version. */
  predicate NextDisabled(isCurrentVersion: bool) {
    isCurrentVersion
  }

  /**
    With `versions` saved versions and the latest one current, an enabled
    action always lands on an existing version, and each action is disabled
    only at its own end of the history.
  */
  lemma NavigationStaysInRange(versions: nat, currentVersionIndex: nat)
    requires currentVersionIndex < versions
    ensures !PreviousDisabled(currentVersionIndex) ==> 0 <= currentVersionIndex - 1 < versions
    ensures !NextDisabled(currentVersionIndex == versions - 1) ==> currentVersionIndex + 1 < versions
    ensures versions == 1 ==> PreviousDisabled(currentVersionIndex) && NextDisabled(currentVersionIndex == versions - 1)
  {
  }
}
