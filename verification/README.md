# Invoice assistant core, modelled in Dafny

This project models the invoice side of an AI chat assistant. A user uploads
an invoice. A language model extracts its fields as JSON. The assistant then
does four things:
- it checks the extraction against the invoices already stored, so a
  resubmission is reported as a duplicate;
- it stores a new invoice with its token usage and cost;
- it streams the whole collection of invoices to an "invoice block" in the
  browser;
- it lets the user sort, edit, delete and export that collection as CSV.

The model covers these parts:
- the shared rule for reading stored invoice content, which may be a single
  object, a bare array or an `{invoices, tokenUsage}` envelope;
- the duplicate scans over the document store;
- the two tool pipelines, `processInvoice` and `displayExistingInvoice`,
  with their exact stream events;
- the block's server handlers and client reducer;
- the table component's state and handlers;
- token and cost accounting;
- prompt selection.

JavaScript's own rules are written out where the code depends on them. The
model states truthiness, that reading a property of `null` throws, that `in`
on a primitive throws, and that `===` on two separately parsed objects is
false.

Files and modules:

- `js_value.dfy` (`JsValue`): JSON values, JavaScript truthiness, property
  access, spreading, `String()` and ASCII lowercasing.
- `normalise.dfy` (`InvoiceShapes`): the three stored shapes, the shared
  reading rule, the envelope and `documentId` back-filling.
- `accounting.dfy` (`Accounting`): `calculateTokenUsage` and the floored usage
  streamed with the collection.
- `queries.dfy` (`Queries`): `checkInvoiceDuplicate`,
  `getExistingInvoiceByDetails`, `getAllDocumentsByKind` and `updateDocument`.
- `streams.dfy` (`Streams`): the data stream as an append-only sequence of
  parts.
- `invoice_server.dfy` (`InvoiceServer`): the block's `onCreateDocument` and
  `onUpdateDocument`.
- `process_invoice.dfy` (`ProcessInvoice`): both tools, as a specification
  function per tool and an imperative method proved equal to it.
- `invoice_client.dfy` (`InvoiceClient`): `onStreamPart`, the table's
  token-usage source, the CSV download and the version-navigation rules.
- `invoice_table.dfy` (`InvoiceTable`): decoding, sorting, saving and
  deleting in the invoice table.
- `line_items.dfy` (`LineItems`): the line-item inputs of the table's editor,
  as written and corrected (see Findings).
- `prompts.dfy` (`Prompts`): `systemPrompt` and `updateDocumentPrompt`.

Stored and streamed strings are modelled by what `JSON.parse` makes of them:
`Text = EmptyText | JsonText(Json) | NotJson`. Serialising a value gives
`JsonText` of that value, so two texts that differ only in whitespace are the
same `Text`.

Inputs stand in for everything the code does not decide itself:
- the language model's reply and its token counts;
- the store before and after the write;
- the fresh id that `generateUUID` returns;
- number formatting, a parameter `num: real -> string`;
- whether a server action succeeds, a `serverSucceeded` argument.

## Model

| member | source | states |
|---|---|---|
| Accounting.CalculateTokenUsage | blocks/invoice/server.ts:7-20 | input and output are kept, total is their sum, and cost times 1e6 is 3·input + 15·output, never negative |
| Accounting.CostExamples | blocks/invoice/server.ts:7-20 | one million tokens each way cost exactly 18; zero tokens give the all-zero record |
| Accounting.DisplayUsage | lib/ai/tools/process-invoice.ts:206-212 | streamed counts are at least 1 and cost at least 0.0001; each is at least the unfloored value and equals it when already above the floor |
| Accounting.ZeroUsageIsFloored | lib/ai/tools/process-invoice.ts:206-212 | zero usage streams as (1, 1, 1, 0.0001) while the stored record stays (0, 0, 0, 0) |
| Accounting.DisplayUsageExact | lib/ai/tools/process-invoice.ts:206-212 | the streamed usage equals the stored one iff both counts are at least 1 and the cost is at least 0.0001 |
| Accounting.DisplayTotalAddsUp | lib/ai/tools/process-invoice.ts:206-212 | the streamed total is the sum of the streamed counts iff both real counts are non-zero |
| InvoiceShapes.Envelope | components/invoice-table.tsx:108-126 | the envelope's `invoices` is the given array and its `tokenUsage` the given value, absent when undefined |
| InvoiceShapes.EnvelopeKeys | components/invoice-table.tsx:108-126 | the envelope has no other property |
| InvoiceShapes.Backfill | lib/ai/tools/process-invoice.ts:179 | a truthy `documentId` is kept unchanged; a falsy one becomes the document's id; every other property is untouched |
| InvoiceShapes.BackfillIdempotent | lib/ai/tools/process-invoice.ts:292-298 | back-filling twice equals back-filling once |
| InvoiceShapes.NormaliseByShape | lib/db/queries.ts:351-359 | `null` throws; a bare array is kept; a truthy `invoices` wins, wrapped unless it is an array; any other value becomes a one-element list |
| InvoiceShapes.ThreeShapesAgree | lib/db/queries.ts:351-359 | one invoice stored alone, in a bare array or in an envelope reads back as the same one-element list |
| InvoiceShapes.EnvelopeRoundTrip | components/invoice-table.tsx:53-65 | reading an envelope back gives exactly the invoices written into it, whatever they are |
| Queries.AmountText | lib/db/queries.ts:341-371 | turning an amount into text fails exactly for `undefined` and `null`; strings are kept as they are |
| Queries.LowerName | lib/db/queries.ts:374 | `toLowerCase()` succeeds exactly on strings |
| Queries.ScanEntries | lib/db/queries.ts:362-382 | a found invoice is one of the document's entries |
| Queries.ScanEntriesStep | lib/db/queries.ts:362-387 | the inner loop either throws on an entry (the document is abandoned), returns it on a match, or goes on to the next |
| Queries.OfKind | lib/db/queries.ts:335-338 | the query keeps exactly the stored documents of the requested kind |
| Queries.FirstMatch | lib/db/queries.ts:421-478 | a hit carries a document id and an invoice; a miss is `exists: false` with nothing else |
| Queries.CheckInvoiceDuplicate | lib/db/queries.ts:324-396 | the nested loops return true iff some invoice document holds a matching invoice; a failed query or an amount that cannot be turned into text gives false |
| Queries.GetExistingInvoiceByDetails | lib/db/queries.ts:404-479 | the nested loops return the first match in scan order, equal to its specification function |
| Queries.MatchIff | lib/db/queries.ts:364-379 | an invoice matches iff its vendor name is a non-empty string equal to the candidate's after lowercasing, the invoice numbers are strictly equal, and the amounts are equal as text |
| Queries.MissingFieldNeverMatches | lib/db/queries.ts:364-366 | a falsy vendor name or invoice number, or an undefined amount, never matches |
| Queries.VendorCaseInsensitive | lib/db/queries.ts:374 | two candidate vendor names with the same lowercase form get the same verdict on every invoice |
| Queries.CaseInsensitiveExample | lib/db/queries.ts:369-379 | a stored "acme" invoice matches a candidate from "ACME" or "Acme" with the same number and amount |
| Queries.LowerExamples | lib/db/queries.ts:374 | "ACME", "Acme" and "acme" all lowercase to "acme" |
| Queries.FirstMatchIsFirst | lib/db/queries.ts:421-478 | a hit exists iff some document holds a match; the hit is the earliest such document, with the invoice found in it |
| Queries.DuplicateAgreesWithExisting | lib/db/queries.ts:324-396 | on the same store, `checkInvoiceDuplicate` is true iff `getExistingInvoiceByDetails` finds something |
| Queries.AbandonedDocumentIsSkipped | lib/db/queries.ts:383-387 | a document whose content fails to parse or read is skipped, and the scan gives the same answer as without it |
| Queries.InsertByDate | lib/db/queries.ts:483-491 | inserting adds exactly that document and removes none |
| Queries.InsertKeepsNewestFirst | lib/db/queries.ts:483-491 | inserting into a newest-first list keeps it newest-first |
| Queries.SortByDate | lib/db/queries.ts:483-491 | the order is newest `createdAt` first, and the result is a permutation of its input |
| Queries.DocumentsByKind | lib/db/queries.ts:481-492 | a failed query gives `[]`; the result is newest-first |
| Queries.DocumentsByKindSelects | lib/db/queries.ts:481-492 | the result holds only documents of the kind, each document of that kind, and as many times as stored |
| Queries.UpdateDocument | lib/db/queries.ts:503-535 | no write and `null` when neither title nor content is given; otherwise the store is unchanged except that the document with that id gets each given field |
| Streams.DataStream.constructor | lib/ai/tools/process-invoice.ts:187-214 | a new stream holds no parts |
| Streams.DataStream.WriteData | lib/ai/tools/process-invoice.ts:187-214 | `writeData` appends exactly one part |
| InvoiceServer.CreatedContent | blocks/invoice/server.ts:53-62 | the content always has the computed `tokenUsage`, which overrides the model's; every other property of an object reply is kept |
| InvoiceServer.OnCreateDocument | blocks/invoice/server.ts:25-92 | exactly one `invoice-data` part is written, and its content is the returned draft |
| InvoiceServer.UnparseableReplyKeepsOnlyUsage | blocks/invoice/server.ts:53-62 | an unparseable reply gives content with `tokenUsage` only, which carries no `error` key |
| InvoiceServer.ArrayReplySpreadByIndex | blocks/invoice/server.ts:59-62 | spreading an array reply turns each element into a property named by its index |
| InvoiceServer.OnUpdateDocument | blocks/invoice/server.ts:94-141 | one `invoice-data` part per delta carrying an object, in arrival order; the draft is the one its specification function gives |
| InvoiceServer.DraftIsLastWritten | blocks/invoice/server.ts:123-140 | the returned draft is the last part written, or the initial `''` when none was written |
| ProcessInvoice.ProcessInvoice | lib/ai/tools/process-invoice.ts:49-232 | the tool returns the outcome and appends exactly the parts that the run's specification function gives |
| ProcessInvoice.PersistNewInvoice | lib/ai/tools/process-invoice.ts:126-228 | stamping, persisting and streaming a new invoice give exactly the outcome and parts of the persist branch |
| ProcessInvoice.CollectForProcessing | lib/ai/tools/process-invoice.ts:172-185 | the `push` loop builds exactly the processing aggregate |
| ProcessInvoice.RejectionIsVerbatim | lib/ai/tools/process-invoice.ts:79-87 | a reply with an `error` key gives 'Invalid Invoice' with the error text verbatim and `isError`; its id is the existing block id, else a fresh one; there is no duplicate check and no part |
| ProcessInvoice.UnparseableReplyIsProcessingError | lib/ai/tools/process-invoice.ts:116-124 | an unparseable or primitive reply gives the fixed 'Invoice Processing Error' result and no part |
| ProcessInvoice.FirstMatchIdIsStored | lib/db/queries.ts:421-478 | the id of a hit is the id of a stored document |
| ProcessInvoice.OfKindIdsStored | lib/db/queries.ts:335-338 | an id among the documents of a kind is an id in the store |
| ProcessInvoice.DuplicateNamesStoredDocument | lib/ai/tools/process-invoice.ts:95-115 | a duplicate gives 'Duplicate Invoice' and `isDuplicate`, with no part; when the lookup found a document, `id` and `existingInvoiceId` are that stored document's id, otherwise `id` falls back and `existingInvoiceId` is undefined |
| ProcessInvoice.EventsOnlyOnSuccess | lib/ai/tools/process-invoice.ts:187-228 | parts are written iff the run succeeds; they are then exactly kind, id, title 'All Invoices', clear, invoice-data and finish, and the result is 'All Invoices' with the stamped invoice |
| ProcessInvoice.NewInvoiceStamped | lib/ai/tools/process-invoice.ts:126-137 | the new invoice's `documentId` is the fresh id, its `tokenUsage` is the unfloored computed usage, and every other property is the extraction's |
| ProcessInvoice.StreamedAggregate | lib/ai/tools/process-invoice.ts:204-215 | the streamed envelope reads back as exactly the aggregate, with floored usage; it equals the stored usage iff no floor applied |
| ProcessInvoice.ProcessingIntoKeepsNoErrors | lib/ai/tools/process-invoice.ts:175-184 | one loop step adds no entry with an `error` key |
| ProcessInvoice.ProcessingPushesKeepNoErrors | lib/ai/tools/process-invoice.ts:172-185 | the loop adds no entry with an `error` key |
| ProcessInvoice.ProcessingAggregateHasNoErrors | lib/ai/tools/process-invoice.ts:172-185 | no entry of the processing aggregate has an `error` key |
| ProcessInvoice.ProcessingPushesBound | lib/ai/tools/process-invoice.ts:172-185 | the loop only appends, at most one entry per document |
| ProcessInvoice.ProcessingAggregateBound | lib/ai/tools/process-invoice.ts:172-185 | the aggregate has at most one entry per document |
| ProcessInvoice.ProcessingKeepsEnvelopeWhole | lib/ai/tools/process-invoice.ts:174-185 | the processing path does not unwrap: a stored envelope becomes one entry, the back-filled envelope itself |
| ProcessInvoice.ResubmissionIsDuplicate | lib/ai/tools/process-invoice.ts:89-93 | once the block has stored an invoice, submitting the same vendor, number and amount again is a duplicate |
| ProcessInvoice.CreatedContentMatches | lib/db/queries.ts:344-382 | the scan of a document written by `onCreateDocument` finds the stored invoice |
| ProcessInvoice.StoredMatchIsDuplicate | lib/db/queries.ts:324-396 | one matching invoice document makes the candidate a duplicate |
| ProcessInvoice.FindById | lib/ai/tools/process-invoice.ts:253-259 | a found document has the requested id; none is found only when no document has it |
| ProcessInvoice.CollectForDisplay | lib/ai/tools/process-invoice.ts:282-304 | the display loops build exactly the display aggregate |
| ProcessInvoice.DisplayExistingInvoice | lib/ai/tools/process-invoice.ts:242-354 | the tool returns the result and appends exactly the parts that its specification function gives |
| ProcessInvoice.DisplayEventsByOutcome | lib/ai/tools/process-invoice.ts:244-349 | an error writes no part, and no part means an error; a display writes five parts, kind first and finish last, with no clear; an empty store is the 'no invoices' error |
| ProcessInvoice.DisplayOneEvents | lib/ai/tools/process-invoice.ts:252-280 | for one requested document, it is an error iff no part is written; otherwise five parts without clear |
| ProcessInvoice.DisplayAllEvents | lib/ai/tools/process-invoice.ts:281-350 | for the whole collection, it is an error iff no part is written; otherwise five parts without clear |
| ProcessInvoice.DisplayOneIsRawContent | lib/ai/tools/process-invoice.ts:252-280 | a displayed document is a stored invoice document with that id and non-empty content, streamed as it is |
| ProcessInvoice.DisplayAllRoundTrip | lib/ai/tools/process-invoice.ts:306-349 | the streamed envelope reads back as exactly the non-empty display aggregate, with all-zero usage |
| ProcessInvoice.PushIntoKeepsNoErrors | lib/ai/tools/process-invoice.ts:290-295 | unwrapping adds no entry with an `error` key |
| ProcessInvoice.DisplayIntoKeepsNoErrors | lib/ai/tools/process-invoice.ts:285-303 | one display step adds no entry with an `error` key |
| ProcessInvoice.DisplayPushesKeepNoErrors | lib/ai/tools/process-invoice.ts:282-304 | the display loop adds no entry with an `error` key |
| ProcessInvoice.DisplayAggregateHasNoErrors | lib/ai/tools/process-invoice.ts:282-304 | no entry of the display aggregate has an `error` key |
| ProcessInvoice.DisplayUnwrapsEnvelope | lib/ai/tools/process-invoice.ts:285-303 | the display path unwraps an envelope into all its invoices, where the processing path keeps one entry |
| ProcessInvoice.DisplayIntoUnwraps | lib/ai/tools/process-invoice.ts:288-295 | a truthy `invoices` property is what the display step iterates over |
| ProcessInvoice.PushAllObjects | lib/ai/tools/process-invoice.ts:290-295 | objects without `error` are each pushed once |
| ProcessInvoice.SinglesAgree | lib/ai/tools/process-invoice.ts:174-185 | for a single-object document, both paths agree |
| InvoiceClient.InvoiceBlock.constructor | blocks/invoice/client.tsx:25-47 | the block starts in the given state |
| InvoiceClient.InvoiceBlock.OnStreamPart | blocks/invoice/client.tsx:25-47 | handling a part changes the block and metadata to exactly the reducer's result |
| InvoiceClient.StreamStepSpec | blocks/invoice/client.tsx:25-47 | non-data parts and unparseable parts change nothing; a parsed part replaces the content with that value and makes the block visible and streaming; metadata usage changes only to a truthy `tokenUsage` of a non-array value, and always does then |
| InvoiceClient.ReplayAppend | blocks/invoice/client.tsx:25-47 | replaying parts one more at a time is one more reducer step |
| InvoiceClient.ReplayWithoutData | blocks/invoice/client.tsx:26 | parts without invoice data leave the block as it was |
| InvoiceClient.ReplaySuccessEvents | lib/ai/tools/process-invoice.ts:187-214 | after the processing tool's parts, the block shows exactly the aggregate, visible and streaming, with the floored usage |
| InvoiceClient.ReplayCreatedDocument | blocks/invoice/server.ts:66-71 | after `onCreateDocument`'s part, the block shows its content and the unfloored usage |
| InvoiceClient.UpdateEventsParse | blocks/invoice/server.ts:123-140 | every part `onUpdateDocument` writes is invoice data that parses |
| InvoiceClient.ClientShowsServerDraft | blocks/invoice/server.ts:123-140 | after an update stream, the client's content is the server's final draft |
| InvoiceClient.ContentTokenUsage | blocks/invoice/client.tsx:72-79 | usage taken from the content is always truthy |
| InvoiceClient.TableUsagePrefersContent | blocks/invoice/client.tsx:72-88 | the table gets the content's own usage when it is truthy, and the metadata's otherwise |
| InvoiceClient.TableUsageAfterSuccess | blocks/invoice/client.tsx:72-88 | after the processing parts, content and metadata agree on the floored usage |
| InvoiceClient.DownloadCsv | blocks/invoice/client.tsx:124-157 | the `forEach` loop builds exactly the CSV of the export's specification |
| InvoiceClient.CsvFromLines | blocks/invoice/client.tsx:142-144 | without a `null` entry the CSV is the start text followed by one line per invoice |
| InvoiceClient.CsvFromNull | blocks/invoice/client.tsx:142-144 | a `null` entry makes the loop throw |
| InvoiceClient.CsvIsHeaderAndLines | blocks/invoice/client.tsx:124-157 | a CSV is produced iff the content parses, normalises and has no `null` entry; it is the header followed by one line per invoice; non-JSON or `null` content is 'Invalid JSON content' |
| InvoiceClient.CsvLineIsOneLine | blocks/invoice/client.tsx:143 | an invoice whose fields have no line breaks gives exactly one line |
| InvoiceClient.CsvLineCount | blocks/invoice/client.tsx:140-144 | the CSV has the header's line breaks plus one per invoice |
| InvoiceClient.CsvFromCount | blocks/invoice/client.tsx:142-144 | the loop adds one line break per invoice |
| InvoiceClient.NavigationStaysInRange | blocks/invoice/client.tsx:99-111 | 'previous' is disabled iff at index 0 and 'next' iff at the current version, so an enabled step stays among the versions; a single version disables both |
| InvoiceTable.TableDecodeAgrees | components/invoice-table.tsx:53-65 | the table reads content by the shared rule where that rule succeeds, and gives `[]` for non-JSON and `null` |
| InvoiceTable.NextSort | components/invoice-table.tsx:95-102 | the chosen column becomes the sort column; the same column flips direction, another starts ascending |
| InvoiceTable.SortTogglesBack | components/invoice-table.tsx:95-102 | choosing the current column twice restores the sort; a new column goes ascending, then descending |
| InvoiceTable.InsertBy | components/invoice-table.tsx:77-93 | inserting keeps the order and adds exactly that invoice |
| InvoiceTable.SortBy | components/invoice-table.tsx:77-93 | the result is ordered by the key in the chosen direction and is a permutation of its input |
| InvoiceTable.SortedInvoicesByAmount | components/invoice-table.tsx:77-82 | sorting by amount gives a permutation of the same length, non-decreasing when ascending and non-increasing when descending by the coerced amount; two amounts that coerce to numbers are in the order of those numbers |
| InvoiceTable.AmountCoercion | components/invoice-table.tsx:79-82 | `a.amount - b.amount` coerces: `true` ranks as 1, `false` and `null` as 0, numeric text as its number, and a missing amount is `NaN`, ranked as 0 |
| InvoiceTable.FallbackUsage | components/invoice-table.tsx:113-120 | the fallback usage is never absent |
| InvoiceTable.PrepareContentRoundTrip | components/invoice-table.tsx:108-126 | saved content always reads back as exactly the saved invoices; its usage is the current content's when the content parses, and the prop or zeros otherwise |
| InvoiceTable.ReplaceMatching | components/invoice-table.tsx:144-146 | for an id compared by value: each entry of the edited document becomes the edited invoice; every other entry keeps its position and value |
| InvoiceTable.ReplaceMatchingSpec | components/invoice-table.tsx:144-146 | replacing is idempotent and keeps which entries belong to the document |
| InvoiceTable.RemoveMatchingAppend | components/invoice-table.tsx:178-180 | filtering commutes with concatenation, so the survivors keep their relative order |
| InvoiceTable.RemoveMatchingSpec | components/invoice-table.tsx:178-180 | exactly the entries of other documents survive; filtering again changes nothing |
| InvoiceTable.RemoveMatchingShrinks | components/invoice-table.tsx:178-180 | when some entry is of the document, the filtered list is shorter |
| InvoiceTable.RemoveById | components/invoice-table.tsx:178-180 | the Delete button's filter always drops at least one entry |
| InvoiceTable.SaveReplacesOwnEntry | components/invoice-table.tsx:144-146 | the edited invoice takes the place of the entry the editor was opened on, whatever its id (object ids match by reference); entries of other documents are untouched; an object or array id changes only that entry; saving again changes nothing |
| InvoiceTable.DeleteRemovesOwnEntry | components/invoice-table.tsx:178-180 | the Delete button removes its own entry: the list shrinks, survivors were there; an object or array id removes exactly that entry, any other id exactly the entries equal to it |
| InvoiceTable.InvoiceTableState.constructor | components/invoice-table.tsx:69-75 | the table starts with the decoded content, sorted by invoice date descending, not editing, with no calls made; the state is valid |
| InvoiceTable.InvoiceTableState.HandleSort | components/invoice-table.tsx:95-102 | only the sort state changes, to the next sort |
| JsValue.SpreadKeepsNamedProp | components/invoice-table.tsx:104-106 | a spread copy `{...v}` has the same value as `v` under every name that is not an index, so the editor's copy keeps the id |
| InvoiceTable.InvoiceTableState.StartEditing | components/invoice-table.tsx:104-106 | the editor gets a copy of the row's entry with the same properties and the same id, and remembers the entry; nothing else changes |
| InvoiceTable.InvoiceTableState.EditField | components/invoice-table.tsx:225-305 | one header input sets one property of the edited copy; the others, the id among them, are kept |
| InvoiceTable.InvoiceTableState.CancelEdits | components/invoice-table.tsx:161-163 | the editor closes; nothing else changes |
| InvoiceTable.InvoiceTableState.SaveEdits | components/invoice-table.tsx:128-159 | without a truthy `documentId` nothing changes and no call is made; otherwise one update call, and only on success is the edited entry (with any entry of an equal primitive id) replaced, the envelope saved and the editor closed |
| InvoiceTable.InvoiceTableState.HandleDelete | components/invoice-table.tsx:165-192 | without a truthy `documentId` nothing changes and no call is made; otherwise one delete call, and only on success is the row's entry (with any entry of an equal primitive id) removed, the list shorter, and the envelope saved |
| InvoiceTable.SavedEditReloads | components/invoice-table.tsx:144-151 | the content saved after an edit reads back as the table's list, of unchanged length |
| LineItems.LineItem.constructor | components/invoice-table.tsx:7-12 | a line item holds the given description, quantity, unit price and amount |
| LineItems.SetDescriptionAsWritten | components/invoice-table.tsx:331-336 | as written: the description is assigned on the object shared with the table |
| LineItems.SetQuantityAsWritten | components/invoice-table.tsx:346-353 | as written: the quantity and amount = quantity × unit price are assigned on the shared object |
| LineItems.SetUnitPriceAsWritten | components/invoice-table.tsx:363-370 | as written: the unit price and amount = quantity × unit price are assigned on the shared object |
| LineItems.CancelledEditLeaks | components/invoice-table.tsx:346-353 | an edit of quantity from 5 to 7 at price 2, then cancelled, leaves the table's item at quantity 7, amount 14 |
| LineItems.SetDescription | components/invoice-table.tsx:331-336 | corrected: same number of lines, other lines the same objects, the edited line new with the new description and its old amount |
| LineItems.SetQuantity | components/invoice-table.tsx:346-353 | corrected: same number of lines, other lines the same objects, the edited line new with amount = quantity × unit price |
| LineItems.SetUnitPrice | components/invoice-table.tsx:363-370 | corrected: same number of lines, other lines the same objects, the edited line new with amount = quantity × unit price |
| LineItems.CancelledEditKeepsTable | components/invoice-table.tsx:161-163 | with the corrected input, the same cancelled edit leaves the table's item at quantity 5, amount 10 |
| Prompts.SystemPromptParts | lib/ai/prompts.ts:109-119 | the reasoning model gets exactly the regular prompt; any other model gets regular, blocks and invoice prompts, in that order, joined by blank lines |
| Prompts.UnknownKindGivesEmptyPrompt | lib/ai/prompts.ts:204-253 | the update instruction is empty iff the kind is none of text, code, sheet and invoice |
| Prompts.SingleCopyRecoversContent | lib/ai/prompts.ts:209-231 | for text, code and sheet: the prefix, then the content (`null` when missing), then a line break |
| Prompts.InvoiceCarriesContentTwice | lib/ai/prompts.ts:232-251 | for invoices: the prefix, the content, the fixed middle, the content again, then a line break |

## Left out

- The language model calls and their callbacks are not modelled. The reply text and token counts are inputs. The provider configuration file `lib/ai/models.ts` is not part of this model.
- `JSON.parse` and `JSON.stringify` are abstracted to `Text`: whitespace and key order in serialised text are not modelled.
- Number-to-text conversion (`toString`, template literals, `toFixed`) is the parameter `num`.
- `toLowerCase` is modelled on ASCII letters only. Unicode case mapping is not modelled.
- The database layer is a given sequence of documents. `None` stands for a query that threw. The chat, message, vote and suggestion queries are not modelled.
- `generateUUID` is the input `freshId`. Each path draws at most one id.
- JSX rendering, toasts, console logging, the clipboard and the Blob/anchor download mechanics are not modelled. The `hasError` banner is left out for the same reason.
- InvoiceTable.SortKey: the `invoiceDate` and `vendorName` comparators (`Date` parsing and `localeCompare`) are modelled as given rank functions, not as the browser's comparison. Two of their behaviours are therefore not captured: `a.vendorName.localeCompare(...)` throws a TypeError when an entry has no string `vendorName`, which makes sorting by vendor crash the render; and `new Date(undefined).getTime()` is `NaN`, which makes the date comparator inconsistent and the engine's order implementation-defined.
- InvoiceTable.AmountKey: an amount that coerces to `NaN` ranks as 0. With `NaN` in the list the comparator is inconsistent and the engine's order is implementation-defined; the model's order is one consistent choice. Text-to-number conversion is the parameter `toNumber`.
- The stability of `Array.prototype.sort` on ties is not stated.
- Floating point is not modelled. Costs and line amounts use exact `real` arithmetic, so bit-level agreement with IEEE doubles is not claimed.
- Concurrency is not modelled. This includes the check-then-persist race between simultaneous requests and the ordering across `await` points. Each run is sequential.
- InvoiceTable.SameDocument: `===` on object or array ids is modelled as false, because separately parsed values are never the same reference. The handlers instead take the position of the entry they act on (`ReplaceById`, `RemoveById`), so such an id matches that entry, whose id object the editor's copy shares, and no other.
- InvoiceTable.InvoiceTableState: a button is given the position of its row's entry in `invoiceData` (the sorted list holds the same entries), not the position in the sorted table.
- Entries that are `null` make the table's render throw before any handler runs. The handlers' model reads their `documentId` as undefined.
- InvoiceServer.OnCreateDocument: the fallback branch for an unserialisable reply cannot be reached, because a parsed value always serialises.
- InvoiceClient.CsvIsHeaderAndLines: the text of the `TypeError` that a `null` entry raises while the CSV is built is not modelled. Only the failure is.
- Prompts.SystemPromptParts, Prompts.UnknownKindGivesEmptyPrompt, Prompts.SingleCopyRecoversContent and Prompts.InvoiceCarriesContentTwice are stated over the assembling functions for any fixed texts. `SystemPrompt` and `UpdateDocumentPrompt` are these functions applied to the literal prompts.
- Queries.DocumentsByKind: documents with equal `createdAt` come back in an order the database chooses. The model fixes one, which decides the id streamed by a resubmission and the order of the aggregate on ties.
- Streams: the `kind`, `id`, `title`, `clear` and `finish` parts go to the app's generic stream handler, which is not part of this model. The block state modelled is the invoice block's own reducer (`InvoiceClient`).
- JsValue.Lookup: objects are taken to have one property per name, as `JSON.parse` builds them from text without repeated keys. On repeated keys `Lookup` takes the first, while `JSON.parse` keeps the last.
- The table's line-item inputs edit typed line-item objects (module `LineItems`). In `InvoiceTable`, an invoice is a JSON value, and the editor's header inputs are `EditField`. `InvoiceTableState` has no line-item input, so its `CancelEdits` says nothing about the shared line items shown under Findings.

## Findings

| source | as written | input that shows it | evidently intended | confidence | as-written member | corrected member |
|---|---|---|---|---|---|---|
| components/invoice-table.tsx:345-353 | `startEditing` makes a shallow copy, and `[...lineItems]` copies only the array, so the line-item handlers assign to objects the table's `invoiceData` still holds (also lines 331-336 and 363-370) | an invoice holds a line of quantity 5 at 2 each; open its editor, set the quantity to 7, then press Cancel; the table's `invoiceData` now holds quantity 7, amount 14 (the table's rows show no line items; the next Edit shows it, and the next save or delete persists it through `prepareContentForSave`) | an edit changes only the editor's copy until it is saved | not executed | LineItems.CancelledEditLeaks | LineItems.CancelledEditKeepsTable |
