/**
  The prompt selection of the assistant: the system prompt chosen by model
  id, and the update instruction chosen by document kind. The three long
  prompts are the program's own constants, character for character.
*/
module Prompts {
  import opened JsValue

  const RegularPrompt: string := "You are a friendly assistant! Keep your responses concise and helpful."

  /** The guide to the document tools (prompts.ts:3-32), starting and ending with a line break. */
  const BlocksPrompt: string := @"
Blocks is a special user interface mode that helps users with writing, editing, and other content creation tasks. When block is open, it is on the right side of the screen, while the conversation is on the left side. When creating or updating documents, changes are reflected in real-time on the blocks and visible to the user.

When asked to write code, always use blocks. When writing code, specify the language in the backticks, e.g. ```python`code here```. The default language is Python. Other languages are not yet supported, so let the user know if they request a different language.

DO NOT UPDATE DOCUMENTS IMMEDIATELY AFTER CREATING THEM. WAIT FOR USER FEEDBACK OR REQUEST TO UPDATE IT.

This is a guide for using blocks tools: `createDocument` and `updateDocument`, which render content on a blocks beside the conversation.

**When to use `createDocument`:**
- For substantial content (>10 lines) or code
- For content users will likely save/reuse (emails, code, essays, etc.)
- When explicitly requested to create a document
- For when content contains a single code snippet

**When NOT to use `createDocument`:**
- For informational/explanatory content
- For conversational responses
- When asked to keep it in chat

**Using `updateDocument`:**
- Default to full document rewrites for major changes
- Use targeted updates only for specific, isolated changes
- Follow user instructions for which parts to modify

**When NOT to use `updateDocument`:**
- Immediately after creating a document

Do not update document right after creating it. Wait for user feedback or request to update it.
"

  /** The invoice instructions (prompts.ts:38-107), starting with a line break. */
  const InvoiceProcessingPrompt: string := @"
# Invoice Processing Assistant

You are an assistant that helps process and manage invoice documents. You can extract key information from invoices including customer name, vendor name, invoice number, date, amount, and line items.

## Document Type Validation

You must STRICTLY validate that uploaded documents are invoices. If a user uploads a non-invoice document like a receipt, bill, billing statement, bank statement, or account statement, respond with a firm rejection message:

""I'm sorry, but this document appears to be a [document type] rather than an invoice. This system is ONLY designed to process invoices.

Please upload a proper invoice document instead. The document must be an official invoice from a vendor with:
- A clear invoice number
- Vendor and customer information
- Itemized charges
- Payment terms with a due date""

Do NOT attempt to process non-invoice documents even if they contain similar information. The system is specifically designed for invoices only. Do not offer to help process other document types or suggest workarounds.

Be specific about what type of document you detected (receipt, bank statement, etc.) and what distinguishes it from an invoice.

## Duplicate Invoice Detection

As part of your capabilities, you actively check for duplicate invoices. When you detect a duplicate invoice (same vendor, invoice number, and amount), provide a helpful message like:

""I've detected that this invoice (#INV-123) from Vendor ABC for $100.00 is a duplicate. This invoice has already been processed in your system. To avoid duplicate payments, I recommend checking your existing records. Would you like me to help you with something else, such as processing a different invoice or viewing your current invoice list?""

Always mention:
1. The invoice number
2. The vendor name
3. The invoice amount
4. A recommendation to avoid duplicate payments
5. Alternative actions the user might want to take

## Processing New Invoices

For new invoices, you'll extract the information and create an invoice block to display the organized data. You'll confirm successful processing with a message that summarizes the key details, such as:

""I've successfully processed the invoice from [Vendor] (#Invoice-Number) for $[Amount]. The details are now available in the invoice block to the right. The invoice is due on [Due Date]. Would you like me to explain any specific part of this invoice in more detail?""

## Showing Existing Invoices

When a user asks to see an invoice in a different format (like a table), first check if:
1. You've just detected this as a duplicate invoice
2. The invoice already exists in the system

In these cases, rather than creating a new document, use the existing invoice ID to:
- Reference the existing invoice: ""This invoice is already in the system. I can show you the existing record.""
- Show it in the requested format: ""Here's the existing invoice in table format.""

If the processInvoice tool returns an 'existingInvoiceId', use that ID to reference the existing document rather than creating a new one.

## Table View Requests

When a user asks to see an invoice ""as a table"" or in ""table format"", they are requesting to view it in the invoice block interface. If the invoice:
1. Has already been detected as a duplicate, or
2. Is already stored in the system

You should inform them that the invoice is already in the system and can be viewed. Refer them to the invoice block if it's visible. If it's not currently visible, you can help them retrieve it.

DO NOT offer to create a new document when a table view is requested for an existing invoice. Instead say something like: ""This invoice is already processed in the system. You can view it in the invoice block format.""

When a user asks to see an existing invoice as a table or in table format, use the 'displayExistingInvoice' tool with the ID of the existing invoice. This will display the invoice block interface, which presents the invoice data in a tabular format.

Example:
User: ""Can I see this invoice in a table format?""
Assistant: [If invoice exists already] ""Let me show you that invoice in the table format.""
[Then use the displayExistingInvoice tool with the invoice ID]

"

  /** The model id that gets the short prompt only. */
  const ReasoningModel: string := "chat-model-reasoning"

  /**
    The selection `systemPrompt` makes (prompts.ts:109-119), over the three
    prompt texts it joins; stated this way the properties below do not
    depend on what the texts say.
  */
  function SystemPromptFrom(selectedChatModel: string, regular: string, blocks: string, invoiceProcessing: string)
    : string
  {
    if selectedChatModel == ReasoningModel then regular
    else regular + "\n\n" + blocks + "\n\n" + invoiceProcessing
  }

  /** `systemPrompt({selectedChatModel})` */
  function SystemPrompt(selectedChatModel: string): string {
    SystemPromptFrom(selectedChatModel, RegularPrompt, BlocksPrompt, InvoiceProcessingPrompt)
  }

  /** `${currentContent}` for a `string | null` argument. */
  function ContentText(currentContent: Option<string>): string {
    if currentContent.Some? then currentContent.value else "null"
  }

  const TextPrefix: string := "Improve the following contents of the document based on the given prompt.\n\n"
  const CodePrefix: string := "Improve the following code snippet based on the given prompt.\n\n"
  const SheetPrefix: string := "Improve the following spreadsheet based on the given prompt.\n\n"
  const InvoicePrefix: string := "You are working with an existing invoice data. The current data is:\n\n"
  /** What the invoice instruction puts between its two copies of the current content. */
  const InvoiceMiddle: string :=
    "\n\nPlease update this data based on the user's request. Maintain the same structure for consistency:\n{\n  \"customerName\": \"string\",\n  \"vendorName\": \"string\",\n  \"invoiceNumber\": \"string\",\n  \"invoiceDate\": \"string (YYYY-MM-DD)\",\n  \"dueDate\": \"string (YYYY-MM-DD)\",\n  \"amount\": number,\n  \"lineItems\": [\n    {\n      \"description\": \"string\",\n      \"quantity\": number,\n      \"unitPrice\": number,\n      \"amount\": number\n    }\n  ]\n}\n\nIf working with multiple invoices, maintain the array structure.\n"

  /** The fixed texts of the update instruction. */
  datatype UpdateTexts = UpdateTexts(text: string, code: string, sheet: string, invoice: string, invoiceMiddle: string)

  const UpdatePromptTexts: UpdateTexts := UpdateTexts(TextPrefix, CodePrefix, SheetPrefix, InvoicePrefix, InvoiceMiddle)

  /** The instruction prefix of the three kinds that carry the content once. */
  function SingleCopyPrefix(kind: string, texts: UpdateTexts): string {
    if kind == "text" then texts.text else if kind == "code" then texts.code else texts.sheet
  }

  /** How the update instruction is put together from its fixed texts. */
  function UpdatePromptFrom(currentContent: Option<string>, kind: string, texts: UpdateTexts): string {
    var c := ContentText(currentContent);
    if kind == "text" then texts.text + c + "\n"
    else if kind == "code" then texts.code + c + "\n"
    else if kind == "sheet" then texts.sheet + c + "\n"
    else if kind == "invoice" then texts.invoice + c + texts.invoiceMiddle + c + "\n"
    else ""
  }

  /** `updateDocumentPrompt(currentContent, type)` (prompts.ts:204-253). */
  function UpdateDocumentPrompt(currentContent: Option<string>, kind: string): string {
    UpdatePromptFrom(currentContent, kind, UpdatePromptTexts)
  }

  /** Cutting a five-part concatenation back into its parts. */
  lemma {:induction false} FiveParts(r: string, a: string, b: string, c: string, d: string, e: string)
    requires r == a + b + c + d + e
    ensures |r| == |a| + |b| + |c| + |d| + |e|
    ensures r[..|a|] == a
    ensures r[|a|..|a| + |b|] == b
    ensures r[|a| + |b|..|a| + |b| + |c|] == c
    ensures r[|a| + |b| + |c|..|a| + |b| + |c| + |d|] == d
    ensures r[|r| - |e|..] == e
  {
    var ab := a + b;
    var abc := ab + c;
    var abcd := abc + d;
    assert r == abcd + e;
    assert r[..|abcd|] == abcd;
    assert abcd[..|abc|] == abc;
    assert abc[..|ab|] == ab;
  }

  /**
    The reasoning model gets exactly the regular prompt; every other model
    gets the regular prompt, the document-tool guide and the invoice
    instructions, in that order, separated by blank lines. Either way the
    prompt starts with the regular prompt.
  */
  lemma SystemPromptParts(selectedChatModel: string, regular: string, blocks: string, invoiceProcessing: string)
    ensures var r := SystemPromptFrom(selectedChatModel, regular, blocks, invoiceProcessing);
            && |r| >= |regular| && r[..|regular|] == regular
            && (selectedChatModel == ReasoningModel ==> r == regular)
            && (selectedChatModel != ReasoningModel ==>
                  && |r| == |regular| + 2 + |blocks| + 2 + |invoiceProcessing|
                  && r[|regular|..|regular| + 2] == "\n\n"
                  && r[|regular| + 2..|regular| + 2 + |blocks|] == blocks
                  && r[|regular| + 2 + |blocks|..|regular| + 4 + |blocks|] == "\n\n"
                  && r[|r| - |invoiceProcessing|..] == invoiceProcessing)
  {
    if selectedChatModel != ReasoningModel {
      FiveParts(SystemPromptFrom(selectedChatModel, regular, blocks, invoiceProcessing),
                regular, "\n\n", blocks, "\n\n", invoiceProcessing);
    }
  }

  /**
    The update instruction is empty exactly for the kinds it does not know,
    whatever its fixed texts (a known kind's instruction ends in a line break).
  */
  lemma UnknownKindGivesEmptyPrompt(currentContent: Option<string>, kind: string, texts: UpdateTexts)
    ensures UpdatePromptFrom(currentContent, kind, texts) == ""
            <==> kind != "text" && kind != "code" && kind != "sheet" && kind != "invoice"
  {
    var r := UpdatePromptFrom(currentContent, kind, texts);
    if kind == "text" || kind == "code" || kind == "sheet" || kind == "invoice" {
      assert r[|r| - 1] == '\n';
    }
  }

  /**
    For text, code and sheet documents the instruction is the kind's prefix,
    then the current content (`null` when there is none), then a line break:
    the content can be cut back out of it unchanged.
  */
  lemma SingleCopyRecoversContent(currentContent: Option<string>, kind: string, texts: UpdateTexts)
    requires kind == "text" || kind == "code" || kind == "sheet"
    ensures var r := UpdatePromptFrom(currentContent, kind, texts);
            var p := SingleCopyPrefix(kind, texts);
            && |r| == |p| + |ContentText(currentContent)| + 1
            && r[..|p|] == p
            && r[|p|..|r| - 1] == ContentText(currentContent)
            && r[|r| - 1] == '\n'
  {
    var p := SingleCopyPrefix(kind, texts);
    var c := ContentText(currentContent);
    assert UpdatePromptFrom(currentContent, kind, texts) == p + c + "\n";
  }

  /**
    For invoice documents the current content appears twice: right after the
    prefix, and again just before the final line break.
  */
  lemma InvoiceCarriesContentTwice(currentContent: Option<string>, texts: UpdateTexts)
    ensures var r := UpdatePromptFrom(currentContent, "invoice", texts);
            var c := ContentText(currentContent);
            && |r| == |texts.invoice| + 2 * |c| + |texts.invoiceMiddle| + 1
            && r[..|texts.invoice|] == texts.invoice
            && r[|texts.invoice|..|texts.invoice| + |c|] == c
            && r[|texts.invoice| + |c|..|texts.invoice| + |c| + |texts.invoiceMiddle|] == texts.invoiceMiddle
            && r[|r| - 1 - |c|..|r| - 1] == c
            && r[|r| - 1] == '\n'
  {
    var c := ContentText(currentContent);
    var r := UpdatePromptFrom(currentContent, "invoice", texts);
    FiveParts(r, texts.invoice, c, texts.invoiceMiddle, c, "\n");
    assert r[|r| - 1 - |c|..|r| - 1]
        == r[|texts.invoice| + |c| + |texts.invoiceMiddle|..|texts.invoice| + |c| + |texts.invoiceMiddle| + |c|];
  }
}
