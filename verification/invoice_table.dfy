/**
  The invoice table component: how it decodes the block's content, how it
  sorts, and the state its handlers update (the list of invoices, the sort
  order, the invoice being edited), together with the server actions they
  call and the content they save back.
*/
module InvoiceTable {
  import opened JsValue
  import opened InvoiceShapes
  import opened Accounting

  /**
    `parsedInvoiceData` (invoice-table.tsx:53-65): the shared reading rule,
    with `[]` for content that does not parse and for `null`, whose
    `invoices` read throws inside the `try`.
  */
  function TableDecode(content: Text): seq<Json> {
    match Parse(content)
    case None => []
    case Some(v) =>
      match Normalise(v)
      case Err(_) => []
      case Ok(invoices) => invoices
  }

  /**
    The table reads content exactly as the shared rule does wherever that
    rule succeeds, and falls back to the empty list exactly where it fails.
  */
  lemma TableDecodeAgrees(content: Text)
    ensures Parse(content).Some? && Parse(content).value != JNull
            ==> Normalise(Parse(content).value) == Ok(TableDecode(content))
    ensures Parse(content).None? || Parse(content).value == JNull ==> TableDecode(content) == []
  {
  }

  // ---------------------------------------------------------------------
  // Sorting (invoice-table.tsx:73-102)

  datatype SortField = InvoiceDate | Amount | VendorName
  datatype Direction = Asc | Desc
  datatype SortState = SortState(field: SortField, direction: Direction)

  /** The initial sort: newest invoice date first. */
  const InitialSort: SortState := SortState(InvoiceDate, Desc)

  /** `handleSort(field)`: the current field flips direction, another field starts ascending. */
  function NextSort(s: SortState, field: SortField): (r: SortState)
    ensures r.field == field
    ensures field == s.field ==> r.direction != s.direction
    ensures field != s.field ==> r.direction == Asc
  {
    if s.field == field then SortState(field, if s.direction == Asc then Desc else Asc)
    else SortState(field, Asc)
  }

  /**
    Choosing the same column twice: the current column comes back to where
    it was; a new column goes ascending, then descending.
  */
  lemma SortTogglesBack(s: SortState, field: SortField)
    ensures field == s.field ==> NextSort(NextSort(s, field), field) == s
    ensures field != s.field ==> NextSort(NextSort(s, field), field) == SortState(field, Desc)
  {
  }

  /**
    `ToNumber` of an invoice's amount, as `a.amount - b.amount` applies it;
    `None` is `NaN`. Text goes through `toNumber` (which also decides what
    `''` and blank text give); an array is converted through its `String()`
    form; an object and `undefined` give `NaN`.
  */
  function AmountNumber(inv: Json, num: real -> string, toNumber: string -> Option<real>): Option<real> {
    match Prop(inv, "amount")
    case None => None
    case Some(JNull) => Some(0.0)
    case Some(JBool(b)) => Some(if b then 1.0 else 0.0)
    case Some(JNum(n)) => Some(n)
    case Some(JStr(text)) => toNumber(text)
    case Some(JArr(items)) => toNumber(Show(JArr(items), num))
    case Some(JObj(_)) => None
  }

  /**
    The rank the amount column sorts by: the coerced amount, with `NaN`
    ranked as 0 (a comparator that returns `NaN` counts the pair as equal).
  */
  function AmountKey(inv: Json, num: real -> string, toNumber: string -> Option<real>): real {
    AmountNumber(inv, num, toNumber).GetOr(0.0)
  }

  /**
    The key each column sorts by. The date column's `Date` parsing and the
    vendor column's `localeCompare` are not modelled: they are the ranks
    `dateKey` and `vendorRank`.
  */
  function SortKey(field: SortField, dateKey: Json -> real, vendorRank: Json -> real, num: real -> string,
                   toNumber: string -> Option<real>): Json -> real {
    match field
    case Amount => inv => AmountKey(inv, num, toNumber)
    case InvoiceDate => dateKey
    case VendorName => vendorRank
  }

  predicate InOrder(a: real, b: real, direction: Direction) {
    if direction == Asc then a <= b else a >= b
  }

  predicate SortedBy(s: seq<Json>, key: Json -> real, direction: Direction) {
    forall i, j :: 0 <= i < j < |s| ==> InOrder(key(s[i]), key(s[j]), direction)
  }

  /** Insert `x` before the first entry it may precede. */
  function InsertBy(x: Json, s: seq<Json>, key: Json -> real, direction: Direction): (r: seq<Json>)
    requires SortedBy(s, key, direction)
    ensures SortedBy(r, key, direction)
    ensures multiset(r) == multiset(s) + multiset{x}
  {
    if s == [] then [x]
    else if InOrder(key(x), key(s[0]), direction) then [x] + s
    else
      var rest := InsertBy(x, s[1..], key, direction);
      assert s == [s[0]] + s[1..];
      assert forall j :: 0 <= j < |rest| ==> InOrder(key(s[0]), key(rest[j]), direction) by {
        forall j | 0 <= j < |rest| ensures InOrder(key(s[0]), key(rest[j]), direction) {
          assert rest[j] in multiset(rest);
          if rest[j] != x {
            assert rest[j] in multiset(s[1..]);
            var k :| 0 <= k < |s[1..]| && s[1..][k] == rest[j];
            assert s[k + 1] == rest[j];
          }
        }
      }
      [s[0]] + rest
  }

  /** A stable insertion sort by `key`. */
  function SortBy(s: seq<Json>, key: Json -> real, direction: Direction): (r: seq<Json>)
    ensures SortedBy(r, key, direction)
    ensures multiset(r) == multiset(s)
  {
    if s == [] then []
    else
      assert s == [s[0]] + s[1..];
      InsertBy(s[0], SortBy(s[1..], key, direction), key, direction)
  }

  /** `sortedInvoices` (invoice-table.tsx:77-93): a sorted copy; the list it was made from is a value and stays as it was. */
  function SortedInvoices(invoiceData: seq<Json>, sort: SortState, dateKey: Json -> real, vendorRank: Json -> real,
                          num: real -> string, toNumber: string -> Option<real>): seq<Json>
  {
    SortBy(invoiceData, SortKey(sort.field, dateKey, vendorRank, num, toNumber), sort.direction)
  }

  /**
    The sorted list holds the same invoices as many times each; by amount it
    is non-decreasing when ascending and non-increasing when descending, and
    in particular any two amounts that coerce to numbers (numeric text,
    booleans, `null`) appear in the order of those numbers.
  */
  lemma SortedInvoicesByAmount(invoiceData: seq<Json>, direction: Direction, dateKey: Json -> real,
                               vendorRank: Json -> real, num: real -> string, toNumber: string -> Option<real>)
    ensures var r := SortedInvoices(invoiceData, SortState(Amount, direction), dateKey, vendorRank, num, toNumber);
            && multiset(r) == multiset(invoiceData)
            && |r| == |invoiceData|
            && (direction == Asc ==>
                  forall i, j :: 0 <= i < j < |r| ==> AmountKey(r[i], num, toNumber) <= AmountKey(r[j], num, toNumber))
            && (direction == Desc ==>
                  forall i, j :: 0 <= i < j < |r| ==> AmountKey(r[i], num, toNumber) >= AmountKey(r[j], num, toNumber))
    ensures var r := SortedInvoices(invoiceData, SortState(Amount, direction), dateKey, vendorRank, num, toNumber);
            forall i, j :: 0 <= i < j < |r| && AmountNumber(r[i], num, toNumber).Some?
                           && AmountNumber(r[j], num, toNumber).Some? ==>
              InOrder(AmountNumber(r[i], num, toNumber).value, AmountNumber(r[j], num, toNumber).value, direction)
  {
    var key := SortKey(Amount, dateKey, vendorRank, num, toNumber);
    var r := SortBy(invoiceData, key, direction);
    assert forall x :: key(x) == AmountKey(x, num, toNumber);
    assert |r| == |multiset(r)| == |multiset(invoiceData)| == |invoiceData|;
  }

  /**
    How amounts are coerced for sorting: numeric text ranks by its number,
    `true` as 1, `false` and `null` as 0, and a missing amount ranks as 0
    because it is `NaN`.
  */
  lemma AmountCoercion(inv: Json, num: real -> string, toNumber: string -> Option<real>)
    requires inv.JObj?
    ensures Prop(inv, "amount") == Some(JBool(true)) ==> AmountKey(inv, num, toNumber) == 1.0
    ensures Prop(inv, "amount") == Some(JBool(false)) || Prop(inv, "amount") == Some(JNull)
            ==> AmountNumber(inv, num, toNumber) == Some(0.0)
    ensures forall text :: Prop(inv, "amount") == Some(JStr(text)) && toNumber(text).Some?
                           ==> AmountKey(inv, num, toNumber) == toNumber(text).value
    ensures Prop(inv, "amount").None? ==> AmountNumber(inv, num, toNumber).None? && AmountKey(inv, num, toNumber) == 0.0
  {
  }

  // ---------------------------------------------------------------------
  // Saving (invoice-table.tsx:108-192)

  /** `tokenUsage || {input: 0, output: 0, total: 0, estimated_cost: 0}` */
  function FallbackUsage(tokenUsage: Option<Json>): (r: Option<Json>)
    ensures r.Some?
  {
    if IsTruthy(tokenUsage) then tokenUsage else Some(UsageJson(ZeroUsage))
  }

  /**
    `prepareContentForSave` (invoice-table.tsx:108-126): the envelope of the
    given invoices, keeping the current content's `tokenUsage` when the
    content parses to something other than `null`, and the fallback otherwise.
  */
  function PrepareContentForSave(content: Text, tokenUsage: Option<Json>, invoices: seq<Json>): Text {
    var keep :=
      match Parse(content)
      case None => FallbackUsage(tokenUsage)
      case Some(v) =>
        match GetProp(v, "tokenUsage")
        case Err(_) => FallbackUsage(tokenUsage)
        case Ok(t) => t;
    Stringify(Envelope(invoices, keep))
  }

  /**
    What is saved reads back, through the table's own decoding, as exactly
    the invoices that were saved; its `tokenUsage` is the content's own when
    the content parses (possibly absent), and otherwise the prop or zeros,
    never absent.
  */
  lemma PrepareContentRoundTrip(content: Text, tokenUsage: Option<Json>, invoices: seq<Json>)
    ensures TableDecode(PrepareContentForSave(content, tokenUsage, invoices)) == invoices
    ensures var saved := Parse(PrepareContentForSave(content, tokenUsage, invoices)).value;
            && Prop(saved, "invoices") == Some(JArr(invoices))
            && (Parse(content).Some? && Parse(content).value != JNull
                ==> Prop(saved, "tokenUsage") == Prop(Parse(content).value, "tokenUsage"))
            && (Parse(content).None? || Parse(content).value == JNull
                ==> Prop(saved, "tokenUsage") == FallbackUsage(tokenUsage))
  {
    var keep := if Parse(content).Some? && Parse(content).value != JNull then Prop(Parse(content).value, "tokenUsage")
                else FallbackUsage(tokenUsage);
    assert PrepareContentForSave(content, tokenUsage, invoices) == Stringify(Envelope(invoices, keep));
    EnvelopeRoundTrip(invoices, keep);
  }

  /** `inv.documentId === invoice.documentId` */
  predicate SameDocument(inv: Json, invoice: Json) {
    StrictEquals(Prop(inv, "documentId"), Prop(invoice, "documentId"))
  }

  /** An id that `===` compares by reference: an object or an array. */
  predicate IsReference(id: Option<Json>) {
    id.Some? && (id.value.JObj? || id.value.JArr?)
  }

  /** The `map` of `saveEdits` (invoice-table.tsx:144-146) where `===` compares ids by value. */
  function ReplaceMatching(invoices: seq<Json>, updated: Json): (r: seq<Json>)
    ensures |r| == |invoices|
    ensures forall i :: 0 <= i < |r| ==> r[i] == if SameDocument(invoices[i], updated) then updated else invoices[i]
  {
    seq(|invoices|, i requires 0 <= i < |invoices| => if SameDocument(invoices[i], updated) then updated else invoices[i])
  }

  /** The `filter` of `handleDelete` (invoice-table.tsx:178-180) where `===` compares ids by value. */
  function RemoveMatching(invoices: seq<Json>, invoice: Json): seq<Json>
    decreases |invoices|
  {
    if invoices == [] then []
    else (if SameDocument(invoices[0], invoice) then [] else [invoices[0]]) + RemoveMatching(invoices[1..], invoice)
  }

  /**
    Replacing is idempotent, and afterwards every entry of that document is
    the edited invoice; entries of other documents are untouched.
  */
  lemma ReplaceMatchingSpec(invoices: seq<Json>, updated: Json)
    requires SameDocument(updated, updated)
    ensures ReplaceMatching(ReplaceMatching(invoices, updated), updated) == ReplaceMatching(invoices, updated)
    ensures forall i :: 0 <= i < |invoices| ==>
              (SameDocument(ReplaceMatching(invoices, updated)[i], updated) <==> SameDocument(invoices[i], updated))
  {
  }

  lemma {:induction false} RemoveMatchingAppend(xs: seq<Json>, ys: seq<Json>, invoice: Json)
    ensures RemoveMatching(xs + ys, invoice) == RemoveMatching(xs, invoice) + RemoveMatching(ys, invoice)
    decreases |xs|
  {
    if xs == [] {
      assert xs + ys == ys;
    } else {
      assert (xs + ys)[1..] == xs[1..] + ys;
      RemoveMatchingAppend(xs[1..], ys, invoice);
      var head := if SameDocument(xs[0], invoice) then [] else [xs[0]];
      assert head + (RemoveMatching(xs[1..], invoice) + RemoveMatching(ys, invoice))
             == head + RemoveMatching(xs[1..], invoice) + RemoveMatching(ys, invoice);
    }
  }

  /**
    Deleting keeps exactly the entries of other documents: every kept entry
    was there and is of another document, every entry of another document is
    kept, and removing commutes with splitting the list, so the survivors
    keep their relative order.
  */
  lemma {:induction false} RemoveMatchingSpec(invoices: seq<Json>, invoice: Json)
    ensures forall v :: v in RemoveMatching(invoices, invoice) <==> v in invoices && !SameDocument(v, invoice)
    ensures |RemoveMatching(invoices, invoice)| <= |invoices|
    ensures RemoveMatching(RemoveMatching(invoices, invoice), invoice) == RemoveMatching(invoices, invoice)
    decreases |invoices|
  {
    if invoices != [] {
      RemoveMatchingSpec(invoices[1..], invoice);
      assert invoices == [invoices[0]] + invoices[1..];
      var head := if SameDocument(invoices[0], invoice) then [] else [invoices[0]];
      RemoveMatchingAppend(head, RemoveMatching(invoices[1..], invoice), invoice);
      assert RemoveMatching(head, invoice) == head by {
        if head != [] {
          assert head[1..] == [];
        }
      }
    }
  }

  /** When some entry is of the document, removing it shortens the list. */
  lemma {:induction false} RemoveMatchingShrinks(invoices: seq<Json>, invoice: Json, i: nat)
    requires i < |invoices| && SameDocument(invoices[i], invoice)
    ensures |RemoveMatching(invoices, invoice)| < |invoices|
    decreases i
  {
    if i == 0 {
      RemoveMatchingSpec(invoices[1..], invoice);
    } else {
      RemoveMatchingShrinks(invoices[1..], invoice, i - 1);
    }
  }

  /**
    The `map` of `saveEdits` for an edit opened on the entry at `origin`.
    The editor's copy shares that entry's id, so an object or array id is
    `===` to that entry's id and, in parsed data, to no other entry's;
    any other id matches every entry with an equal id.
  */
  function ReplaceById(invoices: seq<Json>, updated: Json, origin: nat): (r: seq<Json>)
    requires origin < |invoices|
    ensures |r| == |invoices|
  {
    if IsReference(Prop(invoices[origin], "documentId")) then invoices[origin := updated]
    else ReplaceMatching(invoices, updated)
  }

  /** The `filter` of `handleDelete` for the Delete button of the entry at `origin`. */
  function RemoveById(invoices: seq<Json>, origin: nat): (r: seq<Json>)
    requires origin < |invoices|
    ensures |r| < |invoices|
  {
    var invoice := invoices[origin];
    if IsReference(Prop(invoice, "documentId")) then invoices[..origin] + invoices[origin + 1..]
    else
      RemoveMatchingShrinks(invoices, invoice, origin);
      RemoveMatching(invoices, invoice)
  }

  /**
    Saving an edit of the entry at `origin`, whose id the edited copy still
    carries, puts the edited invoice at that position whatever the id is;
    an entry of another document is untouched; with an object or array id
    nothing else changes; and saving the same edit again changes nothing.
  */
  lemma SaveReplacesOwnEntry(invoices: seq<Json>, updated: Json, origin: nat)
    requires origin < |invoices|
    requires Prop(updated, "documentId") == Prop(invoices[origin], "documentId")
    ensures ReplaceById(invoices, updated, origin)[origin] == updated
    ensures forall i :: 0 <= i < |invoices| && !SameDocument(invoices[i], updated) && i != origin ==>
              ReplaceById(invoices, updated, origin)[i] == invoices[i]
    ensures IsReference(Prop(updated, "documentId")) ==>
              ReplaceById(invoices, updated, origin) == invoices[origin := updated]
    ensures ReplaceById(ReplaceById(invoices, updated, origin), updated, origin) == ReplaceById(invoices, updated, origin)
  {
    var r := ReplaceById(invoices, updated, origin);
    if !IsReference(Prop(invoices[origin], "documentId")) {
      assert SameDocument(updated, updated);
      assert SameDocument(invoices[origin], updated);
      ReplaceMatchingSpec(invoices, updated);
      assert Prop(r[origin], "documentId") == Prop(invoices[origin], "documentId");
    }
  }

  /**
    The Delete button removes the entry it belongs to: the list gets
    shorter and every survivor was there before; with an object or array
    id exactly that entry goes, and otherwise every entry of its document
    goes and every entry of another document stays.
  */
  lemma DeleteRemovesOwnEntry(invoices: seq<Json>, origin: nat)
    requires origin < |invoices|
    ensures |RemoveById(invoices, origin)| < |invoices|
    ensures forall v :: v in RemoveById(invoices, origin) ==> v in invoices
    ensures IsReference(Prop(invoices[origin], "documentId")) ==>
              && multiset(RemoveById(invoices, origin)) + multiset{invoices[origin]} == multiset(invoices)
              && RemoveById(invoices, origin) == invoices[..origin] + invoices[origin + 1..]
    ensures !IsReference(Prop(invoices[origin], "documentId")) ==>
              forall v :: v in RemoveById(invoices, origin) <==> v in invoices && !SameDocument(v, invoices[origin])
  {
    var invoice := invoices[origin];
    if IsReference(Prop(invoice, "documentId")) {
      assert invoices == invoices[..origin] + [invoice] + invoices[origin + 1..];
      forall v | v in RemoveById(invoices, origin) ensures v in invoices {
        assert v in invoices[..origin] || v in invoices[origin + 1..];
      }
    } else {
      RemoveMatchingSpec(invoices, invoice);
    }
  }

  /** A call the table makes to the server. */
  datatype ServerCall =
    | UpdateCall(documentId: Json, invoice: Text)   // `updateInvoiceDirectly(documentId, JSON.stringify(invoice))`
    | DeleteCall(documentId: Json)                  // `deleteInvoiceDirectly(documentId)`

  /**
    The editor's header inputs (invoice-table.tsx:225-305). The line-item
    inputs assign to objects the table still holds; they are `LineItems`.
  */
  const EditorKeys: set<string> :=
    {"customerName", "vendorName", "invoiceNumber", "amount", "invoiceDate", "dueDate"}

  /**
    The table's state. `content` and `tokenUsage` are the props it was
    rendered with; `saved` is every `saveContent` call, in order, and
    `serverCalls` every server action, in order. A server action's answer
    is the handler's `serverSucceeded` argument. `editing` is the entry of
    `invoiceData` the editor was opened on, whose id object the editor's
    shallow copy shares. A row of the sorted table is one of the entries of
    `invoiceData`, so its buttons are given that entry's position.
  */
  class InvoiceTableState {
    const content: Text
    const tokenUsage: Option<Json>
    var invoiceData: seq<Json>
    var sort: SortState
    var editableInvoice: Option<Json>
    var editing: nat
    var serverCalls: seq<ServerCall>
    var saved: seq<Text>

    /** An open editor belongs to an entry of the list and carries that entry's id. */
    predicate Valid()
      reads this
    {
      editableInvoice.Some? ==>
        editing < |invoiceData| && Prop(editableInvoice.value, "documentId") == Prop(invoiceData[editing], "documentId")
    }

    /** First render, after the effect copies the decoded content into `invoiceData`. */
    constructor (content: Text, tokenUsage: Option<Json>)
      ensures Valid()
      ensures this.content == content && this.tokenUsage == tokenUsage
      ensures invoiceData == TableDecode(content)
      ensures sort == InitialSort && editableInvoice == None
      ensures serverCalls == [] && saved == []
    {
      this.content := content;
      this.tokenUsage := tokenUsage;
      invoiceData := TableDecode(content);
      sort := InitialSort;
      editableInvoice := None;
      editing := 0;
      serverCalls := [];
      saved := [];
    }

    /** `handleSort(field)` */
    method HandleSort(field: SortField)
      requires Valid()
      modifies this
      ensures Valid()
      ensures sort == NextSort(old(sort), field)
      ensures invoiceData == old(invoiceData) && editableInvoice == old(editableInvoice) && editing == old(editing)
      ensures serverCalls == old(serverCalls) && saved == old(saved)
    {
      if sort.field == field {
        sort := sort.(direction := if sort.direction == Asc then Desc else Asc);
      } else {
        sort := SortState(field, Asc);
      }
    }

    /** `startEditing(invoice)` on the entry at `row`: the editor gets a shallow copy, `{...invoice}`. */
    method StartEditing(row: nat)
      requires row < |invoiceData|
      modifies this
      ensures invoiceData == old(invoiceData) && sort == old(sort)
      ensures Valid()
      ensures editableInvoice == Some(JObj(SpreadFields(Some(invoiceData[row])))) && editing == row
      ensures invoiceData[row].JObj? ==> forall k :: Prop(editableInvoice.value, k) == Prop(invoiceData[row], k)
      ensures serverCalls == old(serverCalls) && saved == old(saved)
    {
      editableInvoice := Some(JObj(SpreadFields(Some(invoiceData[row]))));
      editing := row;
      SpreadKeepsNamedProp(invoiceData[row], "documentId");
    }

    /** One of the editor's header inputs: `setEditableInvoice({...editableInvoice, [key]: value})`. */
    method EditField(key: string, value: Json)
      requires Valid() && editableInvoice.Some? && editableInvoice.value.JObj?
      requires key in EditorKeys
      modifies this
      ensures Valid()
      ensures editableInvoice == Some(SetProp(old(editableInvoice.value), key, value))
      ensures Prop(editableInvoice.value, key) == Some(value)
      ensures forall k :: k != key ==> Prop(editableInvoice.value, k) == Prop(old(editableInvoice.value), k)
      ensures invoiceData == old(invoiceData) && sort == old(sort) && editing == old(editing)
      ensures serverCalls == old(serverCalls) && saved == old(saved)
    {
      editableInvoice := Some(SetProp(editableInvoice.value, key, value));
    }

    /** `cancelEdits()` */
    method CancelEdits()
      modifies this
      ensures Valid()
      ensures editableInvoice == None
      ensures invoiceData == old(invoiceData) && sort == old(sort)
      ensures serverCalls == old(serverCalls) && saved == old(saved)
    {
      editableInvoice := None;
    }

    /**
      `saveEdits(editableInvoice)`: without a truthy `documentId` nothing
      happens; otherwise the server is asked to store the invoice and, only
      when it reports success, the edited entry and every entry whose id
      equals it by value are replaced, the envelope is saved and the editor
      closes.
    */
    method SaveEdits(serverSucceeded: bool)
      requires Valid() && editableInvoice.Some?
      modifies this
      ensures Valid()
      ensures !IsTruthy(Prop(old(editableInvoice.value), "documentId")) ==>
                && invoiceData == old(invoiceData) && editableInvoice == old(editableInvoice)
                && serverCalls == old(serverCalls) && saved == old(saved)
      ensures IsTruthy(Prop(old(editableInvoice.value), "documentId")) ==>
                serverCalls == old(serverCalls) + [UpdateCall(Prop(old(editableInvoice.value), "documentId").value,
                                                              Stringify(old(editableInvoice.value)))]
      ensures IsTruthy(Prop(old(editableInvoice.value), "documentId")) && !serverSucceeded ==>
                && invoiceData == old(invoiceData) && editableInvoice == old(editableInvoice) && saved == old(saved)
      ensures IsTruthy(Prop(old(editableInvoice.value), "documentId")) && serverSucceeded ==>
                && invoiceData == ReplaceById(old(invoiceData), old(editableInvoice.value), old(editing))
                && invoiceData[old(editing)] == old(editableInvoice.value)
                && saved == old(saved) + [PrepareContentForSave(content, tokenUsage, invoiceData)]
                && editableInvoice == None
      ensures sort == old(sort)
    {
      var updatedInvoice := editableInvoice.value;
      var documentId := Prop(updatedInvoice, "documentId");
      if !IsTruthy(documentId) {
        return;
      }
      serverCalls := serverCalls + [UpdateCall(documentId.value, Stringify(updatedInvoice))];
      if !serverSucceeded {
        return;
      }
      SaveReplacesOwnEntry(invoiceData, updatedInvoice, editing);
      var updatedInvoices := ReplaceById(invoiceData, updatedInvoice, editing);
      invoiceData := updatedInvoices;
      saved := saved + [PrepareContentForSave(content, tokenUsage, updatedInvoices)];
      editableInvoice := None;
    }

    /**
      `handleDelete(invoice)` on the entry at `row` (the Delete buttons
      exist only while the editor is closed, invoice-table.tsx:214): without
      a truthy `documentId` nothing happens; otherwise the server is asked to
      delete the document and, only when it reports success, the entry is
      dropped with every entry whose id equals it by value, and the envelope
      is saved.
    */
    method HandleDelete(row: nat, serverSucceeded: bool)
      requires row < |invoiceData| && editableInvoice.None?
      modifies this
      ensures Valid()
      ensures !IsTruthy(Prop(old(invoiceData[row]), "documentId")) ==>
                && invoiceData == old(invoiceData) && serverCalls == old(serverCalls) && saved == old(saved)
      ensures IsTruthy(Prop(old(invoiceData[row]), "documentId")) ==>
                serverCalls == old(serverCalls) + [DeleteCall(Prop(old(invoiceData[row]), "documentId").value)]
      ensures IsTruthy(Prop(old(invoiceData[row]), "documentId")) && !serverSucceeded ==>
                invoiceData == old(invoiceData) && saved == old(saved)
      ensures IsTruthy(Prop(old(invoiceData[row]), "documentId")) && serverSucceeded ==>
                && invoiceData == RemoveById(old(invoiceData), row)
                && |invoiceData| < |old(invoiceData)|
                && saved == old(saved) + [PrepareContentForSave(content, tokenUsage, invoiceData)]
      ensures sort == old(sort) && editableInvoice == old(editableInvoice)
    {
      var documentId := Prop(invoiceData[row], "documentId");
      if !IsTruthy(documentId) {
        return;
      }
      serverCalls := serverCalls + [DeleteCall(documentId.value)];
      if !serverSucceeded {
        return;
      }
      var updatedInvoices := RemoveById(invoiceData, row);
      invoiceData := updatedInvoices;
      saved := saved + [PrepareContentForSave(content, tokenUsage, updatedInvoices)];
    }
  }

  /**
    After a successful edit, reloading the saved content gives the table the
    list it shows: editing and saving does not lose or reorder invoices.
  */
  lemma SavedEditReloads(content: Text, tokenUsage: Option<Json>, invoiceData: seq<Json>, updated: Json, origin: nat)
    requires origin < |invoiceData|
    ensures TableDecode(PrepareContentForSave(content, tokenUsage, ReplaceById(invoiceData, updated, origin)))
            == ReplaceById(invoiceData, updated, origin)
    ensures |TableDecode(PrepareContentForSave(content, tokenUsage, ReplaceById(invoiceData, updated, origin)))|
            == |invoiceData|
  {
    PrepareContentRoundTrip(content, tokenUsage, ReplaceById(invoiceData, updated, origin));
  }
}
