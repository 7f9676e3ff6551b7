/**
  The document-store queries the invoice pipeline relies on: the two
  duplicate scans, the kind filter with newest-first order, and the partial
  update. The store is a sequence of documents in storage order; `None`
  stands for a query that threw.
*/
module Queries {
  import opened JsValue
  import opened InvoiceShapes

  datatype Doc = Doc(id: string, kind: string, title: string, content: Text, createdAt: int)

  /** The fields the pipeline passes in; each may be `undefined`. */
  datatype Candidate = Candidate(vendorName: Option<Json>, invoiceNumber: Option<Json>, amount: Option<Json>)

  /** The candidate after its amount has been turned into text (queries.ts:341). */
  datatype Key = Key(vendorName: Option<Json>, invoiceNumber: Option<Json>, amountText: string)

  /** What the scan of one document (or of a list of invoices) ends with. */
  datatype Outcome = Found(invoice: Json) | NotFound | Abandoned

  /** The `{exists, id?, invoice?}` (`exists` is `found` here) answer of `getExistingInvoiceByDetails`. */
  datatype Existing = Existing(found: bool, id: Option<string>, invoice: Option<Json>)

  const NotExisting: Existing := Existing(false, None, None)

  /**
    `typeof a === 'string' ? a : a.toString()`: calling `toString` on
    `undefined` or `null` throws.
  */
  function AmountText(amount: Option<Json>, num: real -> string): (r: Result<string>)
    ensures r.Err? <==> amount.None? || amount == Some(JNull)
    ensures amount.Some? && amount.value.JStr? ==> r == Ok(amount.value.s)
  {
    if amount.None? || amount.value == JNull then Err(TypeError) else Ok(Show(amount.value, num))
  }

  /** `v.toLowerCase()`: only strings have it; anything else throws. */
  function LowerName(v: Option<Json>): (r: Result<string>)
    ensures r.Ok? <==> v.Some? && v.value.JStr?
  {
    if v.Some? && v.value.JStr? then Ok(Lower(v.value.s)) else Err(TypeError)
  }

  /**
    One stored invoice against the key (queries.ts:364-379): `Ok(false)` when
    it is skipped for a missing field or differs, `Ok(true)` on a match, and
    `Err` when evaluating the comparison throws.
  */
  function EntryVerdict(inv: Json, key: Key, num: real -> string): Result<bool> {
    if inv == JNull then Err(TypeError)
    else
      var vendor := Prop(inv, "vendorName");
      var number := Prop(inv, "invoiceNumber");
      var amount := Prop(inv, "amount");
      if !IsTruthy(vendor) || !IsTruthy(number) || amount.None? then Ok(false)
      else
        var invoiceAmount := AmountText(amount, num);
        var storedVendor := LowerName(vendor);
        var candidateVendor := LowerName(key.vendorName);
        if invoiceAmount.Err? || storedVendor.Err? || candidateVendor.Err? then Err(TypeError)
        else Ok(&& storedVendor.value == candidateVendor.value
                && StrictEquals(number, key.invoiceNumber)
                && invoiceAmount.value == key.amountText)
  }

  /** The inner loop: the first matching invoice, unless an earlier one throws. */
  function ScanEntries(entries: seq<Json>, key: Key, num: real -> string): (r: Outcome)
    ensures r.Found? ==> r.invoice in entries
  {
    if entries == [] then NotFound
    else match EntryVerdict(entries[0], key, num)
      case Err(_) => Abandoned
      case Ok(true) => Found(entries[0])
      case Ok(false) => ScanEntries(entries[1..], key, num)
  }

  /** One document: empty content is skipped, a parse or read error abandons it. */
  function ScanDoc(d: Doc, key: Key, num: real -> string): Outcome {
    if d.content == EmptyText then NotFound
    else match Parse(d.content)
      case None => Abandoned
      case Some(v) =>
        match Normalise(v)
        case Err(_) => Abandoned
        case Ok(entries) => ScanEntries(entries, key, num)
  }

  /** The query `kind = 'invoice'`, in storage order. */
  function OfKind(docs: seq<Doc>, kind: string): (r: seq<Doc>)
    ensures forall d :: d in r ==> d in docs && d.kind == kind
    ensures forall d :: d in docs && d.kind == kind ==> d in r
    ensures |r| <= |docs|
  {
    if docs == [] then []
    else (if docs[0].kind == kind then [docs[0]] else []) + OfKind(docs[1..], kind)
  }

  /** The first document (in the given order) that holds a match, with that match. */
  function FirstMatch(docs: seq<Doc>, key: Key, num: real -> string): (r: Existing)
    ensures r.found ==> r.id.Some? && r.invoice.Some?
    ensures !r.found ==> r == NotExisting
  {
    if docs == [] then NotExisting
    else match ScanDoc(docs[0], key, num)
      case Found(inv) => Existing(true, Some(docs[0].id), Some(inv))
      case _ => FirstMatch(docs[1..], key, num)
  }

  function KeyOf(c: Candidate, amountText: string): Key {
    Key(c.vendorName, c.invoiceNumber, amountText)
  }

  /**
    What `checkInvoiceDuplicate` answers: some invoice document holds a
    match. A failed query or an amount that cannot be turned into text
    answers false.
  */
  predicate IsDuplicate(store: Option<seq<Doc>>, c: Candidate, num: real -> string) {
    && store.Some?
    && AmountText(c.amount, num).Ok?
    && var docs := OfKind(store.value, "invoice");
       exists i :: 0 <= i < |docs| && ScanDoc(docs[i], KeyOf(c, AmountText(c.amount, num).value), num).Found?
  }

  /** What `getExistingInvoiceByDetails` answers. */
  function ExistingByDetails(store: Option<seq<Doc>>, c: Candidate, num: real -> string): Existing {
    if store.None? then NotExisting
    else match AmountText(c.amount, num)
      case Err(_) => NotExisting
      case Ok(a) => FirstMatch(OfKind(store.value, "invoice"), KeyOf(c, a), num)
  }

  lemma ScanEntriesStep(entries: seq<Json>, j: nat, key: Key, num: real -> string)
    requires j < |entries|
    ensures ScanEntries(entries[j..], key, num)
            == match EntryVerdict(entries[j], key, num)
               case Err(_) => Abandoned
               case Ok(true) => Found(entries[j])
               case Ok(false) => ScanEntries(entries[j + 1..], key, num)
  {
    assert entries[j..][1..] == entries[j + 1..];
  }

  /** `checkInvoiceDuplicate` (queries.ts:324-396). */
  method CheckInvoiceDuplicate(store: Option<seq<Doc>>, c: Candidate, num: real -> string)
    returns (duplicate: bool)
    ensures duplicate <==> IsDuplicate(store, c, num)
  {
    if store.None? {
      return false;
    }
    var invoiceDocs := OfKind(store.value, "invoice");
    var normalizedAmount := AmountText(c.amount, num);
    if normalizedAmount.Err? {
      return false;
    }
    var key := KeyOf(c, normalizedAmount.value);
    for i := 0 to |invoiceDocs|
      invariant forall k :: 0 <= k < i ==> !ScanDoc(invoiceDocs[k], key, num).Found?
    {
      var doc := invoiceDocs[i];
      if doc.content == EmptyText {
        continue;
      }
      var content := Parse(doc.content);
      if content.None? {
        continue;
      }
      var invoices := Normalise(content.value);
      if invoices.Err? {
        continue;
      }
      var entries := invoices.value;
      assert ScanDoc(doc, key, num) == ScanEntries(entries, key, num);
      var j := 0;
      while j < |entries|
        invariant 0 <= j <= |entries|
        invariant ScanEntries(entries, key, num) == ScanEntries(entries[j..], key, num)
      {
        var verdict := EntryVerdict(entries[j], key, num);
        ScanEntriesStep(entries, j, key, num);
        if verdict.Err? {
          break;
        }
        if verdict.value {
          return true;
        }
        j := j + 1;
      }
      assert !ScanDoc(doc, key, num).Found?;
    }
    return false;
  }

  /** `getExistingInvoiceByDetails` (queries.ts:404-479). */
  method GetExistingInvoiceByDetails(store: Option<seq<Doc>>, c: Candidate, num: real -> string)
    returns (r: Existing)
    ensures r == ExistingByDetails(store, c, num)
  {
    if store.None? {
      return NotExisting;
    }
    var invoiceDocs := OfKind(store.value, "invoice");
    var normalizedAmount := AmountText(c.amount, num);
    if normalizedAmount.Err? {
      return NotExisting;
    }
    var key := KeyOf(c, normalizedAmount.value);
    for i := 0 to |invoiceDocs|
      invariant FirstMatch(invoiceDocs, key, num) == FirstMatch(invoiceDocs[i..], key, num)
    {
      var doc := invoiceDocs[i];
      assert invoiceDocs[i..][1..] == invoiceDocs[i + 1..];
      if doc.content == EmptyText {
        continue;
      }
      var content := Parse(doc.content);
      if content.None? {
        continue;
      }
      var invoices := Normalise(content.value);
      if invoices.Err? {
        continue;
      }
      var entries := invoices.value;
      assert ScanDoc(doc, key, num) == ScanEntries(entries, key, num);
      var j := 0;
      while j < |entries|
        invariant 0 <= j <= |entries|
        invariant ScanEntries(entries, key, num) == ScanEntries(entries[j..], key, num)
      {
        var verdict := EntryVerdict(entries[j], key, num);
        ScanEntriesStep(entries, j, key, num);
        if verdict.Err? {
          break;
        }
        if verdict.value {
          return Existing(true, Some(doc.id), Some(entries[j]));
        }
        j := j + 1;
      }
      assert !ScanDoc(doc, key, num).Found?;
    }
    return NotExisting;
  }

  /**
    An invoice matches exactly when the vendor names agree after
    lower-casing, the invoice numbers are strictly equal and the amount texts
    are equal (queries.ts:369-379).
  */
  lemma MatchIff(inv: Json, key: Key, num: real -> string)
    ensures EntryVerdict(inv, key, num) == Ok(true)
            <==> && inv.JObj?
                 && IsTruthy(Prop(inv, "invoiceNumber"))
                 && Prop(inv, "vendorName").Some? && Prop(inv, "vendorName").value.JStr?
                 && Prop(inv, "vendorName").value.s != ""
                 && key.vendorName.Some? && key.vendorName.value.JStr?
                 && Lower(Prop(inv, "vendorName").value.s) == Lower(key.vendorName.value.s)
                 && StrictEquals(Prop(inv, "invoiceNumber"), key.invoiceNumber)
                 && AmountText(Prop(inv, "amount"), num) == Ok(key.amountText)
  {
  }

  /** An invoice without a truthy vendor name or invoice number, or without an amount, never matches. */
  lemma MissingFieldNeverMatches(inv: Json, key: Key, num: real -> string)
    requires inv != JNull
    requires !IsTruthy(Prop(inv, "vendorName")) || !IsTruthy(Prop(inv, "invoiceNumber"))
             || Prop(inv, "amount").None?
    ensures EntryVerdict(inv, key, num) == Ok(false)
  {
  }

  /** The vendor comparison ignores case: two candidates whose vendor names lower-case alike get the same verdict. */
  lemma VendorCaseInsensitive(inv: Json, v1: string, v2: string, number: Option<Json>, amountText: string,
                              num: real -> string)
    requires Lower(v1) == Lower(v2)
    ensures EntryVerdict(inv, Key(Some(JStr(v1)), number, amountText), num)
            == EntryVerdict(inv, Key(Some(JStr(v2)), number, amountText), num)
  {
  }

  /** "ACME" and "Acme" with number "INV-1" and amount 100 both match a stored `{acme, INV-1, 100}`. */
  lemma CaseInsensitiveExample(stored: Json, vendor: string, num: real -> string)
    requires stored.JObj?
    requires Prop(stored, "vendorName") == Some(JStr("acme"))
    requires Prop(stored, "invoiceNumber") == Some(JStr("INV-1"))
    requires Prop(stored, "amount") == Some(JNum(100.0))
    requires vendor == "ACME" || vendor == "Acme"
    ensures EntryVerdict(stored, Key(Some(JStr(vendor)), Some(JStr("INV-1")), num(100.0)), num) == Ok(true)
  {
    LowerExamples();
    assert AmountText(Prop(stored, "amount"), num) == Ok(num(100.0));
  }

  lemma LowerExamples()
    ensures Lower("ACME") == "acme" && Lower("Acme") == "acme" && Lower("acme") == "acme"
  {
    assert Lower("ACME") == "acme";
    assert Lower("Acme") == "acme";
    assert Lower("acme") == "acme";
  }

  /** The first-match answer, stated directly: the earliest document with a match, and that document's first match. */
  lemma {:induction false} FirstMatchIsFirst(docs: seq<Doc>, key: Key, num: real -> string)
    ensures FirstMatch(docs, key, num).found
            <==> exists i :: 0 <= i < |docs| && ScanDoc(docs[i], key, num).Found?
    ensures FirstMatch(docs, key, num).found ==>
            exists i :: && 0 <= i < |docs| && ScanDoc(docs[i], key, num).Found?
                        && (forall k :: 0 <= k < i ==> !ScanDoc(docs[k], key, num).Found?)
                        && FirstMatch(docs, key, num)
                           == Existing(true, Some(docs[i].id), Some(ScanDoc(docs[i], key, num).invoice))
  {
    if docs != [] {
      FirstMatchIsFirst(docs[1..], key, num);
      if !ScanDoc(docs[0], key, num).Found? {
        if FirstMatch(docs, key, num).found {
          var i :| && 0 <= i < |docs[1..]| && ScanDoc(docs[1..][i], key, num).Found?
                   && (forall k :: 0 <= k < i ==> !ScanDoc(docs[1..][k], key, num).Found?)
                   && FirstMatch(docs[1..], key, num)
                      == Existing(true, Some(docs[1..][i].id), Some(ScanDoc(docs[1..][i], key, num).invoice));
          assert forall k :: 0 <= k < i + 1 ==> !ScanDoc(docs[k], key, num).Found? by {
            forall k | 0 <= k < i + 1 ensures !ScanDoc(docs[k], key, num).Found? {
              if k > 0 { assert docs[k] == docs[1..][k - 1]; }
            }
          }
          assert docs[i + 1] == docs[1..][i];
        }
        if exists i :: 0 <= i < |docs| && ScanDoc(docs[i], key, num).Found? {
          var i :| 0 <= i < |docs| && ScanDoc(docs[i], key, num).Found?;
          assert i > 0 && docs[1..][i - 1] == docs[i];
        }
      }
    }
  }

  /** Over the same store, `checkInvoiceDuplicate` says true exactly when `getExistingInvoiceByDetails` finds something. */
  lemma DuplicateAgreesWithExisting(store: Option<seq<Doc>>, c: Candidate, num: real -> string)
    ensures IsDuplicate(store, c, num) <==> ExistingByDetails(store, c, num).found
  {
    if store.Some? && AmountText(c.amount, num).Ok? {
      FirstMatchIsFirst(OfKind(store.value, "invoice"), KeyOf(c, AmountText(c.amount, num).value), num);
    }
  }

  /** A document that throws on its first invoice hides a match later in the same document, but not in the next one. */
  lemma AbandonedDocumentIsSkipped(d: Doc, rest: seq<Doc>, key: Key, num: real -> string)
    requires ScanDoc(d, key, num).Abandoned?
    ensures FirstMatch([d] + rest, key, num) == FirstMatch(rest, key, num)
  {
    assert ([d] + rest)[1..] == rest;
  }

  /** Newest first by creation time. */
  predicate NewestFirst(docs: seq<Doc>) {
    forall i, j :: 0 <= i < j < |docs| ==> docs[i].createdAt >= docs[j].createdAt
  }

  /** Inserting one document into a newest-first list. */
  function InsertByDate(d: Doc, docs: seq<Doc>): (r: seq<Doc>)
    ensures multiset(r) == multiset(docs) + multiset{d}
  {
    if docs == [] then [d]
    else if d.createdAt >= docs[0].createdAt then [d] + docs
    else
      assert docs == [docs[0]] + docs[1..];
      [docs[0]] + InsertByDate(d, docs[1..])
  }

  /** Inserting keeps a newest-first list newest-first. */
  lemma {:induction false} InsertKeepsNewestFirst(d: Doc, docs: seq<Doc>)
    requires NewestFirst(docs)
    ensures NewestFirst(InsertByDate(d, docs))
    decreases |docs|
  {
    if docs != [] && d.createdAt < docs[0].createdAt {
      InsertKeepsNewestFirst(d, docs[1..]);
      var rest := InsertByDate(d, docs[1..]);
      assert forall j :: 0 <= j < |rest| ==> rest[j].createdAt <= docs[0].createdAt by {
        forall j | 0 <= j < |rest| ensures rest[j].createdAt <= docs[0].createdAt {
          assert rest[j] in multiset(rest);
          if rest[j] != d {
            assert rest[j] in multiset(docs[1..]);
            var k :| 0 <= k < |docs[1..]| && docs[1..][k] == rest[j];
            assert docs[k + 1] == rest[j];
          }
        }
      }
      assert InsertByDate(d, docs) == [docs[0]] + rest;
    }
  }

  function SortByDate(docs: seq<Doc>): (r: seq<Doc>)
    ensures NewestFirst(r)
    ensures multiset(r) == multiset(docs)
  {
    if docs == [] then []
    else
      assert docs == [docs[0]] + docs[1..];
      var sortedRest := SortByDate(docs[1..]);
      InsertKeepsNewestFirst(docs[0], sortedRest);
      InsertByDate(docs[0], sortedRest)
  }

  /**
    `getAllDocumentsByKind` (queries.ts:481-492): the documents of one kind,
    newest first; `[]` when the query throws. Documents created at the same
    instant come back in an order the database chooses; this model fixes one.
  */
  function DocumentsByKind(store: Option<seq<Doc>>, kind: string): (r: seq<Doc>)
    ensures store.None? ==> r == []
    ensures NewestFirst(r)
  {
    if store.None? then [] else SortByDate(OfKind(store.value, kind))
  }

  /**
    What `getAllDocumentsByKind` returns is a reordering of exactly the
    stored documents of that kind.
  */
  lemma DocumentsByKindSelects(store: Option<seq<Doc>>, kind: string)
    ensures forall d :: d in DocumentsByKind(store, kind) ==> d.kind == kind
    ensures store.Some? ==> multiset(DocumentsByKind(store, kind)) == multiset(OfKind(store.value, kind))
    ensures store.Some? ==> forall d :: d in store.value && d.kind == kind <==> d in DocumentsByKind(store, kind)
  {
    if store.Some? {
      var r := DocumentsByKind(store, kind);
      assert forall d :: d in r <==> d in multiset(OfKind(store.value, kind));
    }
  }

  /** The `updateValues` object: only the provided fields. */
  datatype UpdateValues = UpdateValues(title: Option<string>, content: Option<Text>)

  /** `db.update(document).set(values).where(eq(document.id, id))` */
  function ApplyUpdate(docs: seq<Doc>, id: string, values: UpdateValues): seq<Doc> {
    seq(|docs|, i requires 0 <= i < |docs| =>
      if docs[i].id == id
      then docs[i].(title := values.title.GetOr(docs[i].title), content := values.content.GetOr(docs[i].content))
      else docs[i])
  }

  /**
    `updateDocument` (queries.ts:503-536): `None` when neither field is
    provided (no write, `null` returned), otherwise the store after the write.
  */
  method UpdateDocument(docs: seq<Doc>, id: string, title: Option<string>, content: Option<Text>)
    returns (r: Option<seq<Doc>>)
    ensures r.None? <==> title.None? && content.None?
    ensures r.Some? ==> |r.value| == |docs|
    ensures r.Some? ==> forall i :: 0 <= i < |docs| ==>
              && r.value[i].id == docs[i].id && r.value[i].kind == docs[i].kind
              && r.value[i].createdAt == docs[i].createdAt
              && (docs[i].id != id ==> r.value[i] == docs[i])
              && (docs[i].id == id ==>
                    && r.value[i].title == (if title.Some? then title.value else docs[i].title)
                    && r.value[i].content == (if content.Some? then content.value else docs[i].content))
  {
    var updateValues := UpdateValues(None, None);
    if title.Some? {
      updateValues := updateValues.(title := title);
    }
    if content.Some? {
      updateValues := updateValues.(content := content);
    }
    if updateValues.title.Some? || updateValues.content.Some? {
      return Some(ApplyUpdate(docs, id, updateValues));
    }
    return None;
  }
}
