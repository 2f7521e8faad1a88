/**
 * Paperless receipts as the Python importer reads them: which custom fields give a
 * document its total and category, the document's link, and the shape check on a
 * page of search results.
 */
module PaperlessDocuments {
  import opened Wrappers
  import opened Strings
  import opened Common

  /** A custom field of a Paperless document: its value and the number of its field. */
  datatype CustomField = CustomField(value: string, field: int)

  /** Field number of the receipt total. */
  const TotalField := 1
  /** Field number of the receipt category. */
  const CategoryField := 3

  /** The parts of a document record the importer uses. */
  datatype DocumentDict = DocumentDict(id: int, title: string, createdDate: string, customFields: seq<CustomField>)

  /**
   * A receipt: `date` is a calendar day counted from 1970-01-01, `total` an exact amount
   * (negative, like the card transactions it pays for).
   */
  datatype Document = Document(id: int, date: int, total: Option<Decimal>, title: string, category: Option<string>)

  /** `fields[i]` is the first custom field numbered `field`. */
  predicate IsFirstField(fields: seq<CustomField>, field: int, i: int)
  {
    0 <= i < |fields| && fields[i].field == field && forall j :: 0 <= j < i ==> fields[j].field != field
  }

  /** No custom field is numbered `field`. */
  predicate NoField(fields: seq<CustomField>, field: int)
  {
    forall i :: 0 <= i < |fields| ==> fields[i].field != field
  }

  /** The index of the first custom field numbered `field`, if any. */
  function FirstField(fields: seq<CustomField>, field: int): (r: Option<nat>)
    ensures r.None? <==> NoField(fields, field)
    ensures r.Some? ==> IsFirstField(fields, field, r.value)
  {
    if fields == [] then None
    else if fields[0].field == field then Some(0)
    else
      match FirstField(fields[1..], field)
      case None => None
      case Some(i) => Some(i + 1)
  }

  /** Why `from_dict` raises: a malformed creation date, or a total that is not a decimal. */
  datatype FromDictError = BadCreatedDate | BadTotal

  /** The amount a total field's value stands for: `"USD"` removed, parsed, negated. */
  function TotalOf(value: string, parseDecimal: string -> Option<Decimal>): Option<Decimal>
  {
    match parseDecimal(RemoveAll(value, "USD"))
    case None => None
    case Some(d) => Some(-d)
  }

  /**
   * A total written with the "USD" prefix is read as the negated amount after it, as long as
   * the rest holds no other "USD".
   */
  lemma TotalOfDropsCurrency(amount: string, parseDecimal: string -> Option<Decimal>)
    requires !Contains(amount, "USD")
    ensures TotalOf("USD" + amount, parseDecimal)
            == if parseDecimal(amount).Some? then Some(-parseDecimal(amount).value) else None
  {
    RemoveAllPrefix("USD", amount);
    RemoveAllAbsent(amount, "USD");
  }

  /** A total written without the prefix is read as the negated amount itself. */
  lemma TotalOfPlainAmount(amount: string, parseDecimal: string -> Option<Decimal>)
    requires !Contains(amount, "USD")
    ensures TotalOf(amount, parseDecimal)
            == if parseDecimal(amount).Some? then Some(-parseDecimal(amount).value) else None
  {
    RemoveAllAbsent(amount, "USD");
  }

  /**
   * `Document.from_dict`. `parseDate` stands for `date.fromisoformat` (a day number, or None
   * where it raises) and `parseDecimal` for the `Decimal` constructor (likewise).
   */
  function FromDict(data: DocumentDict, parseDate: string -> Option<int>, parseDecimal: string -> Option<Decimal>)
    : (r: Result<Document, FromDictError>)
    ensures parseDate(data.createdDate).None? ==> r == Failure(BadCreatedDate)
    ensures r.Success? <==>
              && parseDate(data.createdDate).Some?
              && forall i :: IsFirstField(data.customFields, TotalField, i)
                             ==> TotalOf(data.customFields[i].value, parseDecimal).Some?
    ensures r.Success? ==>
              && r.value.id == data.id && r.value.title == data.title
              && r.value.date == parseDate(data.createdDate).value
              && (NoField(data.customFields, TotalField) ==> r.value.total.None?)
              && (forall i :: IsFirstField(data.customFields, TotalField, i)
                              ==> r.value.total == TotalOf(data.customFields[i].value, parseDecimal))
              && (NoField(data.customFields, CategoryField) ==> r.value.category.None?)
              && (forall i :: IsFirstField(data.customFields, CategoryField, i)
                              ==> r.value.category == Some(data.customFields[i].value))
  {
    match parseDate(data.createdDate)
    case None => Failure(BadCreatedDate)
    case Some(created) =>
      var totalField := FirstField(data.customFields, TotalField);
      var total := if totalField.Some? then TotalOf(data.customFields[totalField.value].value, parseDecimal) else None;
      if totalField.Some? && total.None? then Failure(BadTotal)
      else
        var categoryField := FirstField(data.customFields, CategoryField);
        var category := if categoryField.Some? then Some(data.customFields[categoryField.value].value) else None;
        Success(Document(data.id, created, total, data.title, category))
  }

  /** Appending a field changes the first index only when there was none and it has the number. */
  lemma {:induction false} FirstFieldAppend(fields: seq<CustomField>, extra: CustomField, field: int)
    ensures FirstField(fields + [extra], field)
            == if FirstField(fields, field).Some? then FirstField(fields, field)
               else if extra.field == field then Some(|fields|)
               else None
  {
    if fields != [] {
      assert (fields + [extra])[1..] == fields[1..] + [extra];
      FirstFieldAppend(fields[1..], extra, field);
    }
  }

  /** A second total field is ignored: the document is the one read without it. */
  lemma FirstTotalFieldWins(data: DocumentDict, extra: CustomField,
                            parseDate: string -> Option<int>, parseDecimal: string -> Option<Decimal>)
    requires FirstField(data.customFields, TotalField).Some?
    requires extra.field == TotalField
    ensures FromDict(data.(customFields := data.customFields + [extra]), parseDate, parseDecimal)
            == FromDict(data, parseDate, parseDecimal)
  {
    var fields' := data.customFields + [extra];
    FirstFieldAppend(data.customFields, extra, TotalField);
    FirstFieldAppend(data.customFields, extra, CategoryField);
    var t := FirstField(data.customFields, TotalField).value;
    assert fields'[t] == data.customFields[t];
    var c := FirstField(data.customFields, CategoryField);
    if c.Some? {
      assert fields'[c.value] == data.customFields[c.value];
    }
  }

  const DocumentsBase := "https://paperless.markis.network/documents/"

  /**
   * `Document.__str__`: the document's page in the Paperless web interface, the documents
   * address followed by the id and a closing slash; `DocumentUrlIdentifies` shows the id can
   * be told from it.
   */
  function DocumentUrl(doc: Document): (url: string)
    ensures |url| > |DocumentsBase| + 1
    ensures url[..|DocumentsBase|] == DocumentsBase && url[|url| - 1] == '/'
  {
    DocumentsBase + IntToString(doc.id) + "/"
  }

  /** Two documents share a link exactly when they share an id. */
  lemma DocumentUrlIdentifies(a: Document, b: Document)
    ensures DocumentUrl(a) == DocumentUrl(b) <==> a.id == b.id
  {
    if DocumentUrl(a) == DocumentUrl(b) {
      var sa := IntToString(a.id);
      var sb := IntToString(b.id);
      assert |sa| == |sb|;
      assert forall k :: 0 <= k < |sa| ==> sa[k] == DocumentUrl(a)[|DocumentsBase| + k];
      assert sa == sb;
      IntToStringInjective(a.id, b.id);
    }
  }

  /** A decoded JSON value: an object with its keys, or anything else. */
  datatype JsonValue = JsonObject(keys: set<string>) | JsonOther

  /** The keys a page of search results must carry; `all` is optional. */
  const RequiredResponseKeys: seq<string> := ["count", "next", "results"]

  /** `is_response_dict`: an object carrying every required key. */
  function IsResponseDict(data: JsonValue): (b: bool)
    ensures b <==> data.JsonObject? && "count" in data.keys && "next" in data.keys && "results" in data.keys
  {
    data.JsonObject? && forall k :: k in RequiredResponseKeys ==> k in data.keys
  }

  /** The optional `all` key plays no part. */
  lemma AllKeyOptional(keys: set<string>)
    ensures IsResponseDict(JsonObject(keys + {"all"})) == IsResponseDict(JsonObject(keys - {"all"}))
  {
  }
}
