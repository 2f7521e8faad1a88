/**
 * The Go Google Sheets client: the parsers that turn untyped sheet cells into the rule map
 * and the set of recorded identifiers, and the requests the client sends. The Sheets API
 * itself is not modelled; its replies are parameters and the requests are logged.
 */
module GoogleClient {
  import opened Wrappers
  import opened Common

  /** An untyped cell as the Sheets API returns it: a string, or anything else. */
  datatype SheetValue = Str(s: string) | Other

  type SheetRow = seq<SheetValue>

  /** The cell at `i` when it exists and is a non-empty string. */
  function NonEmptyStringAt(row: SheetRow, i: nat): (r: Option<string>)
    ensures r.Some? <==> i < |row| && row[i].Str? && row[i].s != ""
    ensures r.Some? ==> row[i] == Str(r.value)
  {
    if i < |row| then
      match row[i]
      case Str(s) => if s != "" then Some(s) else None
      case Other => None
    else None
  }

  /**
   * `parseRow`: no rule for an empty row; otherwise the category from the second cell and
   * the name from the third, each only when it is a non-empty string.
   */
  function ParseRow(row: SheetRow): (r: Option<Category>)
    ensures r.None? <==> row == []
    ensures r.Some? ==>
              && (r.value.category.Some? <==> |row| > 1 && row[1].Str? && row[1].s != "")
              && (r.value.category.Some? ==> row[1] == Str(r.value.category.value))
              && (r.value.name.Some? <==> |row| > 2 && row[2].Str? && row[2].s != "")
              && (r.value.name.Some? ==> row[2] == Str(r.value.name.value))
  {
    if |row| == 0 then None
    else Some(Category(NonEmptyStringAt(row, 1), NonEmptyStringAt(row, 2)))
  }

  /** Cells past the third never change the rule. */
  lemma ParseRowIgnoresExtraCells(row: SheetRow, extra: SheetRow)
    requires |row| >= 3
    ensures ParseRow(row + extra) == ParseRow(row)
  {
    assert (row + extra)[1] == row[1] && (row + extra)[2] == row[2];
  }

  /** The key a row contributes to the rule map: a non-empty string first cell. */
  predicate HasKey(row: SheetRow)
  {
    row != [] && row[0].Str? && row[0].s != ""
  }

  /** The rule map built from the rows in order: a later row replaces an earlier one. */
  function CategoryMap(rows: seq<SheetRow>): (mapping: map<string, Category>)
    ensures "" !in mapping
  {
    if rows == [] then map[]
    else
      var mapping := CategoryMap(rows[..|rows| - 1]);
      var row := rows[|rows| - 1];
      match ParseRow(row)
      case None => mapping
      case Some(cat) => if row[0].Str? && row[0].s != "" then mapping[row[0].s := cat] else mapping
  }

  /** Exactly the non-empty string first cells are keys. */
  lemma {:induction false} CategoryMapKeys(rows: seq<SheetRow>, key: string)
    ensures key in CategoryMap(rows) <==> exists i :: 0 <= i < |rows| && HasKey(rows[i]) && rows[i][0] == Str(key)
  {
    if rows != [] {
      var n := |rows| - 1;
      CategoryMapKeys(rows[..n], key);
      if key in CategoryMap(rows) && key !in CategoryMap(rows[..n]) {
        assert HasKey(rows[n]) && rows[n][0] == Str(key);
      }
      if i :| 0 <= i < |rows| && HasKey(rows[i]) && rows[i][0] == Str(key) {
        if i < n {
          assert rows[..n][i] == rows[i];
        }
      }
    }
  }

  /** The value under a key is the rule of the last row carrying that key. */
  lemma {:induction false} CategoryMapLastWins(rows: seq<SheetRow>, i: nat)
    requires i < |rows| && HasKey(rows[i])
    requires forall j :: i < j < |rows| && rows[j] != [] ==> rows[j][0] != rows[i][0]
    ensures rows[i][0].s in CategoryMap(rows)
    ensures CategoryMap(rows)[rows[i][0].s] == ParseRow(rows[i]).value
  {
    var n := |rows| - 1;
    if i < n {
      assert rows[..n][i] == rows[i];
      CategoryMapLastWins(rows[..n], i);
      assert rows[n] == [] || rows[n][0] != rows[i][0];
    }
  }

  /** The identifier set built from the rows in order: every string first cell, empty or not. */
  function IdMap(rows: seq<SheetRow>): (ids: map<string, bool>)
    ensures forall id :: id in ids ==> ids[id]
  {
    if rows == [] then map[]
    else
      var ids := IdMap(rows[..|rows| - 1]);
      var row := rows[|rows| - 1];
      if |row| > 0 && row[0].Str? then ids[row[0].s := true] else ids
  }

  /** Exactly the string first cells of non-empty rows are recorded. */
  lemma {:induction false} IdMapKeys(rows: seq<SheetRow>, id: string)
    ensures id in IdMap(rows) <==> exists i :: 0 <= i < |rows| && rows[i] != [] && rows[i][0] == Str(id)
  {
    if rows != [] {
      var n := |rows| - 1;
      IdMapKeys(rows[..n], id);
      if i :| 0 <= i < |rows| && rows[i] != [] && rows[i][0] == Str(id) {
        if i < n {
          assert rows[..n][i] == rows[i];
        }
      }
    }
  }

  /** Unlike the rule map, an empty first cell is recorded as an identifier. */
  lemma EmptyIdRecorded()
    ensures IdMap([[Str("")]]) == map["" := true]
    ensures CategoryMap([[Str("")]]) == map[]
  {
    assert [[Str("")]][..0] == [];
  }

  /** `ParseCategoryRows`. */
  method ParseCategoryRows(rows: seq<SheetRow>) returns (mapping: map<string, Category>)
    ensures mapping == CategoryMap(rows)
  {
    mapping := map[];
    for i := 0 to |rows|
      invariant mapping == CategoryMap(rows[..i])
    {
      assert rows[..i + 1][..i] == rows[..i];
      var row := rows[i];
      var cat := ParseRow(row);
      if cat.None? {
        continue;
      }
      if row[0].Str? && row[0].s != "" {
        mapping := mapping[row[0].s := cat.value];
      }
    }
    assert rows[..|rows|] == rows;
  }

  /** `ParseTransactionIDs`. */
  method ParseTransactionIds(rows: seq<SheetRow>) returns (ids: map<string, bool>)
    ensures ids == IdMap(rows)
  {
    ids := map[];
    for i := 0 to |rows|
      invariant ids == IdMap(rows[..i])
    {
      assert rows[..i + 1][..i] == rows[..i];
      var row := rows[i];
      if |row| > 0 {
        if row[0].Str? {
          ids := ids[row[0].s := true];
        }
      }
    }
    assert rows[..|rows|] == rows;
  }

  /** The properties of one sheet of a spreadsheet that the client reads. */
  datatype SheetProperties = SheetProperties(title: string, sheetId: int)

  /** `sheets[i]` is the first sheet titled `name`. */
  predicate IsFirstSheet(sheets: seq<SheetProperties>, name: string, i: int)
  {
    0 <= i < |sheets| && sheets[i].title == name && forall j :: 0 <= j < i ==> sheets[j].title != name
  }

  /** No sheet is titled `name`. */
  predicate NoSheet(sheets: seq<SheetProperties>, name: string)
  {
    forall i :: 0 <= i < |sheets| ==> sheets[i].title != name
  }

  /** The id of the first sheet titled `name`, or 0 when there is none. */
  function FirstSheetId(sheets: seq<SheetProperties>, name: string): (id: int)
    ensures NoSheet(sheets, name) ==> id == 0
    ensures forall i :: IsFirstSheet(sheets, name, i) ==> id == sheets[i].sheetId
  {
    if sheets == [] then 0
    else if sheets[0].title == name then sheets[0].sheetId
    else
      var id := FirstSheetId(sheets[1..], name);
      assert forall i :: IsFirstSheet(sheets, name, i) ==> IsFirstSheet(sheets[1..], name, i - 1);
      id
  }

  /** A sort over a grid range: rows from `startRow`, columns `startColumn` up to `endColumn`. */
  datatype SortRange = SortRange(
    sheetId: int, startRow: int, startColumn: int, endColumn: int,
    dimension: int, sortOrder: string)

  /** A request sent to the Sheets API. */
  datatype ApiRequest =
    | ValuesGet(spreadsheetId: string, range: string)
    | ValuesAppend(spreadsheetId: string, range: string, values: seq<seq<Cell>>,
                   valueInputOption: string, insertDataOption: string)
    | SpreadsheetsGet(spreadsheetId: string)
    | BatchUpdate(spreadsheetId: string, sorts: seq<SortRange>)

  /**
   * `GoogleSheetsClient`: the spreadsheet it works on and the requests sent so far. Each
   * method takes the API's reply to its request as a parameter.
   */
  class GoogleSheetsClient {
    const spreadsheetId: string
    var requests: seq<ApiRequest>

    constructor (spreadsheetId: string)
      ensures this.spreadsheetId == spreadsheetId && requests == []
    {
      this.spreadsheetId := spreadsheetId;
      requests := [];
    }

    /** `GetCategoryMapping`: reads columns A to C and parses them as `ParseCategoryRows` does. */
    method GetCategoryMapping(sheetName: string, reply: Result<seq<SheetRow>, string>)
      returns (r: Result<map<string, Category>, string>)
      modifies this
      ensures requests == old(requests) + [ValuesGet(spreadsheetId, sheetName + "!A:C")]
      ensures reply.Failure? ==> r == Failure("failed to read category mapping: " + reply.error)
      ensures reply.Success? ==> r == Success(CategoryMap(reply.value))
    {
      requests := requests + [ValuesGet(spreadsheetId, sheetName + "!A:C")];
      if reply.Failure? {
        return Failure("failed to read category mapping: " + reply.error);
      }
      var rows := reply.value;
      var mapping := map[];
      for i := 0 to |rows|
        invariant mapping == CategoryMap(rows[..i])
      {
        assert rows[..i + 1][..i] == rows[..i];
        var row := rows[i];
        var cat := ParseRow(row);
        if cat.None? {
          continue;
        }
        if row[0].Str? && row[0].s != "" {
          mapping := mapping[row[0].s := cat.value];
        }
      }
      assert rows[..|rows|] == rows;
      r := Success(mapping);
    }

    /** `GetExistingTransactionIDs`: reads column A and collects it as `ParseTransactionIDs` does. */
    method GetExistingTransactionIds(sheetName: string, reply: Result<seq<SheetRow>, string>)
      returns (r: Result<map<string, bool>, string>)
      modifies this
      ensures requests == old(requests) + [ValuesGet(spreadsheetId, sheetName + "!A:A")]
      ensures reply.Failure? ==> r == Failure("failed to read existing transaction IDs: " + reply.error)
      ensures reply.Success? ==> r == Success(IdMap(reply.value))
    {
      requests := requests + [ValuesGet(spreadsheetId, sheetName + "!A:A")];
      if reply.Failure? {
        return Failure("failed to read existing transaction IDs: " + reply.error);
      }
      var rows := reply.value;
      var ids := map[];
      for i := 0 to |rows|
        invariant ids == IdMap(rows[..i])
      {
        assert rows[..i + 1][..i] == rows[..i];
        var row := rows[i];
        if |row| > 0 {
          if row[0].Str? {
            ids := ids[row[0].s := true];
          }
        }
      }
      assert rows[..|rows|] == rows;
      r := Success(ids);
    }

    /** `AppendRows`: nothing is sent for no rows; otherwise one append of columns A to F. */
    method AppendRows(sheetName: string, rows: seq<seq<Cell>>, apiErr: Option<string>)
      returns (err: Option<string>)
      modifies this
      ensures rows == [] ==> requests == old(requests) && err.None?
      ensures rows != [] ==>
                && requests == old(requests) + [ValuesAppend(spreadsheetId, sheetName + "!A:F", rows, "USER_ENTERED", "INSERT_ROWS")]
                && err == (if apiErr.Some? then Some("failed to append rows: " + apiErr.value) else None)
    {
      if |rows| == 0 {
        return None;
      }
      requests := requests + [ValuesAppend(spreadsheetId, sheetName + "!A:F", rows, "USER_ENTERED", "INSERT_ROWS")];
      if apiErr.Some? {
        return Some("failed to append rows: " + apiErr.value);
      }
      return None;
    }

    /**
     * `SortByDate`: fetches the spreadsheet, looks up the sheet's id by title and sorts the
     * sheet below its header row, columns A to F, on column D descending.
     */
    method SortByDate(sheetName: string, spreadsheet: Result<seq<SheetProperties>, string>, batchErr: Option<string>)
      returns (err: Option<string>)
      modifies this
      ensures spreadsheet.Failure? ==>
                && requests == old(requests) + [SpreadsheetsGet(spreadsheetId)]
                && err == Some("failed to get spreadsheet: " + spreadsheet.error)
      ensures spreadsheet.Success? ==>
                && requests == old(requests) + [SpreadsheetsGet(spreadsheetId),
                     BatchUpdate(spreadsheetId, [SortRange(FirstSheetId(spreadsheet.value, sheetName), 1, 0, 6, 3, "DESCENDING")])]
                && err == (if batchErr.Some? then Some("failed to sort sheet: " + batchErr.value) else None)
    {
      requests := requests + [SpreadsheetsGet(spreadsheetId)];
      if spreadsheet.Failure? {
        return Some("failed to get spreadsheet: " + spreadsheet.error);
      }
      var sheets := spreadsheet.value;
      var sheetId := 0;
      var i := 0;
      while i < |sheets|
        invariant 0 <= i <= |sheets|
        invariant FirstSheetId(sheets, sheetName) == FirstSheetId(sheets[i..], sheetName)
        invariant sheetId == 0
      {
        if sheets[i].title == sheetName {
          sheetId := sheets[i].sheetId;
          break;
        }
        assert sheets[i..][1..] == sheets[i + 1..];
        i := i + 1;
      }
      assert sheetId == FirstSheetId(sheets, sheetName);
      requests := requests + [BatchUpdate(spreadsheetId, [SortRange(sheetId, 1, 0, 6, 3, "DESCENDING")])];
      if batchErr.Some? {
        return Some("failed to sort sheet: " + batchErr.value);
      }
      return None;
    }
  }
}
