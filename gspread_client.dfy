/**
 * The Python importer's Google Sheets client, without the gspread calls: a transaction as a
 * sheet row, the lookup sheet read into rules, and the choice of rows still to be inserted.
 * The values a worksheet returns are a parameter.
 */
module GspreadClient {
  import opened Wrappers
  import opened Common
  import opened PaperlessDocuments
  import opened LookupRows
  import opened SimpleFinClient

  /**
   * `convert_to_row`: id, payee, amount, the UTC date of the transaction instant, the category
   * (empty when falsy) and the receipt's link (empty when there is none).
   */
  function ConvertToRow(t: Transaction): (row: seq<Cell>)
    reads t
    ensures |row| == 6
  {
    [ Text(t.id),
      Text(t.payee),
      Float(t.amount),
      UtcDate(t.transactedAt),
      Text(if Truthy(t.category) then t.category.value else ""),
      Text(if t.receipt.Some? then DocumentUrl(t.receipt.value) else "") ]
  }

  /**
   * The row starts with the identifier and the payee and carries the amount and the instant the
   * transaction happened (not the one it was posted). The category cell is empty exactly when
   * the category is falsy and holds it otherwise; the receipt cell is empty exactly when there
   * is no receipt, and two rows' receipt cells agree exactly when they link the same document.
   */
  lemma ConvertToRowCells(t: Transaction, u: Transaction)
    ensures ConvertToRow(t)[0] == Text(t.id) && ConvertToRow(t)[1] == Text(t.payee)
    ensures ConvertToRow(t)[2] == Float(t.amount) && ConvertToRow(t)[3] == UtcDate(t.transactedAt)
    ensures ConvertToRow(t)[4] == Text("") <==> !Truthy(t.category)
    ensures Truthy(t.category) ==> ConvertToRow(t)[4] == Text(t.category.value)
    ensures ConvertToRow(t)[5] == Text("") <==> t.receipt.None?
    ensures t.receipt.Some? && u.receipt.Some? ==>
              (ConvertToRow(t)[5] == ConvertToRow(u)[5] <==> t.receipt.value.id == u.receipt.value.id)
  {
    if t.receipt.Some? {
      assert |DocumentUrl(t.receipt.value)| >= |DocumentsBase|;
      if u.receipt.Some? {
        DocumentUrlIdentifies(t.receipt.value, u.receipt.value);
      }
    }
  }

  /** Why reading a worksheet's values fails in Python. */
  datatype PyError =
    | AssertionError  // `is_list_of_strings` rejects an empty list of rows
    | IndexError      // `row[0]` on an empty row

  /** The values of a worksheet pass the assertion and every row has a first cell. */
  predicate Readable(values: seq<seq<string>>)
  {
    values != [] && forall i :: 0 <= i < |values| ==> values[i] != []
  }

  /** The error Python raises on unreadable values: the assertion first. */
  function ReadError(values: seq<seq<string>>): (e: PyError)
    requires !Readable(values)
    ensures e == AssertionError <==> values == []
  {
    if values == [] then AssertionError else IndexError
  }

  /** `{row[0] for row in values}`. */
  function FirstCells(values: seq<seq<string>>): (ids: set<string>)
    requires Readable(values)
    ensures forall id :: id in ids <==> exists i :: 0 <= i < |values| && values[i][0] == id
  {
    set i | 0 <= i < |values| :: values[i][0]
  }

  /** `{row[0]: Category.from_row(row) for row in values}`, built row by row. */
  function RowRules(values: seq<seq<string>>): (rules: map<string, Category>)
    requires forall i :: 0 <= i < |values| ==> values[i] != []
    ensures forall i :: 0 <= i < |values| ==> values[i][0] in rules
  {
    if values == [] then map[]
    else
      var row := values[|values| - 1];
      RowRules(values[..|values| - 1])[row[0] := FromRow(row)]
  }

  /** The rules are keyed by exactly the first cells. */
  lemma {:induction false} RowRulesKeys(values: seq<seq<string>>)
    requires forall i :: 0 <= i < |values| ==> values[i] != []
    ensures forall id :: id in RowRules(values) <==> exists i :: 0 <= i < |values| && values[i][0] == id
  {
    if values != [] {
      var n := |values| - 1;
      RowRulesKeys(values[..n]);
      forall id | id in RowRules(values)
        ensures exists i :: 0 <= i < |values| && values[i][0] == id
      {
        if id != values[n][0] {
          assert id in RowRules(values[..n]);
          var i :| 0 <= i < n && values[..n][i][0] == id;
          assert values[i][0] == id;
        }
      }
      forall id, i | 0 <= i < |values| && values[i][0] == id
        ensures id in RowRules(values)
      {
        if i < n {
          assert values[..n][i][0] == id;
        }
      }
    }
  }

  /** A later row with the same first cell replaces an earlier one. */
  lemma {:induction false} RowRulesLastWins(values: seq<seq<string>>, i: nat)
    requires forall j :: 0 <= j < |values| ==> values[j] != []
    requires i < |values|
    requires forall j :: i < j < |values| ==> values[j][0] != values[i][0]
    ensures values[i][0] in RowRules(values)
    ensures RowRules(values)[values[i][0]] == FromRow(values[i])
  {
    var n := |values| - 1;
    if i < n {
      assert values[..n][i] == values[i];
      RowRulesLastWins(values[..n], i);
    }
  }

  /** `get_category_mapping` on the worksheet's values: the first cells and the rules. */
  function CategoryMapping(values: seq<seq<string>>): (r: Result<(set<string>, map<string, Category>), PyError>)
    ensures r.Failure? <==> !Readable(values)
    ensures r.Failure? ==> r.error == ReadError(values)
  {
    if !Readable(values) then Failure(ReadError(values))
    else Success((FirstCells(values), RowRules(values)))
  }

  /**
   * The mapping's keys are the category set, and each key's rule is read from the last row
   * starting with it.
   */
  lemma CategoryMappingRules(values: seq<seq<string>>, i: nat)
    requires Readable(values) && i < |values|
    requires forall j :: i < j < |values| ==> values[j][0] != values[i][0]
    ensures CategoryMapping(values).value.1.Keys == CategoryMapping(values).value.0
    ensures CategoryMapping(values).value.1[values[i][0]] == FromRow(values[i])
  {
    RowRulesKeys(values);
    RowRulesLastWins(values, i);
  }

  /** The rows of the transactions not yet recorded, in their order. */
  function NewRecords(ids: set<string>, transactions: seq<Transaction>): (rows: seq<seq<Cell>>)
    reads set t | t in transactions
    ensures |rows| <= |transactions|
  {
    if transactions == [] then []
    else
      var t := transactions[|transactions| - 1];
      NewRecords(ids, transactions[..|transactions| - 1]) + (if t.id in ids then [] else [ConvertToRow(t)])
  }

  /** Selecting from two lists one after the other selects from their concatenation. */
  lemma {:induction false} NewRecordsAppend(ids: set<string>, xs: seq<Transaction>, ys: seq<Transaction>)
    ensures NewRecords(ids, xs + ys) == NewRecords(ids, xs) + NewRecords(ids, ys)
  {
    if ys == [] {
      assert xs + ys == xs;
    } else {
      var n := |ys| - 1;
      assert (xs + ys)[..|xs + ys| - 1] == xs + ys[..n];
      assert (xs + ys)[|xs + ys| - 1] == ys[n];
      NewRecordsAppend(ids, xs, ys[..n]);
    }
  }

  /** A transaction's row is selected exactly when its identifier is not recorded. */
  lemma NewRecordsSingle(ids: set<string>, t: Transaction)
    ensures NewRecords(ids, [t]) == if t.id in ids then [] else [ConvertToRow(t)]
  {
    assert [t][..0] == [];
  }

  /** Every selected row is the row of a listed transaction whose identifier is not recorded. */
  lemma {:induction false} NewRecordsSound(ids: set<string>, transactions: seq<Transaction>, row: seq<Cell>)
    requires row in NewRecords(ids, transactions)
    ensures exists t :: t in transactions && t.id !in ids && row == ConvertToRow(t)
  {
    var n := |transactions| - 1;
    var t := transactions[n];
    if row in NewRecords(ids, transactions[..n]) {
      NewRecordsSound(ids, transactions[..n], row);
      var u :| u in transactions[..n] && u.id !in ids && row == ConvertToRow(u);
      assert u in transactions;
    } else {
      assert t.id !in ids && row == ConvertToRow(t);
    }
  }

  /** When no identifier is recorded every transaction is inserted, in order. */
  lemma {:induction false} NewRecordsNoneRecorded(ids: set<string>, transactions: seq<Transaction>)
    requires forall t :: t in transactions ==> t.id !in ids
    ensures |NewRecords(ids, transactions)| == |transactions|
    ensures forall k :: 0 <= k < |transactions| ==> NewRecords(ids, transactions)[k] == ConvertToRow(transactions[k])
  {
    if transactions != [] {
      var n := |transactions| - 1;
      assert transactions[n] in transactions;
      NewRecordsNoneRecorded(ids, transactions[..n]);
    }
  }

  /** Once every identifier is recorded nothing is inserted. */
  lemma {:induction false} NewRecordsAllRecorded(ids: set<string>, transactions: seq<Transaction>)
    requires forall t :: t in transactions ==> t.id in ids
    ensures NewRecords(ids, transactions) == []
  {
    if transactions != [] {
      var n := |transactions| - 1;
      assert transactions[n] in transactions;
      NewRecordsAllRecorded(ids, transactions[..n]);
    }
  }

  /**
   * The records `insert_records_to_google_sheet` hands to `append_rows`, given the worksheet's
   * values: the rows of the transactions whose identifier is no row's first cell.
   */
  function RecordsToInsert(values: seq<seq<string>>, transactions: seq<Transaction>)
    : (r: Result<seq<seq<Cell>>, PyError>)
    reads set t | t in transactions
    ensures r.Failure? <==> !Readable(values)
    ensures r.Failure? ==> r.error == ReadError(values)
    ensures r.Success? ==> |r.value| <= |transactions|
  {
    if !Readable(values) then Failure(ReadError(values))
    else Success(NewRecords(FirstCells(values), transactions))
  }

  /**
   * Once the worksheet's first cells include every transaction's identifier, for instance after
   * the records were appended, nothing is selected again.
   */
  lemma RecordsToInsertIdempotent(values: seq<seq<string>>, transactions: seq<Transaction>)
    requires Readable(values)
    requires forall t :: t in transactions ==> exists i :: 0 <= i < |values| && values[i][0] == t.id
    ensures RecordsToInsert(values, transactions) == Success([])
  {
    NewRecordsAllRecorded(FirstCells(values), transactions);
  }
}
