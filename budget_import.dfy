/**
 * The Go command `budget-import`: configuration check, row shaping, the reconciliation filter
 * and the call sequence against the sheets client.
 */
module BudgetImport {
  import opened Wrappers
  import opened Common
  import opened CategoryResolver

  datatype SimpleFinConfig = SimpleFinConfig(username: string, password: string, accessUrl: string)
  datatype GoogleConfig = GoogleConfig(credentials: string, spreadsheetId: string, sheetName: string, mappingSheet: string)
  datatype Config = Config(simpleFin: SimpleFinConfig, google: GoogleConfig)

  const SimpleFinRequired := "SimpleFIN credentials required: provide access_url or username/password"
  const CredentialsRequired := "google credentials path required"
  const SpreadsheetRequired := "google Sheets spreadsheet ID required"

  /** `validateConfig`: None for a usable configuration, else the first complaint. */
  function ValidateConfig(config: Config): (err: Option<string>)
    ensures err.None? <==>
              && (config.simpleFin.accessUrl != "" || (config.simpleFin.username != "" && config.simpleFin.password != ""))
              && config.google.credentials != ""
              && config.google.spreadsheetId != ""
    ensures err.Some? ==> err.value in {SimpleFinRequired, CredentialsRequired, SpreadsheetRequired}
  {
    var sf := config.simpleFin;
    var hasSimpleFin := sf.accessUrl != "" || (sf.username != "" && sf.password != "");
    if !hasSimpleFin then Some(SimpleFinRequired)
    else if config.google.credentials == "" then Some(CredentialsRequired)
    else if config.google.spreadsheetId == "" then Some(SpreadsheetRequired)
    else None
  }

  /** Missing SimpleFIN credentials are reported whatever the Google settings are. */
  lemma SimpleFinReportedFirst(config: Config)
    requires config.simpleFin.accessUrl == ""
    requires config.simpleFin.username == "" || config.simpleFin.password == ""
    ensures ValidateConfig(config) == Some(SimpleFinRequired)
  {
  }

  /** With SimpleFIN settled, missing credentials are reported before a missing spreadsheet ID. */
  lemma CredentialsReportedBeforeSpreadsheet(config: Config)
    requires config.simpleFin.accessUrl != "" || (config.simpleFin.username != "" && config.simpleFin.password != "")
    requires config.google.credentials == ""
    ensures ValidateConfig(config) == Some(CredentialsRequired)
  {
  }

  /** A SimpleFIN transaction as the Go command reads it. */
  datatype Transaction = Transaction(
    id: string, description: string, memo: string, payee: string,
    amount: Decimal, posted: int, transactedAt: int)

  datatype Account = Account(id: string, transactions: seq<Transaction>)

  datatype Response = Response(accounts: seq<Account>)

  /** All transactions, account after account, each account's in its own order. */
  function Flatten(accounts: seq<Account>): seq<Transaction>
  {
    if accounts == [] then []
    else Flatten(accounts[..|accounts| - 1]) + accounts[|accounts| - 1].transactions
  }

  lemma {:induction false} FlattenAppend(a: seq<Account>, b: seq<Account>)
    ensures Flatten(a + b) == Flatten(a) + Flatten(b)
    decreases |b|
  {
    if b == [] {
      assert a + b == a;
    } else {
      var n := |b| - 1;
      assert (a + b)[..|a + b| - 1] == a + b[..n];
      FlattenAppend(a, b[..n]);
    }
  }

  /** The payee the row shows before mapping: the description replaces an empty payee. */
  function EffectivePayee(txn: Transaction): string
  {
    if txn.payee == "" then txn.description else txn.payee
  }

  /** `createRow`: the six cells written for one transaction, the scan visiting keys in `order`. */
  function CreateRow(txn: Transaction, mapping: Mapping, order: seq<string>): (row: seq<Cell>)
    requires IsEnumeration(order, mapping)
    ensures |row| == 6
    ensures row[0] == Text(txn.id) && row[2] == Float(txn.amount)
    ensures row[3] == LocalDate(txn.posted) && row[5] == Text("")
    ensures row[1].Text? && row[4].Text?
    ensures row[1] == Text(EffectivePayee(txn)) ||
            exists k :: k in mapping && (k == EffectivePayee(txn) || KeyMatches(k, EffectivePayee(txn)))
                        && mapping[k].name == Some(row[1].s)
    ensures row[4] == Text("") ||
            exists k :: k in mapping && (k == EffectivePayee(txn) || KeyMatches(k, EffectivePayee(txn)))
                        && mapping[k].category == Some(row[4].s)
  {
    var payee := EffectivePayee(txn);
    ResolveSound(payee, mapping, order, payee);
    var r := Resolve(payee, mapping, order, payee);
    [Text(txn.id), Text(r.payee), Float(txn.amount), LocalDate(txn.posted), Text(r.category), Text("")]
  }

  /** A transaction without payee is shaped exactly as if its description were its payee. */
  lemma DescriptionReplacesEmptyPayee(txn: Transaction, mapping: Mapping, order: seq<string>)
    requires IsEnumeration(order, mapping)
    requires txn.payee == ""
    ensures CreateRow(txn, mapping, order) == CreateRow(txn.(payee := txn.description), mapping, order)
  {
  }

  /** Go's `existingIDs[id]`: a missing key reads as false. */
  predicate Recorded(existing: map<string, bool>, id: string)
  {
    id in existing && existing[id]
  }

  /** The identifiers of the transactions not yet recorded, in input order, repeats kept. */
  function NewIds(txns: seq<Transaction>, existing: map<string, bool>): seq<string>
  {
    if txns == [] then []
    else
      var n := |txns| - 1;
      NewIds(txns[..n], existing) + (if Recorded(existing, txns[n].id) then [] else [txns[n].id])
  }

  /** One visit order of the mapping's keys for each transaction. */
  ghost predicate AllEnumerations(orders: seq<seq<string>>, mapping: Mapping)
  {
    forall p :: 0 <= p < |orders| ==> IsEnumeration(orders[p], mapping)
  }

  /** The rows `processTransactions` produces; `orders[p]` is the visit order for transaction `p`. */
  function NewRows(txns: seq<Transaction>, mapping: Mapping, orders: seq<seq<string>>, existing: map<string, bool>): seq<seq<Cell>>
    requires |txns| <= |orders|
    requires AllEnumerations(orders, mapping)
  {
    if txns == [] then []
    else
      var n := |txns| - 1;
      NewRows(txns[..n], mapping, orders, existing)
        + (if Recorded(existing, txns[n].id) then [] else [CreateRow(txns[n], mapping, orders[n])])
  }

  /**
   * One six-cell row per unrecorded transaction, in input order: the rows' first cells are
   * exactly the new identifiers.
   */
  lemma {:induction false} NewRowsAreNewIds(txns: seq<Transaction>, mapping: Mapping, orders: seq<seq<string>>, existing: map<string, bool>)
    requires |txns| <= |orders|
    requires AllEnumerations(orders, mapping)
    ensures var rows := NewRows(txns, mapping, orders, existing);
            && |rows| == |NewIds(txns, existing)|
            && forall i :: 0 <= i < |rows| ==> |rows[i]| == 6 && rows[i][0] == Text(NewIds(txns, existing)[i])
  {
    if txns != [] {
      var n := |txns| - 1;
      NewRowsAreNewIds(txns[..n], mapping, orders, existing);
    }
  }

  /** Every identifier emitted is unrecorded and comes from the batch; every unrecorded one is emitted. */
  lemma {:induction false} NewIdsExact(txns: seq<Transaction>, existing: map<string, bool>)
    ensures forall id :: id in NewIds(txns, existing) ==> !Recorded(existing, id)
    ensures forall p :: 0 <= p < |txns| && !Recorded(existing, txns[p].id) ==> txns[p].id in NewIds(txns, existing)
    ensures forall id :: id in NewIds(txns, existing) ==> exists p :: 0 <= p < |txns| && txns[p].id == id
  {
    if txns != [] {
      var n := |txns| - 1;
      NewIdsExact(txns[..n], existing);
      forall id | id in NewIds(txns, existing)
        ensures exists p :: 0 <= p < |txns| && txns[p].id == id
      {
        if id in NewIds(txns[..n], existing) {
          var p :| 0 <= p < n && txns[..n][p].id == id;
          assert txns[p].id == id;
        } else {
          assert txns[n].id == id;
        }
      }
    }
  }

  /** Selecting from two batches one after the other selects from their concatenation. */
  lemma {:induction false} NewIdsAppend(a: seq<Transaction>, b: seq<Transaction>, existing: map<string, bool>)
    ensures NewIds(a + b, existing) == NewIds(a, existing) + NewIds(b, existing)
  {
    if b == [] {
      assert a + b == a;
    } else {
      var n := |b| - 1;
      assert (a + b)[..|a + b| - 1] == a + b[..n];
      assert (a + b)[|a + b| - 1] == b[n];
      NewIdsAppend(a, b[..n], existing);
    }
  }

  /** One transaction yields its identifier exactly when it is not recorded. */
  lemma NewIdsSingle(t: Transaction, existing: map<string, bool>)
    ensures NewIds([t], existing) == if Recorded(existing, t.id) then [] else [t.id]
  {
    assert [t][..0] == [];
  }

  /**
   * Identifiers are not collapsed: two transactions with the same unrecorded identifier,
   * wherever they stand in the batch and whether or not they are the same transaction, each
   * yield it once, in place.
   */
  lemma RepeatsNotCollapsed(a: seq<Transaction>, t: Transaction, b: seq<Transaction>, u: Transaction,
                            c: seq<Transaction>, existing: map<string, bool>)
    requires !Recorded(existing, t.id) && u.id == t.id
    ensures NewIds(a + [t] + b + [u] + c, existing)
            == NewIds(a, existing) + [t.id] + NewIds(b, existing) + [t.id] + NewIds(c, existing)
  {
    NewIdsAppend(a, [t], existing);
    NewIdsAppend(a + [t], b, existing);
    NewIdsAppend(a + [t] + b, [u], existing);
    NewIdsAppend(a + [t] + b + [u], c, existing);
    NewIdsSingle(t, existing);
    NewIdsSingle(u, existing);
  }

  /** `existingIDs` after recording `ids`, each marked true. */
  function MarkAll(existing: map<string, bool>, ids: seq<string>): (r: map<string, bool>)
    ensures forall id :: id in ids ==> Recorded(r, id)
    ensures forall id :: Recorded(existing, id) ==> Recorded(r, id)
  {
    existing + map id | id in ids :: true
  }

  lemma {:induction false} AllRecordedNoNewIds(txns: seq<Transaction>, existing: map<string, bool>)
    requires forall p :: 0 <= p < |txns| ==> Recorded(existing, txns[p].id)
    ensures NewIds(txns, existing) == []
  {
    if txns != [] {
      AllRecordedNoNewIds(txns[..|txns| - 1], existing);
    }
  }

  /** Re-running with the emitted identifiers recorded emits nothing, whatever the visit orders. */
  lemma Idempotent(txns: seq<Transaction>, mapping: Mapping, orders: seq<seq<string>>, existing: map<string, bool>)
    requires |txns| <= |orders|
    requires AllEnumerations(orders, mapping)
    ensures NewRows(txns, mapping, orders, MarkAll(existing, NewIds(txns, existing))) == []
  {
    var ids := NewIds(txns, existing);
    var again := MarkAll(existing, ids);
    NewIdsExact(txns, existing);
    AllRecordedNoNewIds(txns, again);
    NewRowsAreNewIds(txns, mapping, orders, again);
  }

  /** One more transaction extends the rows by its own row, unless it is recorded. */
  lemma NewRowsStep(done: seq<Transaction>, txn: Transaction, mapping: Mapping, orders: seq<seq<string>>, existing: map<string, bool>)
    requires |done| < |orders|
    requires AllEnumerations(orders, mapping)
    ensures NewRows(done + [txn], mapping, orders, existing)
         == NewRows(done, mapping, orders, existing)
            + (if Recorded(existing, txn.id) then [] else [CreateRow(txn, mapping, orders[|done|])])
  {
    assert (done + [txn])[..|done|] == done;
  }

  /**
   * `processTransactions`: accounts then transactions, skipping recorded identifiers. The
   * counter `total` (Go's `totalTransactions`) picks the visit order of each transaction.
   */
  method ProcessTransactions(response: Response, mapping: Mapping, orders: seq<seq<string>>, existing: map<string, bool>)
    returns (newRows: seq<seq<Cell>>)
    requires |orders| == |Flatten(response.accounts)|
    requires AllEnumerations(orders, mapping)
    ensures newRows == NewRows(Flatten(response.accounts), mapping, orders, existing)
  {
    var accounts := response.accounts;
    newRows := [];
    var total := 0;
    ghost var done: seq<Transaction> := [];
    for i := 0 to |accounts|
      invariant done == Flatten(accounts[..i])
      invariant total == |done| <= |orders|
      invariant newRows == NewRows(done, mapping, orders, existing)
    {
      var account := accounts[i];
      assert |done + account.transactions| <= |orders| by { FlattenStep(accounts, i); }
      newRows, total := ProcessAccount(newRows, done, total, account.transactions, mapping, orders, existing);
      done := done + account.transactions;
      assert done == Flatten(accounts[..i + 1]) by { FlattenStep(accounts, i); }
    }
    assert accounts[..|accounts|] == accounts;
  }

  /** The inner loop of `processTransactions`, over the transactions of one account. */
  method ProcessAccount(rows: seq<seq<Cell>>, ghost done: seq<Transaction>, total: nat, txns: seq<Transaction>,
                        mapping: Mapping, orders: seq<seq<string>>, existing: map<string, bool>)
    returns (rows': seq<seq<Cell>>, total': nat)
    requires total == |done| && |done| + |txns| <= |orders|
    requires AllEnumerations(orders, mapping)
    requires rows == NewRows(done, mapping, orders, existing)
    ensures total' == total + |txns|
    ensures rows' == NewRows(done + txns, mapping, orders, existing)
  {
    rows', total' := rows, total;
    assert done + txns[..0] == done;
    for j := 0 to |txns|
      invariant total' == |done| + j
      invariant rows' == NewRows(done + txns[..j], mapping, orders, existing)
    {
      PrefixStep(done, txns, j);
      total' := total' + 1;
      rows' := AppendUnrecorded(rows', done + txns[..j], total' - 1, txns[j], mapping, orders, existing);
    }
    assert txns[..|txns|] == txns;
  }

  /** One step of the inner loop: the row of `txn` is appended unless its identifier is recorded. */
  method AppendUnrecorded(rows: seq<seq<Cell>>, ghost done: seq<Transaction>, total: nat, txn: Transaction, mapping: Mapping, orders: seq<seq<string>>, existing: map<string, bool>)
    returns (r: seq<seq<Cell>>)
    requires total == |done| < |orders|
    requires AllEnumerations(orders, mapping)
    requires rows == NewRows(done, mapping, orders, existing)
    ensures r == NewRows(done + [txn], mapping, orders, existing)
  {
    NewRowsStep(done, txn, mapping, orders, existing);
    r := rows;
    if !Recorded(existing, txn.id) {
      r := r + [CreateRow(txn, mapping, orders[total])];
    }
  }

  lemma PrefixStep<T>(done: seq<T>, s: seq<T>, j: nat)
    requires j < |s|
    ensures done + s[..j + 1] == (done + s[..j]) + [s[j]]
    ensures |done + s[..j]| == |done| + j
  {
    assert s[..j + 1] == s[..j] + [s[j]];
  }

  lemma FlattenStep(accounts: seq<Account>, i: nat)
    requires i < |accounts|
    ensures Flatten(accounts[..i + 1]) == Flatten(accounts[..i]) + accounts[i].transactions
    ensures |Flatten(accounts[..i + 1])| <= |Flatten(accounts)|
  {
    FlattenAppend(accounts[..i + 1], accounts[i + 1..]);
    assert accounts[..i + 1] + accounts[i + 1..] == accounts;
    assert accounts[..i + 1][..i] == accounts[..i];
  }

  /** A call made on the sheets client. */
  datatype Call =
    | GetCategoryMappingCall(sheetName: string)
    | GetExistingTransactionIDsCall(sheetName: string)
    | AppendRowsCall(sheetName: string, rows: seq<seq<Cell>>)
    | SortByDateCall(sheetName: string)

  /**
   * The `SheetsClient` interface as the command sees it: the replies it gives are fixed when it is
   * made, and every call is appended to `calls`.
   */
  class SheetsClient {
    const categoryMapping: Mapping
    const existingIds: map<string, bool>
    const getCategoryErr: Option<string>
    const getExistingIdsErr: Option<string>
    const appendRowsErr: Option<string>
    const sortByDateErr: Option<string>
    var calls: seq<Call>

    constructor (categoryMapping: Mapping, existingIds: map<string, bool>,
                 getCategoryErr: Option<string>, getExistingIdsErr: Option<string>,
                 appendRowsErr: Option<string>, sortByDateErr: Option<string>)
      ensures this.categoryMapping == categoryMapping && this.existingIds == existingIds
      ensures this.getCategoryErr == getCategoryErr && this.getExistingIdsErr == getExistingIdsErr
      ensures this.appendRowsErr == appendRowsErr && this.sortByDateErr == sortByDateErr
      ensures calls == []
    {
      this.categoryMapping := categoryMapping;
      this.existingIds := existingIds;
      this.getCategoryErr := getCategoryErr;
      this.getExistingIdsErr := getExistingIdsErr;
      this.appendRowsErr := appendRowsErr;
      this.sortByDateErr := sortByDateErr;
      calls := [];
    }

    method GetCategoryMapping(sheetName: string) returns (r: Result<Mapping, string>)
      modifies this
      ensures calls == old(calls) + [GetCategoryMappingCall(sheetName)]
      ensures r == if getCategoryErr.Some? then Failure(getCategoryErr.value) else Success(categoryMapping)
    {
      calls := calls + [GetCategoryMappingCall(sheetName)];
      r := if getCategoryErr.Some? then Failure(getCategoryErr.value) else Success(categoryMapping);
    }

    method GetExistingTransactionIDs(sheetName: string) returns (r: Result<map<string, bool>, string>)
      modifies this
      ensures calls == old(calls) + [GetExistingTransactionIDsCall(sheetName)]
      ensures r == if getExistingIdsErr.Some? then Failure(getExistingIdsErr.value) else Success(existingIds)
    {
      calls := calls + [GetExistingTransactionIDsCall(sheetName)];
      r := if getExistingIdsErr.Some? then Failure(getExistingIdsErr.value) else Success(existingIds);
    }

    method AppendRows(sheetName: string, rows: seq<seq<Cell>>) returns (err: Option<string>)
      modifies this
      ensures calls == old(calls) + [AppendRowsCall(sheetName, rows)]
      ensures err == appendRowsErr
    {
      calls := calls + [AppendRowsCall(sheetName, rows)];
      err := appendRowsErr;
    }

    method SortByDate(sheetName: string) returns (err: Option<string>)
      modifies this
      ensures calls == old(calls) + [SortByDateCall(sheetName)]
      ensures err == sortByDateErr
    {
      calls := calls + [SortByDateCall(sheetName)];
      err := sortByDateErr;
    }
  }

  /**
   * What `insertNewRows` leaves behind: no call at all for no rows; otherwise an append, then a
   * sort only if the append succeeded, each failure wrapped in its own message.
   */
  ghost predicate InsertedAs(client: SheetsClient, sheetName: string, rows: seq<seq<Cell>>, before: seq<Call>, err: Option<string>)
    reads client
  {
    if rows == [] then client.calls == before && err == None
    else if client.appendRowsErr.Some? then
      && client.calls == before + [AppendRowsCall(sheetName, rows)]
      && err == Some("failed to append rows: " + client.appendRowsErr.value)
    else
      && client.calls == before + [AppendRowsCall(sheetName, rows), SortByDateCall(sheetName)]
      && err == if client.sortByDateErr.Some? then Some("failed to sort sheet: " + client.sortByDateErr.value) else None
  }

  /** `insertNewRows`. */
  method InsertNewRows(client: SheetsClient, sheetName: string, newRows: seq<seq<Cell>>) returns (err: Option<string>)
    modifies client
    ensures InsertedAs(client, sheetName, newRows, old(client.calls), err)
  {
    if |newRows| == 0 {
      return None;
    }
    var appendErr := client.AppendRows(sheetName, newRows);
    if appendErr.Some? {
      return Some("failed to append rows: " + appendErr.value);
    }
    var sortErr := client.SortByDate(sheetName);
    if sortErr.Some? {
      return Some("failed to sort sheet: " + sortErr.value);
    }
    return None;
  }

  /**
   * `runWithClients`: the lookup sheet, then the recorded identifiers, then the SimpleFIN fetch
   * (whose outcome is `fetched`), then the insert. The first failure ends the run.
   */
  method RunWithClients(config: Config, client: SheetsClient, fetched: Result<Response, string>, orders: seq<seq<string>>)
    returns (err: Option<string>)
    requires fetched.Success? ==> |orders| == |Flatten(fetched.value.accounts)|
    requires AllEnumerations(orders, client.categoryMapping)
    modifies client
    ensures var gets := [GetCategoryMappingCall(config.google.mappingSheet), GetExistingTransactionIDsCall(config.google.sheetName)];
            if client.getCategoryErr.Some? then
              && client.calls == old(client.calls) + gets[..1]
              && err == Some("failed to get category mapping: " + client.getCategoryErr.value)
            else if client.getExistingIdsErr.Some? then
              && client.calls == old(client.calls) + gets
              && err == Some("failed to get existing transaction IDs: " + client.getExistingIdsErr.value)
            else if fetched.Failure? then
              && client.calls == old(client.calls) + gets
              && err == Some("failed to fetch transactions: " + fetched.error)
            else
              InsertedAs(client, config.google.sheetName,
                         NewRows(Flatten(fetched.value.accounts), client.categoryMapping, orders, client.existingIds),
                         old(client.calls) + gets, err)
  {
    ghost var gets := [GetCategoryMappingCall(config.google.mappingSheet), GetExistingTransactionIDsCall(config.google.sheetName)];
    var mapping := client.GetCategoryMapping(config.google.mappingSheet);
    assert client.calls == old(client.calls) + gets[..1];
    if mapping.Failure? {
      return Some("failed to get category mapping: " + mapping.error);
    }
    var existing := client.GetExistingTransactionIDs(config.google.sheetName);
    assert client.calls == old(client.calls) + gets;
    if existing.Failure? {
      return Some("failed to get existing transaction IDs: " + existing.error);
    }
    if fetched.Failure? {
      return Some("failed to fetch transactions: " + fetched.error);
    }
    var newRows := ProcessTransactions(fetched.value, mapping.value, orders, existing.value);
    err := InsertNewRows(client, config.google.sheetName, newRows);
  }
}
