/**
 * The Python importer's SimpleFIN client after the download: receipts are attached to the
 * transactions they pay for, then lookup-sheet rules fill in categories and payee names.
 */
module SimpleFinClient {
  import opened Wrappers
  import opened Common
  import opened Sorting
  import opened PaperlessDocuments

  /**
   * A SimpleFIN transaction. The identifier, amount, texts and instants (seconds since the
   * epoch) are fixed once read; payee, category and receipt are updated in place.
   */
  class Transaction {
    const id: string
    const amount: Decimal
    const description: string
    const memo: string
    const posted: int
    const transactedAt: int
    var payee: string
    var category: Option<string>
    var receipt: Option<Document>

    constructor (id: string, amount: Decimal, description: string, memo: string, payee: string,
                 posted: int, transactedAt: int)
      ensures this.id == id && this.amount == amount && this.description == description
      ensures this.memo == memo && this.payee == payee && this.posted == posted
      ensures this.transactedAt == transactedAt && category == None && receipt == None
    {
      this.id := id;
      this.amount := amount;
      this.description := description;
      this.memo := memo;
      this.payee := payee;
      this.posted := posted;
      this.transactedAt := transactedAt;
      category := None;
      receipt := None;
    }
  }

  datatype Account = Account(transactions: seq<Transaction>)

  /** The number of transactions over all accounts. */
  function CountTransactions(accounts: seq<Account>): nat
  {
    if accounts == [] then 0
    else CountTransactions(accounts[..|accounts| - 1]) + |accounts[|accounts| - 1].transactions|
  }

  /** All transactions, account after account, each account's in its own order. */
  function Flatten(accounts: seq<Account>): (r: seq<Transaction>)
    ensures |r| == CountTransactions(accounts)
    ensures forall t :: t in r ==> exists i :: 0 <= i < |accounts| && t in accounts[i].transactions
  {
    if accounts == [] then []
    else Flatten(accounts[..|accounts| - 1]) + accounts[|accounts| - 1].transactions
  }

  /** Every transaction of every account is in the flattened list. */
  lemma {:induction false} FlattenContains(accounts: seq<Account>, i: nat, j: nat)
    requires i < |accounts| && j < |accounts[i].transactions|
    ensures accounts[i].transactions[j] in Flatten(accounts)
  {
    var n := |accounts| - 1;
    if i < n {
      assert accounts[..n][i] == accounts[i];
      FlattenContains(accounts[..n], i, j);
    }
  }

  lemma FlattenStep(accounts: seq<Account>, i: nat)
    requires i < |accounts|
    ensures Flatten(accounts[..i + 1]) == Flatten(accounts[..i]) + accounts[i].transactions
  {
    assert accounts[..i + 1][..i] == accounts[..i];
  }

  /** The calendar day (UTC) of an instant, counted from 1970-01-01. */
  function Day(epoch: int): int
  {
    epoch / 86400
  }

  /** A receipt is grouped only when its total is present and not zero. */
  predicate HasTotal(d: Document)
  {
    d.total.Some? && d.total.value != 0
  }

  /** The receipts a transaction of `amount` can take, in their input order. */
  function ReceiptsFor(receipts: seq<Document>, amount: Decimal): (r: seq<Document>)
    ensures |r| <= |receipts|
  {
    if receipts == [] then []
    else
      var d := receipts[|receipts| - 1];
      ReceiptsFor(receipts[..|receipts| - 1], amount) + (if HasTotal(d) && d.total.value == amount then [d] else [])
  }

  /** The candidates for `amount` are exactly the receipts with that total, zero excluded. */
  lemma {:induction false} ReceiptsForMembers(receipts: seq<Document>, amount: Decimal, d: Document)
    ensures d in ReceiptsFor(receipts, amount) <==> d in receipts && HasTotal(d) && d.total.value == amount
  {
    if receipts != [] {
      var n := |receipts| - 1;
      ReceiptsForMembers(receipts[..n], amount, d);
      assert receipts == receipts[..n] + [receipts[n]];
    }
  }

  /** `dict.get(amount, [])` on the grouped receipts. */
  function Lookup(grouped: map<Decimal, seq<Document>>, amount: Decimal): seq<Document>
  {
    if amount in grouped then grouped[amount] else []
  }

  /** The `defaultdict` of receipts keyed by total, built in the first loop of `attach_receipts`. */
  method GroupReceipts(receipts: seq<Document>) returns (grouped: map<Decimal, seq<Document>>)
    ensures forall amount :: Lookup(grouped, amount) == ReceiptsFor(receipts, amount)
    ensures forall amount :: amount in grouped ==> grouped[amount] != []
  {
    grouped := map[];
    for i := 0 to |receipts|
      invariant forall amount :: Lookup(grouped, amount) == ReceiptsFor(receipts[..i], amount)
      invariant forall amount :: amount in grouped ==> grouped[amount] != []
    {
      assert receipts[..i + 1][..i] == receipts[..i];
      var receipt := receipts[i];
      if HasTotal(receipt) {
        var total := receipt.total.value;
        grouped := grouped[total := Lookup(grouped, total) + [receipt]];
      }
    }
    assert receipts[..|receipts|] == receipts;
  }

  /** The earliest position holding the latest date. */
  function LatestIndex(documents: seq<Document>): (m: nat)
    requires |documents| > 0
    ensures m < |documents|
    ensures forall j :: 0 <= j < |documents| ==> documents[j].date <= documents[m].date
    ensures forall j :: 0 <= j < m ==> documents[j].date < documents[m].date
  {
    if |documents| == 1 then 0
    else
      var m := 1 + LatestIndex(documents[1..]);
      if documents[0].date >= documents[m].date then 0 else m
  }

  /**
   * The receipt `attach_receipts` picks among `documents`: the earliest one with the latest
   * date. Python finds it as the head of the list sorted by days from receipt to transaction.
   */
  function ChooseReceipt(documents: seq<Document>): (r: Option<Document>)
    ensures r.None? <==> documents == []
  {
    if documents == [] then None else Some(documents[LatestIndex(documents)])
  }

  /** Python's sort key: the days from the receipt's date to the transaction's. */
  function DaysBefore(transactedAt: int): Document -> int
  {
    (d: Document) => Day(transactedAt) - d.date
  }

  /**
   * `next(iter(sorted(documents, key=...)), None)` is `ChooseReceipt`, whatever the
   * transaction's instant: the key shifts every date by the same amount.
   */
  lemma {:induction false} ChooseReceiptIsFirstSorted(documents: seq<Document>, transactedAt: int)
    ensures ChooseReceipt(documents)
            == if documents == [] then None else Some(SortBy(documents, DaysBefore(transactedAt))[0])
  {
    if documents != [] {
      var key := DaysBefore(transactedAt);
      SortByHead(documents, key);
      var m := FirstMinIndex(documents, key);
      var l := LatestIndex(documents);
      assert key(documents[m]) <= key(documents[l]) && key(documents[l]) <= key(documents[m]);
    }
  }

  /**
   * A transaction's receipt and category once `attach_receipts` has looked at candidates
   * `documents`: the receipt chosen among them (or none) and that receipt's category (or none).
   */
  predicate Chosen(receipt: Option<Document>, category: Option<string>, documents: seq<Document>)
  {
    receipt == ChooseReceipt(documents) && category == CategoryOf(receipt)
  }

  /** The category a transaction takes from its receipt: the receipt's, or none. */
  function CategoryOf(receipt: Option<Document>): Option<string>
  {
    if receipt.Some? then receipt.value.category else None
  }

  /** What `attach_receipts` leaves on a transaction of `amount`, given all the receipts. */
  predicate Attached(receipt: Option<Document>, category: Option<string>, amount: Decimal, receipts: seq<Document>)
  {
    Chosen(receipt, category, ReceiptsFor(receipts, amount))
  }

  /** Sort key of the final sort: descending on the transaction instant. */
  function Newest(t: Transaction): int
  {
    -t.transactedAt
  }

  /**
   * `attach_receipts`: every transaction gets its receipt (or none) and that receipt's category
   * (or none); the transactions are returned newest first.
   */
  method AttachReceipts(accounts: seq<Account>, receipts: seq<Document>) returns (transactions: seq<Transaction>)
    modifies set t | t in Flatten(accounts)
    ensures transactions == SortBy(Flatten(accounts), Newest)
    ensures forall t :: t in Flatten(accounts) ==> Attached(t.receipt, t.category, t.amount, receipts) && t.payee == old(t.payee)
  {
    var grouped := GroupReceipts(receipts);
    transactions := [];
    for i := 0 to |accounts|
      invariant transactions == Flatten(accounts[..i])
      invariant forall t :: t in transactions ==> Attached(t.receipt, t.category, t.amount, receipts)
      invariant forall t :: t in Flatten(accounts) ==> t.payee == old(t.payee)
    {
      var account := accounts[i];
      assert forall t :: t in account.transactions ==> t in Flatten(accounts) by {
        forall t | t in account.transactions
          ensures t in Flatten(accounts)
        {
          var j :| 0 <= j < |account.transactions| && account.transactions[j] == t;
          FlattenContains(accounts, i, j);
        }
      }
      ghost var before := transactions;
      AttachAccount(account.transactions, grouped, receipts);
      forall t | t in before + account.transactions
        ensures Attached(t.receipt, t.category, t.amount, receipts)
      {
        if t !in account.transactions {
          assert t in before;
        }
      }
      assert Flatten(accounts[..i + 1]) == transactions + account.transactions by { FlattenStep(accounts, i); }
      transactions := transactions + account.transactions;
    }
    assert accounts[..|accounts|] == accounts;
    transactions := SortBy(transactions, Newest);
  }

  /** The inner loop of `attach_receipts`, over the transactions of one account. */
  method AttachAccount(transactions: seq<Transaction>, grouped: map<Decimal, seq<Document>>, ghost receipts: seq<Document>)
    requires forall amount :: Lookup(grouped, amount) == ReceiptsFor(receipts, amount)
    modifies set t | t in transactions
    ensures forall t :: t in transactions ==> Attached(t.receipt, t.category, t.amount, receipts)
    ensures forall t :: t in transactions ==> t.payee == old(t.payee)
  {
    AttachEach(transactions, grouped);
    ChosenIsAttached(transactions, grouped, receipts);
  }

  /** The same loop, choosing each receipt among the grouped candidates for its amount. */
  method AttachEach(transactions: seq<Transaction>, grouped: map<Decimal, seq<Document>>)
    modifies set t | t in transactions
    ensures forall k :: 0 <= k < |transactions| ==>
              Chosen(transactions[k].receipt, transactions[k].category, Lookup(grouped, transactions[k].amount))
    ensures forall t :: t in transactions ==> t.payee == old(t.payee)
  {
    for j := 0 to |transactions|
      invariant forall k :: 0 <= k < j ==>
                  Chosen(transactions[k].receipt, transactions[k].category, Lookup(grouped, transactions[k].amount))
      invariant forall t :: t in transactions ==> t.payee == old(t.payee)
    {
      AttachReceipt(transactions[j], grouped);
    }
  }

  /** A choice made among the grouped candidates is the choice among all receipts. */
  lemma ChosenIsAttached(transactions: seq<Transaction>, grouped: map<Decimal, seq<Document>>, receipts: seq<Document>)
    requires forall amount :: Lookup(grouped, amount) == ReceiptsFor(receipts, amount)
    requires forall k :: 0 <= k < |transactions| ==>
               Chosen(transactions[k].receipt, transactions[k].category, Lookup(grouped, transactions[k].amount))
    ensures forall t :: t in transactions ==> Attached(t.receipt, t.category, t.amount, receipts)
  {
    forall t | t in transactions
      ensures Attached(t.receipt, t.category, t.amount, receipts)
    {
      var k :| 0 <= k < |transactions| && transactions[k] == t;
      assert Chosen(t.receipt, t.category, Lookup(grouped, t.amount));
    }
  }

  /** The body of the inner loop of `attach_receipts`, for one transaction. */
  method AttachReceipt(transaction: Transaction, grouped: map<Decimal, seq<Document>>)
    modifies transaction
    ensures Chosen(transaction.receipt, transaction.category, Lookup(grouped, transaction.amount))
    ensures transaction.payee == old(transaction.payee)
  {
    var documents := Lookup(grouped, transaction.amount);
    var sorted := SortBy(documents, DaysBefore(transaction.transactedAt));
    var document := if sorted == [] then None else Some(sorted[0]);
    ChooseReceiptIsFirstSorted(documents, transaction.transactedAt);
    transaction.category := if document.Some? then document.value.category else None;
    transaction.receipt := document;
  }

  /** An attached receipt's total is the transaction's amount, and never zero. */
  lemma AttachedReceiptMatchesAmount(t: Transaction, receipts: seq<Document>)
    requires Attached(t.receipt, t.category, t.amount, receipts)
    requires t.receipt.Some?
    ensures t.receipt.value in receipts && t.receipt.value.total == Some(t.amount) && t.amount != 0
  {
    ReceiptsForMembers(receipts, t.amount, t.receipt.value);
  }

  /**
   * The list `attach_receipts` returns holds each transaction as often as the accounts do,
   * newest first, transactions with the same instant in account-then-transaction order.
   */
  lemma NewestFirst(xs: seq<Transaction>)
    ensures multiset(SortBy(xs, Newest)) == multiset(xs)
    ensures forall i, j :: 0 <= i < j < |xs| ==> SortBy(xs, Newest)[i].transactedAt >= SortBy(xs, Newest)[j].transactedAt
    ensures forall k :: KeyFilter(SortBy(xs, Newest), Newest, k) == KeyFilter(xs, Newest, k)
  {
    SortBySorted(xs, Newest);
    forall k
      ensures KeyFilter(SortBy(xs, Newest), Newest, k) == KeyFilter(xs, Newest, k)
    {
      SortByStable(xs, Newest, k);
    }
  }

  /** The payee and category of a transaction, the two fields categorising may change. */
  datatype Labels = Labels(payee: string, category: Option<string>)

  /**
   * One step of `categorize_transactions`: an exact lookup of the payee, so a payee that is not
   * a key is left alone. A truthy category is never overwritten; a falsy one is filled exactly
   * when the rule's category is truthy; the payee is replaced exactly when the rule's name is
   * truthy.
   */
  function Categorize(mapping: map<string, Category>, l: Labels): (r: Labels)
    ensures l.payee !in mapping ==> r == l
    ensures Truthy(l.category) ==> r.category == l.category
    ensures r.category != l.category <==>
              l.payee in mapping && !Truthy(l.category) && Truthy(mapping[l.payee].category)
              && mapping[l.payee].category != l.category
    ensures r.category != l.category ==> r.category == mapping[l.payee].category
    ensures r.payee != l.payee ==> l.payee in mapping && Truthy(mapping[l.payee].name)
    ensures l.payee in mapping && Truthy(mapping[l.payee].name) ==> Some(r.payee) == mapping[l.payee].name
  {
    var rule := if l.payee in mapping then mapping[l.payee] else Category(None, None);
    var category := if !Truthy(l.category) && Truthy(rule.category) then rule.category else l.category;
    var payee := if Truthy(rule.name) then rule.name.value else l.payee;
    Labels(payee, category)
  }

  /** `k` categorising steps: a transaction object listed `k` times is categorised `k` times. */
  function CategorizeTimes(mapping: map<string, Category>, l: Labels, k: nat): Labels
  {
    if k == 0 then l else Categorize(mapping, CategorizeTimes(mapping, l, k - 1))
  }

  /** However often a transaction is categorised, a truthy category stays. */
  lemma {:induction false} CategorizeTimesKeepsCategory(mapping: map<string, Category>, l: Labels, k: nat)
    requires Truthy(l.category)
    ensures CategorizeTimes(mapping, l, k).category == l.category
  {
    if k > 0 {
      CategorizeTimesKeepsCategory(mapping, l, k - 1);
    }
  }

  /** A payee that is not a key is left alone however often it is categorised. */
  lemma {:induction false} CategorizeTimesMissingKey(mapping: map<string, Category>, l: Labels, k: nat)
    requires l.payee !in mapping
    ensures CategorizeTimes(mapping, l, k) == l
  {
    if k > 0 {
      CategorizeTimesMissingKey(mapping, l, k - 1);
    }
  }

  /** However often a transaction is categorised, its category is its own or a truthy rule category. */
  lemma {:induction false} CategorizeTimesSource(mapping: map<string, Category>, l: Labels, k: nat)
    ensures var c := CategorizeTimes(mapping, l, k).category;
            c == l.category || exists key :: key in mapping && Truthy(mapping[key].category) && c == mapping[key].category
  {
    if k > 0 {
      CategorizeTimesSource(mapping, l, k - 1);
    }
  }

  /** How often each object occurs grows by one for the next element only. */
  lemma CountStep(transactions: seq<Transaction>, i: nat)
    requires i < |transactions|
    ensures forall t :: multiset(transactions[..i + 1])[t]
                        == multiset(transactions[..i])[t] + (if t == transactions[i] then 1 else 0)
  {
    assert transactions[..i + 1] == transactions[..i] + [transactions[i]];
  }

  /** The body of the loop of `categorize_transactions`, for one transaction. */
  method CategorizeOne(transaction: Transaction, mapping: map<string, Category>)
    modifies transaction
    ensures Labels(transaction.payee, transaction.category) == Categorize(mapping, old(Labels(transaction.payee, transaction.category)))
    ensures transaction.receipt == old(transaction.receipt)
  {
    var rule := if transaction.payee in mapping then mapping[transaction.payee] else Category(None, None);
    if !Truthy(transaction.category) && Truthy(rule.category) {
      transaction.category := rule.category;
    }
    if Truthy(rule.name) {
      transaction.payee := rule.name.value;
    }
  }

  /**
   * `categorize_transactions`. Each listed object is updated once per occurrence in the list,
   * and nothing but payees and categories changes.
   */
  method CategorizeTransactions(transactions: seq<Transaction>, mapping: map<string, Category>)
    modifies set t | t in transactions
    ensures forall t :: t in transactions ==>
              Labels(t.payee, t.category) == CategorizeTimes(mapping, old(Labels(t.payee, t.category)), multiset(transactions)[t])
    ensures forall t :: t in transactions ==> t.receipt == old(t.receipt)
  {
    for i := 0 to |transactions|
      invariant forall t :: t in transactions ==>
                  Labels(t.payee, t.category) == CategorizeTimes(mapping, old(Labels(t.payee, t.category)), multiset(transactions[..i])[t])
      invariant forall t :: t in transactions ==> t.receipt == old(t.receipt)
    {
      var transaction := transactions[i];
      CategorizeOne(transaction, mapping);
      CountStep(transactions, i);
      forall t | t in transactions
        ensures Labels(t.payee, t.category) == CategorizeTimes(mapping, old(Labels(t.payee, t.category)), multiset(transactions[..i + 1])[t])
      {
        if t == transaction {
          assert multiset(transactions[..i + 1])[t] == multiset(transactions[..i])[t] + 1;
        } else {
          assert multiset(transactions[..i + 1])[t] == multiset(transactions[..i])[t];
        }
      }
    }
    assert transactions[..|transactions|] == transactions;
  }
}
