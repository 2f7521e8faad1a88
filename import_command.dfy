/**
 * The Python importer's command: the check of its command-line arguments, and the order in
 * which it reads the rules, attaches receipts, categorises and selects the rows to insert.
 */
module ImportCommand {
  import opened Wrappers
  import opened Strings
  import opened Common
  import opened Sorting
  import opened PaperlessDocuments
  import opened SimpleFinClient
  import opened GspreadClient

  /** The command-line arguments; every one is a string, empty when not given. */
  datatype Args = Args(
    simplefinUsername: string,
    simplefinPassword: string,
    simplefinAccessUrl: string,
    paperlessUrl: string,
    paperlessToken: string,
    googleCredentials: string,
    sheetsSpreadsheetId: string,
    sheetsRangeName: string,
    mappingRangeName: string)

  const SimpleFinMissing := "SimpleFin credentials are required"
  const PaperlessMissing := "Paperless credentials are required"
  const GoogleMissing := "Google credentials are required"

  /** Python's `any(...)` over strings: some string is not empty. */
  predicate AnyGiven(fields: seq<string>)
  {
    exists i :: 0 <= i < |fields| && fields[i] != ""
  }

  predicate SimpleFinGiven(args: Args)
  {
    AnyGiven([args.simplefinUsername, args.simplefinPassword, args.simplefinAccessUrl])
  }

  predicate PaperlessGiven(args: Args)
  {
    AnyGiven([args.paperlessUrl, args.paperlessToken])
  }

  predicate GoogleGiven(args: Args)
  {
    AnyGiven([args.googleCredentials, args.sheetsSpreadsheetId])
  }

  /** The messages of the credential groups with nothing given, in the order they are checked. */
  function Missing(args: Args): seq<string>
  {
    (if SimpleFinGiven(args) then [] else [SimpleFinMissing])
    + (if PaperlessGiven(args) then [] else [PaperlessMissing])
    + (if GoogleGiven(args) then [] else [GoogleMissing])
  }

  /** The message of `Args.Error`. */
  function ErrorMessage(missing: seq<string>): string
  {
    "Missing CLI Args \n" + Join(missing, "\n")
  }

  /**
   * `Args.__post_init__`: the message of the error it raises, or None when every credential
   * group has a field given.
   */
  method ValidateArgs(args: Args) returns (err: Option<string>)
    ensures err.None? <==> Missing(args) == []
    ensures err.Some? ==> err.value == ErrorMessage(Missing(args))
  {
    var errors: seq<string> := [];
    if !AnyGiven([args.simplefinUsername, args.simplefinPassword, args.simplefinAccessUrl]) {
      errors := errors + [SimpleFinMissing];
    }
    if !AnyGiven([args.paperlessUrl, args.paperlessToken]) {
      errors := errors + [PaperlessMissing];
    }
    if !AnyGiven([args.googleCredentials, args.sheetsSpreadsheetId]) {
      errors := errors + [GoogleMissing];
    }
    assert errors == Missing(args);
    if errors != [] {
      err := Some(ErrorMessage(errors));
    } else {
      err := None;
    }
  }

  /**
   * The arguments are accepted exactly when some SimpleFIN field, some Paperless field and some
   * Google field is given; the sheet and range names are never checked.
   */
  lemma MissingIff(args: Args)
    ensures Missing(args) == [] <==>
              && (args.simplefinUsername != "" || args.simplefinPassword != "" || args.simplefinAccessUrl != "")
              && (args.paperlessUrl != "" || args.paperlessToken != "")
              && (args.googleCredentials != "" || args.sheetsSpreadsheetId != "")
  {
    var s := [args.simplefinUsername, args.simplefinPassword, args.simplefinAccessUrl];
    var p := [args.paperlessUrl, args.paperlessToken];
    var g := [args.googleCredentials, args.sheetsSpreadsheetId];
    assert AnyGiven(s) <==> s[0] != "" || s[1] != "" || s[2] != "";
    assert AnyGiven(p) <==> p[0] != "" || p[1] != "";
    assert AnyGiven(g) <==> g[0] != "" || g[1] != "";
  }

  /**
   * Each group's message is reported exactly when the group has nothing given, at most once,
   * and SimpleFIN before Paperless before Google.
   */
  lemma MissingMessages(args: Args)
    ensures SimpleFinMissing in Missing(args) <==> !SimpleFinGiven(args)
    ensures PaperlessMissing in Missing(args) <==> !PaperlessGiven(args)
    ensures GoogleMissing in Missing(args) <==> !GoogleGiven(args)
    ensures forall i, j :: 0 <= i < j < |Missing(args)| ==> GroupRank(Missing(args)[i]) < GroupRank(Missing(args)[j])
  {
  }

  /** The position of a group's message in the order the groups are checked. */
  function GroupRank(message: string): nat
  {
    if message == SimpleFinMissing then 0 else if message == PaperlessMissing then 1 else 2
  }

  /** With no credentials at all, the message names the three groups on their own lines. */
  lemma NothingGivenMessage(args: Args)
    requires args.simplefinUsername == args.simplefinPassword == args.simplefinAccessUrl == ""
    requires args.paperlessUrl == args.paperlessToken == ""
    requires args.googleCredentials == args.sheetsSpreadsheetId == ""
    ensures ErrorMessage(Missing(args))
            == "Missing CLI Args \n" + SimpleFinMissing + "\n" + PaperlessMissing + "\n" + GoogleMissing
  {
    var m := Missing(args);
    assert m == [SimpleFinMissing, PaperlessMissing, GoogleMissing] by {
      assert !SimpleFinGiven(args) && !PaperlessGiven(args) && !GoogleGiven(args);
    }
    assert Join(m, "\n") == SimpleFinMissing + "\n" + PaperlessMissing + "\n" + GoogleMissing by {
      JoinThree(SimpleFinMissing, PaperlessMissing, GoogleMissing, "\n");
    }
  }

  lemma JoinThree(a: string, b: string, c: string, sep: string)
    ensures Join([a, b, c], sep) == a + sep + b + sep + c
  {
    assert [a, b, c][1..] == [b, c] && [b, c][1..] == [c];
    assert Join([b, c], sep) == b + sep + c;
    assert a + sep + (b + sep + c) == a + sep + b + sep + c;
  }

  /**
   * The receipt is attached before the rules are applied: a receipt with a truthy category
   * decides the category, and a rule's category can only fill in where the receipt gave none.
   */
  lemma ReceiptBeforeRules(mapping: map<string, Category>, payee: string, receipt: Option<Document>, k: nat)
    ensures var c := CategorizeTimes(mapping, Labels(payee, CategoryOf(receipt)), k).category;
            && (Truthy(CategoryOf(receipt)) ==> c == CategoryOf(receipt))
            && (c != CategoryOf(receipt) ==>
                  && !Truthy(CategoryOf(receipt))
                  && exists key :: key in mapping && Truthy(mapping[key].category) && c == mapping[key].category)
  {
    var l := Labels(payee, CategoryOf(receipt));
    if Truthy(CategoryOf(receipt)) {
      CategorizeTimesKeepsCategory(mapping, l, k);
    }
    CategorizeTimesSource(mapping, l, k);
  }

  /**
   * `main` after the downloads: the rules come from the lookup sheet's values, receipts are
   * attached, the rules applied, and the rows to insert selected against the transactions
   * sheet's values. A lookup sheet that cannot be read stops the command before any
   * transaction is touched.
   */
  method Import(mappingValues: seq<seq<string>>, documents: seq<Document>, accounts: seq<Account>,
                sheetValues: seq<seq<string>>)
    returns (records: Result<seq<seq<Cell>>, PyError>, transactions: seq<Transaction>)
    modifies set t | t in Flatten(accounts)
    ensures CategoryMapping(mappingValues).Failure? ==>
              && records == Failure(CategoryMapping(mappingValues).error) && transactions == []
              && forall t :: t in Flatten(accounts) ==>
                   t.payee == old(t.payee) && t.category == old(t.category) && t.receipt == old(t.receipt)
    ensures CategoryMapping(mappingValues).Success? ==>
              && transactions == SortBy(Flatten(accounts), Newest)
              && records == RecordsToInsert(sheetValues, transactions)
    ensures CategoryMapping(mappingValues).Success? ==>
              forall t :: t in Flatten(accounts) ==>
                && t.receipt == ChooseReceipt(ReceiptsFor(documents, t.amount))
                && Labels(t.payee, t.category)
                   == CategorizeTimes(CategoryMapping(mappingValues).value.1,
                                      Labels(old(t.payee), CategoryOf(t.receipt)),
                                      multiset(Flatten(accounts))[t])
  {
    var read := CategoryMapping(mappingValues);
    if read.Failure? {
      return Failure(read.error), [];
    }
    var mapping := read.value.1;
    transactions := AttachReceipts(accounts, documents);
    assert multiset(transactions) == multiset(Flatten(accounts)) by { NewestFirst(Flatten(accounts)); }
    assert forall t :: t in transactions <==> t in Flatten(accounts) by {
      forall t
        ensures t in transactions <==> t in Flatten(accounts)
      {
        assert t in transactions <==> t in multiset(transactions);
        assert t in Flatten(accounts) <==> t in multiset(Flatten(accounts));
      }
    }
    CategorizeTransactions(transactions, mapping);
    records := RecordsToInsert(sheetValues, transactions);
  }
}
