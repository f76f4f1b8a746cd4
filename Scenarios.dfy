/** Worked batches: the sample file with one order that resolves and one
    that does not, a spreadsheet without a carrier column, a file whose
    columns cannot be identified, and an ambiguous header. Each string fact
    is its own small lemma, so that no proof has to search many literals. */
module Scenarios {
  import opened Text
  import opened Records
  import opened Schema
  import opened Remote
  import opened Reconcile
  import opened Batch
  import opened Handler

  /** A header's classification read off its lower-cased text. */
  lemma MatchesByLower(header: string, lower: string)
    requires ToLower(header) == lower
    ensures Matches(OrderColumn, header) == (Contains(lower, "order") || Contains(lower, "name") || lower == "id")
    ensures Matches(TrackingColumn, header) == (Contains(lower, "tracking") && !Contains(lower, "company") && !Contains(lower, "url"))
    ensures Matches(CarrierColumn, header) == (Contains(lower, "company") || Contains(lower, "carrier"))
  {
  }

  // ---- the sample file: Order Name, Tracking Number, Tracking Company

  lemma OrderNameFacts()
    ensures ToLower("Order Name") == "order name"
    ensures Contains("order name", "order")
  {
    ContainsPrefix("order name", "order");
  }

  /** The test words missing from "order name". */
  lemma OrderNameExcludes()
    ensures !Contains("order name", "tracking")
    ensures !Contains("order name", "company")
    ensures !Contains("order name", "carrier")
  {
    LacksChar("order name", "tracking", 't');
    LacksChar("order name", "company", 'c');
    LacksChar("order name", "carrier", 'c');
  }

  lemma OrderNameHeader()
    ensures Matches(OrderColumn, "Order Name") && !Matches(TrackingColumn, "Order Name") && !Matches(CarrierColumn, "Order Name")
  {
    OrderNameFacts();
    OrderNameExcludes();
    MatchesByLower("Order Name", "order name");
  }

  lemma TrackingNumberFacts()
    ensures ToLower("Tracking Number") == "tracking number"
    ensures Contains("tracking number", "tracking")
  {
    ContainsPrefix("tracking number", "tracking");
  }

  /** The test words missing from "tracking number". */
  lemma TrackingNumberExcludes()
    ensures !Contains("tracking number", "company")
    ensures !Contains("tracking number", "url")
  {
    LacksChar("tracking number", "company", 'y');
    LacksChar("tracking number", "url", 'l');
  }

  /** Every letter of "carrier" occurs in "tracking number", so the scan
      looks at its one "c" and the letter after it. */
  lemma TrackingNumberNotCarrier()
    ensures !Contains("tracking number", "carrier")
  {
    var s := "tracking number";
    forall k | 0 <= k <= |s| - 7 ensures !OccursAt(s, "carrier", k) {
      assert s[k..k + 7][0] == s[k] && s[k..k + 7][1] == s[k + 1];
      if k == 3 { assert s[k + 1] == 'k'; } else { assert s[k] != 'c'; }
    }
  }

  lemma TrackingNumberHeader()
    ensures Matches(TrackingColumn, "Tracking Number") && !Matches(CarrierColumn, "Tracking Number")
  {
    TrackingNumberFacts();
    TrackingNumberExcludes();
    TrackingNumberNotCarrier();
    MatchesByLower("Tracking Number", "tracking number");
  }

  lemma TrackingCompanyFacts()
    ensures ToLower("Tracking Company") == "tracking company"
    ensures Contains("tracking company", "company")
  {
    assert OccursAt("tracking company", "company", 9);
  }

  lemma TrackingCompanyHeader()
    ensures !Matches(TrackingColumn, "Tracking Company") && Matches(CarrierColumn, "Tracking Company")
  {
    TrackingCompanyFacts();
    MatchesByLower("Tracking Company", "tracking company");
  }

  function SampleHeaders(): seq<string> { ["Order Name", "Tracking Number", "Tracking Company"] }

  function SampleMapping(): ColumnMapping { ColumnMapping("Order Name", "Tracking Number", Some("Tracking Company")) }

  /** Header detection on the sample file's headers. */
  lemma SampleSchema()
    ensures InferSchema(SampleHeaders()) == Some(SampleMapping())
  {
    OrderNameHeader();
    TrackingNumberHeader();
    TrackingCompanyHeader();
  }

  function SampleRows(): seq<Row> {
    [ [Field("Order Name", "#1001"), Field("Tracking Number", "TRACK1"), Field("Tracking Company", "FedEx")],
      [Field("Order Name", "#1002"), Field("Tracking Number", "TRACK2"), Field("Tracking Company", "")] ]
  }

  /** A shop where #1001 has one open fulfillment order, nothing else
      exists, and every mutation succeeds. */
  function SampleShop(): Platform {
    Platform(
      (i: nat, q: string) =>
        if q == "#1001" then Edges([Order("gid://shopify/Order/1", "#1001", [FulfillmentOrder("gid://shopify/FulfillmentOrder/7", "OPEN")])])
        else Edges([]),
      (i: nat, input: FulfillmentInput) => UserErrors([]))
  }

  function SampleInput(): FulfillmentInput {
    FulfillmentInput("gid://shopify/FulfillmentOrder/7", TrackingInfo("TRACK1", Some("FedEx")))
  }

  /** A row whose order resolves and whose mutation reports no user error. */
  lemma RowFulfilled(i: nat, row: Row, m: ColumnMapping, p: Platform, id: string, number: string, fo: FulfillmentOrder)
    requires Lookup(row, m.order) == Some(id) && id != ""
    requires Lookup(row, m.tracking) == Some(number) && number != ""
    requires Resolve(p.lookup(i, id)) == Resolved(fo)
    requires Dispatch(p.dispatch(i, TrackingInput(fo.id, number, CompanyCell(row, m)))) == Fulfilled
    ensures RunRow(i, row, m, p) ==
            RowRun(Succeeded, [SearchOrder(i, id), CreateFulfillment(i, TrackingInput(fo.id, number, CompanyCell(row, m)))])
  {
  }

  /** A row whose order the search does not find. */
  lemma RowUnfound(i: nat, row: Row, m: ColumnMapping, p: Platform, id: string, number: string)
    requires Lookup(row, m.order) == Some(id) && id != ""
    requires Lookup(row, m.tracking) == Some(number) && number != ""
    requires Resolve(p.lookup(i, id)) == Unfound
    ensures RunRow(i, row, m, p) == RowRun(Failed(NotFoundMessage(id)), [SearchOrder(i, id)])
  {
  }

  lemma SampleFirstCells()
    ensures Lookup(SampleRows()[0], "Order Name") == Some("#1001")
    ensures Lookup(SampleRows()[0], "Tracking Number") == Some("TRACK1")
    ensures Lookup(SampleRows()[0], "Tracking Company") == Some("FedEx")
  {
  }

  lemma SampleSecondCells()
    ensures Lookup(SampleRows()[1], "Order Name") == Some("#1002")
    ensures Lookup(SampleRows()[1], "Tracking Number") == Some("TRACK2")
  {
  }

  lemma SampleFirstRow()
    ensures RunRow(0, SampleRows()[0], SampleMapping(), SampleShop()) ==
            RowRun(Succeeded, [SearchOrder(0, "#1001"), CreateFulfillment(0, SampleInput())])
  {
    SampleFirstCells();
    var fo := FulfillmentOrder("gid://shopify/FulfillmentOrder/7", "OPEN");
    assert Resolve(SampleShop().lookup(0, "#1001")) == Resolved(fo);
    assert TrackingInput(fo.id, "TRACK1", CompanyCell(SampleRows()[0], SampleMapping())) == SampleInput();
    RowFulfilled(0, SampleRows()[0], SampleMapping(), SampleShop(), "#1001", "TRACK1", fo);
  }

  lemma SampleSecondRow()
    ensures RunRow(1, SampleRows()[1], SampleMapping(), SampleShop()) ==
            RowRun(Failed("Order not found: #1002"), [SearchOrder(1, "#1002")])
  {
    SampleSecondCells();
    assert Resolve(SampleShop().lookup(1, "#1002")) == Unfound;
    RowUnfound(1, SampleRows()[1], SampleMapping(), SampleShop(), "#1002", "TRACK2");
  }

  function SampleRuns(): seq<RowRun> {
    [ RowRun(Succeeded, [SearchOrder(0, "#1001"), CreateFulfillment(0, SampleInput())]),
      RowRun(Failed("Order not found: #1002"), [SearchOrder(1, "#1002")]) ]
  }

  lemma SampleRunsComputed()
    ensures Runs(SampleRows(), SampleMapping(), SampleShop()) == SampleRuns()
  {
    SampleFirstRow();
    SampleSecondRow();
  }

  lemma SampleTally()
    ensures Tally(SampleRuns()) == Report(1, 1, ["Order not found: #1002"])
  {
    assert SampleRuns()[..1] == [SampleRuns()[0]];
    assert [SampleRuns()[0]][..0] == [];
  }

  lemma SampleTrace()
    ensures Trace(SampleRuns()) ==
            [SearchOrder(0, "#1001"), CreateFulfillment(0, SampleInput()), SearchOrder(1, "#1002")]
  {
    assert SampleRuns()[..1] == [SampleRuns()[0]];
    assert [SampleRuns()[0]][..0] == [];
  }

  /** The sample batch: one success, one failure with its message, and
      the calls in row order. */
  lemma SampleBatch()
    ensures BatchReport(SampleRows(), SampleMapping(), SampleShop()) == Report(1, 1, ["Order not found: #1002"])
    ensures Trace(Runs(SampleRows(), SampleMapping(), SampleShop())) ==
            [SearchOrder(0, "#1001"), CreateFulfillment(0, SampleInput()), SearchOrder(1, "#1002")]
  {
    SampleRunsComputed();
    SampleTally();
    SampleTrace();
  }

  lemma CsvName() ensures SelectFormat("orders.csv") == Some(DelimitedText) {
    assert ToLower("orders.csv") == "orders.csv";
  }

  lemma SampleKeys() ensures Keys(SampleRows()[0]) == SampleHeaders() {}

  lemma SampleResponse(decode: Format -> Decoded)
    requires decode(DelimitedText) == Parsed(SampleRows())
    ensures Handle(Some("orders.csv"), decode, SampleShop()).response == SuccessResponse(Report(1, 1, ["Order not found: #1002"]))
  {
    CsvName();
    SampleKeys();
    SampleSchema();
    SampleBatch();
    HandleRunsBatch("orders.csv", decode, SampleShop(), DelimitedText, SampleRows(), SampleMapping());
  }

  /** The calls the handler makes on the sample file: the text decoder,
      then the calls of the two rows (listed by `SampleTrace`). */
  lemma SampleCalls(decode: Format -> Decoded)
    requires decode(DelimitedText) == Parsed(SampleRows())
    ensures Handle(Some("orders.csv"), decode, SampleShop()).calls ==
            [DecodeFile(DelimitedText)] + Trace(Runs(SampleRows(), SampleMapping(), SampleShop()))
  {
    CsvName();
    SampleKeys();
    SampleSchema();
    assert |SampleRows()| == 2;
    HandleRunsBatch("orders.csv", decode, SampleShop(), DelimitedText, SampleRows(), SampleMapping());
  }

  // ---- a spreadsheet with headers OrderID, Tracking# and no carrier column

  lemma OrderIdFacts()
    ensures ToLower("OrderID") == "orderid"
    ensures Contains("orderid", "order")
  {
    ContainsPrefix("orderid", "order");
  }

  /** The test words missing from "orderid". */
  lemma OrderIdExcludes()
    ensures !Contains("orderid", "tracking")
    ensures !Contains("orderid", "company")
    ensures !Contains("orderid", "carrier")
  {
    LacksChar("orderid", "tracking", 't');
    LacksChar("orderid", "company", 'c');
    LacksChar("orderid", "carrier", 'c');
  }

  lemma OrderIdHeader()
    ensures Matches(OrderColumn, "OrderID") && !Matches(TrackingColumn, "OrderID") && !Matches(CarrierColumn, "OrderID")
  {
    OrderIdFacts();
    OrderIdExcludes();
    MatchesByLower("OrderID", "orderid");
  }

  lemma TrackingHashFacts()
    ensures ToLower("Tracking#") == "tracking#"
    ensures Contains("tracking#", "tracking")
  {
    ContainsPrefix("tracking#", "tracking");
  }

  /** The test words missing from "tracking#". */
  lemma TrackingHashExcludes()
    ensures !Contains("tracking#", "company")
    ensures !Contains("tracking#", "url")
    ensures !Contains("tracking#", "carrier")
  {
    LacksChar("tracking#", "company", 'o');
    LacksChar("tracking#", "url", 'u');
    LacksChar("tracking#", "carrier", 'e');
  }

  lemma TrackingHashHeader()
    ensures Matches(TrackingColumn, "Tracking#") && !Matches(CarrierColumn, "Tracking#")
  {
    TrackingHashFacts();
    TrackingHashExcludes();
    MatchesByLower("Tracking#", "tracking#");
  }

  /** No carrier column is found, which is allowed. */
  lemma SpreadsheetSchema()
    ensures InferSchema(["OrderID", "Tracking#"]) == Some(ColumnMapping("OrderID", "Tracking#", None))
  {
    OrderIdHeader();
    TrackingHashHeader();
  }

  lemma XlsxName() ensures SelectFormat("orders.xlsx") == Some(Spreadsheet) {
    assert ToLower("orders.xlsx") == "orders.xlsx";
  }

  /** Whatever the records and the platform, no mutation sent for this
      spreadsheet carries a company. */
  lemma SpreadsheetOmitsCompany(decode: Format -> Decoded, p: Platform, records: seq<Row>)
    requires decode(Spreadsheet) == Parsed(records) && records != []
    requires Keys(records[0]) == ["OrderID", "Tracking#"]
    ensures forall c :: c in Handle(Some("orders.xlsx"), decode, p).calls && c.CreateFulfillment? ==>
              c.input.trackingInfo.company == None
  {
    XlsxName();
    SpreadsheetSchema();
    var m := ColumnMapping("OrderID", "Tracking#", None);
    HandleRunsBatch("orders.xlsx", decode, p, Spreadsheet, records, m);
    NoCarrierColumnOmitsCompany(records, m, p);
  }

  // ---- a file with headers Date, Amount

  lemma DateFacts()
    ensures ToLower("Date") == "date"
  {
  }

  /** The test words missing from "date". */
  lemma DateExcludes()
    ensures !Contains("date", "order")
    ensures !Contains("date", "name")
  {
    LacksChar("date", "order", 'o');
    LacksChar("date", "name", 'n');
  }

  lemma DateHeader()
    ensures !Matches(OrderColumn, "Date")
  {
    DateFacts();
    DateExcludes();
    MatchesByLower("Date", "date");
  }

  lemma AmountFacts()
    ensures ToLower("Amount") == "amount"
  {
  }

  /** The test words missing from "amount". */
  lemma AmountExcludes()
    ensures !Contains("amount", "order")
    ensures !Contains("amount", "name")
  {
    LacksChar("amount", "order", 'r');
    LacksChar("amount", "name", 'e');
  }

  lemma AmountHeader()
    ensures !Matches(OrderColumn, "Amount")
  {
    AmountFacts();
    AmountExcludes();
    MatchesByLower("Amount", "amount");
  }

  /** Neither header can hold the order identifier. */
  lemma UnidentifiedSchema()
    ensures InferSchema(["Date", "Amount"]) == None
  {
    DateHeader();
    AmountHeader();
  }

  lemma UnidentifiedMessage()
    ensures ColumnsMessage(["Date", "Amount"]) == ColumnsPrefix + "Date, Amount"
  {
    assert ["Date", "Amount"][1..] == ["Amount"];
  }

  /** The batch is rejected naming both headers, and after decoding, no
      call is made. */
  lemma UnidentifiedColumnsRejected(decode: Format -> Decoded, p: Platform, records: seq<Row>)
    requires decode(DelimitedText) == Parsed(records) && records != []
    requires Keys(records[0]) == ["Date", "Amount"]
    ensures Handle(Some("orders.csv"), decode, p) ==
            Handling(ErrorResponse(ColumnsPrefix + "Date, Amount"), [DecodeFile(DelimitedText)])
  {
    CsvName();
    UnidentifiedSchema();
    UnidentifiedMessage();
    HandleRejectsSchema("orders.csv", decode, p, DelimitedText, records);
  }

  // ---- an ambiguous header

  lemma AmbiguousLower() ensures ToLower("Order Tracking Company") == "order tracking company" {}
  lemma AmbiguousHasOrder() ensures Contains("order tracking company", "order") {
    ContainsPrefix("order tracking company", "order");
  }
  lemma AmbiguousHasCompany() ensures Contains("order tracking company", "company") {
    assert OccursAt("order tracking company", "company", 15);
  }

  /** "Order Tracking Company" can serve as the order column and as the
      carrier column, never as the tracking column. */
  lemma AmbiguousHeader()
    ensures Matches(OrderColumn, "Order Tracking Company")
    ensures !Matches(TrackingColumn, "Order Tracking Company")
    ensures Matches(CarrierColumn, "Order Tracking Company")
  {
    AmbiguousLower();
    AmbiguousHasOrder();
    AmbiguousHasCompany();
    MatchesByLower("Order Tracking Company", "order tracking company");
  }
}
