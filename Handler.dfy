/** The `action` export as a whole: pick the decoder by suffix, decode,
    reject an empty batch or one whose columns cannot be found, run the
    rows, and answer with either an error message or the results. */
module Handler {
  import opened Text
  import opened Records
  import opened Schema
  import opened Remote
  import opened Reconcile
  import opened Batch

  /** The JSON answer: `{status: "error", message}` or
      `{status: "success", results}`. */
  datatype Response = ErrorResponse(message: string) | SuccessResponse(results: Report)

  /** The answer and every call made on the way to it. */
  datatype Handling = Handling(response: Response, calls: seq<Call>)

  const NoFileMessage: string := "No file uploaded. Please select a valid CSV, Excel, or TXT file."
  const UnsupportedMessage: string := "Unsupported file type. Please upload .csv, .xlsx, .xls, or .txt"
  const ParseErrorPrefix: string := "Error parsing file: "
  const NoRecordsMessage: string := "No records found in the uploaded file."
  const ColumnsPrefix: string := "Could not identify 'Order' and 'Tracking Number' columns. Found columns: "

  /** The message of a batch whose columns cannot be found: every header of
      the first record, joined by ", ". */
  function ColumnsMessage(headers: seq<string>): (msg: string)
    ensures ColumnsPrefix <= msg
    ensures forall j :: 0 <= j < |headers| ==> Contains(msg, headers[j])
  {
    var msg := ColumnsPrefix + Join(headers, ", ");
    forall j | 0 <= j < |headers| ensures Contains(msg, headers[j]) {
      ContainsInSuffix(msg, ColumnsPrefix, Join(headers, ", "), headers[j]);
    }
    msg
  }

  /** The handler. `file` is the uploaded file's name (None: no file part);
      `decode` is what each decoder makes of its bytes. */
  function Handle(file: Option<string>, decode: Format -> Decoded, p: Platform): (h: Handling)
    // nothing at all is called exactly when there is no file or no decoder for it
    ensures h.calls == [] <==> file.None? || SelectFormat(file.value).None?
    ensures h.calls == [] ==> h.response.ErrorResponse?
    // the answer is a success exactly when every batch-level guard passes
    ensures h.response.SuccessResponse? <==>
              file.Some? && SelectFormat(file.value).Some? &&
              decode(SelectFormat(file.value).value).Parsed? &&
              decode(SelectFormat(file.value).value).records != [] &&
              InferSchema(Keys(decode(SelectFormat(file.value).value).records[0])).Some?
  {
    match file
    case None => Handling(ErrorResponse(NoFileMessage), [])
    case Some(name) =>
      match SelectFormat(name)
      case None => Handling(ErrorResponse(UnsupportedMessage), [])
      case Some(f) =>
        match decode(f)
        case ParseError(msg) => Handling(ErrorResponse(ParseErrorPrefix + msg), [DecodeFile(f)])
        case Parsed(records) =>
          if records == [] then Handling(ErrorResponse(NoRecordsMessage), [DecodeFile(f)])
          else
            match InferSchema(Keys(records[0]))
            case None => Handling(ErrorResponse(ColumnsMessage(Keys(records[0]))), [DecodeFile(f)])
            case Some(m) =>
              Handling(SuccessResponse(BatchReport(records, m, p)), [DecodeFile(f)] + Trace(Runs(records, m, p)))
  }

  /** The handler, step by step. */
  method Action(file: Option<string>, decode: Format -> Decoded, p: Platform) returns (response: Response, calls: seq<Call>)
    ensures Handling(response, calls) == Handle(file, decode, p)
  {
    if file.None? {
      return ErrorResponse(NoFileMessage), [];
    }
    var filename := ToLower(file.value);
    var records: seq<Row>;
    var format: Format;
    if EndsWith(filename, ".csv") || EndsWith(filename, ".txt") {
      format := DelimitedText;
    } else if EndsWith(filename, ".xlsx") || EndsWith(filename, ".xls") {
      format := Spreadsheet;
    } else {
      return ErrorResponse(UnsupportedMessage), [];
    }
    calls := [DecodeFile(format)];
    match decode(format)
    case ParseError(msg) =>
      return ErrorResponse(ParseErrorPrefix + msg), calls;
    case Parsed(rs) =>
      records := rs;

    if |records| == 0 {
      return ErrorResponse(NoRecordsMessage), calls;
    }

    var headers := Keys(records[0]);
    var orderKey := FindKey(headers, OrderColumn);
    var trackingKey := FindKey(headers, TrackingColumn);
    var companyKey := FindKey(headers, CarrierColumn);
    if orderKey.None? || trackingKey.None? {
      return ErrorResponse(ColumnsPrefix + Join(headers, ", ")), calls;
    }

    var report, rowCalls := RunBatch(records, ColumnMapping(orderKey.value, trackingKey.value, companyKey), p);
    response := SuccessResponse(report);
    calls := calls + rowCalls;
  }

  /** The answer to a batch that passes every batch-level guard. */
  lemma HandleRunsBatch(name: string, decode: Format -> Decoded, p: Platform, f: Format, records: seq<Row>, m: ColumnMapping)
    requires SelectFormat(name) == Some(f) && decode(f) == Parsed(records) && records != []
    requires InferSchema(Keys(records[0])) == Some(m)
    ensures Handle(Some(name), decode, p) ==
            Handling(SuccessResponse(BatchReport(records, m, p)), [DecodeFile(f)] + Trace(Runs(records, m, p)))
  {
  }

  /** The answer to a batch whose columns cannot be found. */
  lemma HandleRejectsSchema(name: string, decode: Format -> Decoded, p: Platform, f: Format, records: seq<Row>)
    requires SelectFormat(name) == Some(f) && decode(f) == Parsed(records) && records != []
    requires InferSchema(Keys(records[0])) == None
    ensures Handle(Some(name), decode, p) == Handling(ErrorResponse(ColumnsMessage(Keys(records[0]))), [DecodeFile(f)])
  {
  }

  /** An unsupported suffix is answered before anything is decoded. */
  lemma UnsupportedDecodesNothing(name: string, decode: Format -> Decoded, p: Platform)
    requires SelectFormat(name) == None
    ensures Handle(Some(name), decode, p) == Handling(ErrorResponse(UnsupportedMessage), [])
  {
  }

  /** Only the decoder that the suffix selects is run, and it runs first. */
  lemma {:induction false} DecodesSelectedFormatOnly(name: string, decode: Format -> Decoded, p: Platform)
    requires SelectFormat(name).Some?
    ensures var calls := Handle(Some(name), decode, p).calls;
            |calls| >= 1 && calls[0] == DecodeFile(SelectFormat(name).value) &&
            forall c :: c in calls[1..] ==> IsRemote(c)
  {
    var f := SelectFormat(name).value;
    match decode(f)
    case ParseError(_) =>
    case Parsed(records) =>
      if records != [] && InferSchema(Keys(records[0])).Some? {
        var m := InferSchema(Keys(records[0])).value;
        var calls := Handle(Some(name), decode, p).calls;
        assert calls[1..] == Trace(Runs(records, m, p));
      }
  }

  /** Every batch-level error is answered before any row is looked at: no
      call to the platform is made. */
  lemma {:induction false} ErrorsMakeNoRemoteCall(file: Option<string>, decode: Format -> Decoded, p: Platform)
    ensures var h := Handle(file, decode, p);
            h.response.ErrorResponse? ==> |h.calls| <= 1 && forall c :: c in h.calls ==> !IsRemote(c)
  {
  }

  /** A request without a file part is answered with its own message,
      before anything is called. */
  lemma NoFileRejected(decode: Format -> Decoded, p: Platform)
    ensures Handle(None, decode, p) == Handling(ErrorResponse(NoFileMessage), [])
  {
  }

  /** A decoder failure is answered with the decoder's own message behind
      a fixed prefix, after the decoding call alone. */
  lemma ParseErrorRejected(name: string, decode: Format -> Decoded, p: Platform, msg: string)
    requires SelectFormat(name).Some? && decode(SelectFormat(name).value) == ParseError(msg)
    ensures Handle(Some(name), decode, p) ==
            Handling(ErrorResponse(ParseErrorPrefix + msg), [DecodeFile(SelectFormat(name).value)])
  {
  }

  /** An empty batch is rejected with its own message. */
  lemma EmptyBatchRejected(name: string, decode: Format -> Decoded, p: Platform)
    requires SelectFormat(name).Some? && decode(SelectFormat(name).value) == Parsed([])
    ensures Handle(Some(name), decode, p).response == ErrorResponse(NoRecordsMessage)
  {
  }

  /** A batch whose first record has no order or no tracking header is
      rejected with a message naming all of that record's headers. */
  lemma SchemaErrorNamesHeaders(name: string, decode: Format -> Decoded, p: Platform, records: seq<Row>)
    requires SelectFormat(name).Some? && decode(SelectFormat(name).value) == Parsed(records)
    requires records != []
    requires (forall j :: 0 <= j < |records[0]| ==> !Matches(OrderColumn, records[0][j].key)) ||
             (forall j :: 0 <= j < |records[0]| ==> !Matches(TrackingColumn, records[0][j].key))
    ensures var r := Handle(Some(name), decode, p).response;
            r == ErrorResponse(ColumnsPrefix + Join(Keys(records[0]), ", ")) &&
            forall j :: 0 <= j < |records[0]| ==> Contains(r.message, records[0][j].key)
  {
    var headers := Keys(records[0]);
    assert forall j :: 0 <= j < |records[0]| ==> headers[j] == records[0][j].key;
  }

  /** A successful answer accounts for every record exactly once, keeps at
      most `ErrorCap` messages plus the marker, and has at most one message
      per failed row. */
  lemma {:induction false} SuccessAccountsForEveryRow(name: string, decode: Format -> Decoded, p: Platform)
    requires Handle(Some(name), decode, p).response.SuccessResponse?
    ensures var rep := Handle(Some(name), decode, p).response.results;
            var f := SelectFormat(name).value;
            decode(f).Parsed? &&
            rep.success + rep.fail == |decode(f).records| &&
            |rep.errors| <= ErrorCap + 1 &&
            |rep.errors| <= rep.fail
  {
    var f := SelectFormat(name).value;
    var records := decode(f).records;
    var m := InferSchema(Keys(records[0])).value;
    CappedProperties(Tally(Runs(records, m, p)).errors);
  }

  /** On success the remote calls come row by row, in file order, and
      there are at least as many fulfillment mutations as counted successes. */
  lemma {:induction false} SuccessCallsInRowOrder(name: string, decode: Format -> Decoded, p: Platform)
    requires Handle(Some(name), decode, p).response.SuccessResponse?
    ensures InRowOrder(Handle(Some(name), decode, p).calls[1..])
    ensures Handle(Some(name), decode, p).response.results.success <= CountCreates(Handle(Some(name), decode, p).calls[1..])
  {
    var f := SelectFormat(name).value;
    var records := decode(f).records;
    var m := InferSchema(Keys(records[0])).value;
    RunsRowIndexed(records, m, p);
    TraceInRowOrder(Runs(records, m, p));
    RunsMutateOnSuccess(records, m, p);
    SuccessesFollowMutations(Runs(records, m, p));
    assert Handle(Some(name), decode, p).calls[1..] == Trace(Runs(records, m, p));
  }
}
