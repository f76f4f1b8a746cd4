/** The batch of rows: the row loop over a mutable results accumulator
    and the cap on the error list. `BatchReport` and `Trace` specify the
    batch as functions; the step-by-step `RunBatch` is proved to agree with
    them. */
module Batch {
  import opened Text
  import opened Records
  import opened Schema
  import opened Remote
  import opened Reconcile

  /** The `results` object handed back on success. */
  datatype Report = Report(success: nat, fail: nat, errors: seq<string>)

  /** The effect of one row outcome on the accumulated report. */
  function Step(rep: Report, outcome: Outcome): (r: Report)
    ensures r.success + r.fail == rep.success + rep.fail + 1
    ensures r.success == rep.success + 1 <==> outcome == Succeeded
    ensures rep.errors <= r.errors
    ensures |r.errors| == |rep.errors| + 1 <==> outcome.Failed?
    ensures outcome != Succeeded ==> r.success == rep.success && r.fail == rep.fail + 1
    ensures outcome.Failed? ==> r.errors == rep.errors + [outcome.message]
    ensures !outcome.Failed? ==> r.errors == rep.errors
  {
    match outcome
    case Succeeded => rep.(success := rep.success + 1)
    case Skipped => rep.(fail := rep.fail + 1)
    case Failed(msg) => rep.(fail := rep.fail + 1, errors := rep.errors + [msg])
  }

  /** What every row of a batch does, in file order. */
  function Runs(rows: seq<Row>, m: ColumnMapping, p: Platform): (runs: seq<RowRun>)
    ensures |runs| == |rows|
    ensures forall i :: 0 <= i < |rows| ==> runs[i] == RunRow(i, rows[i], m, p)
  {
    seq(|rows|, i requires 0 <= i < |rows| => RunRow(i, rows[i], m, p))
  }

  /** The report after the given rows, before the cap. */
  function Tally(runs: seq<RowRun>): (rep: Report)
    ensures rep.success + rep.fail == |runs|
    ensures |rep.errors| <= rep.fail
  {
    if runs == [] then Report(0, 0, [])
    else Step(Tally(runs[..|runs| - 1]), runs[|runs| - 1].outcome)
  }

  /** The calls made by the given rows, in order. */
  function Trace(runs: seq<RowRun>): (calls: seq<Call>)
    ensures forall c :: c in calls ==> exists j :: 0 <= j < |runs| && c in runs[j].calls
  {
    if runs == [] then []
    else
      var before := runs[..|runs| - 1];
      var calls := Trace(before) + runs[|runs| - 1].calls;
      assert forall j :: 0 <= j < |before| ==> before[j] == runs[j];
      calls
  }

  /** Each row's calls are remote calls made for that row. */
  ghost predicate RowIndexed(runs: seq<RowRun>) {
    forall j, c :: 0 <= j < |runs| && c in runs[j].calls ==> IsRemote(c) && c.row == j
  }

  lemma RunsRowIndexed(rows: seq<Row>, m: ColumnMapping, p: Platform)
    ensures RowIndexed(Runs(rows, m, p))
  {
  }

  /** The row a call was made for (decoding belongs to no row). */
  function RowOf(c: Call): nat {
    if IsRemote(c) then c.row else 0
  }

  /** Rows are handled one after another: the remote calls of a row all come
      after those of every earlier row. */
  predicate InRowOrder(calls: seq<Call>) {
    forall a, b :: 0 <= a < b < |calls| ==> RowOf(calls[a]) <= RowOf(calls[b])
  }

  lemma {:induction false} TraceInRowOrder(runs: seq<RowRun>)
    requires RowIndexed(runs)
    ensures InRowOrder(Trace(runs))
    ensures forall c :: c in Trace(runs) ==> IsRemote(c) && c.row < |runs|
  {
    if runs != [] {
      var n := |runs|;
      var init := runs[..n - 1];
      assert forall j :: 0 <= j < n - 1 ==> init[j] == runs[j];
      TraceInRowOrder(init);
      var before := Trace(init);
      var last := runs[n - 1].calls;
      var calls := before + last;
      assert Trace(runs) == calls;
      assert forall c :: c in last ==> IsRemote(c) && c.row == n - 1;
      forall a, b | 0 <= a < b < |calls| ensures RowOf(calls[a]) <= RowOf(calls[b]) {
        if b < |before| {
          assert calls[a] == before[a] && calls[b] == before[b];
        } else if a < |before| {
          assert calls[a] == before[a] && calls[a] in before;
          assert calls[b] == last[b - |before|] && calls[b] in last;
          assert RowOf(calls[b]) == n - 1;
        } else {
          assert calls[a] == last[a - |before|] && calls[b] == last[b - |before|];
          assert RowOf(calls[a]) == n - 1 && RowOf(calls[b]) == n - 1;
        }
      }
      forall c | c in calls ensures IsRemote(c) && c.row < n {
        if c !in before {
          assert c in last;
        }
      }
    }
  }

  /** Without a carrier column no mutation carries a company: the
      platform is left to infer the carrier. */
  lemma NoCarrierColumnOmitsCompany(rows: seq<Row>, m: ColumnMapping, p: Platform)
    requires m.carrier == None
    ensures forall c :: c in Trace(Runs(rows, m, p)) && c.CreateFulfillment? ==> c.input.trackingInfo.company == None
  {
    var runs := Runs(rows, m, p);
    forall c | c in Trace(runs) && c.CreateFulfillment? ensures c.input.trackingInfo.company == None {
      var j :| 0 <= j < |runs| && c in runs[j].calls;
      NoCarrierRowOmitsCompany(j, rows[j], m, p);
    }
  }

  lemma NoCarrierRowOmitsCompany(i: nat, row: Row, m: ColumnMapping, p: Platform)
    requires m.carrier == None
    ensures forall c :: c in RunRow(i, row, m, p).calls && c.CreateFulfillment? ==> c.input.trackingInfo.company == None
  {
    var r := RunRow(i, row, m, p);
    forall c | c in r.calls && c.CreateFulfillment? ensures c.input.trackingInfo.company == None {
      var k :| 0 <= k < |r.calls| && r.calls[k] == c;
      assert k != 0;
    }
  }

  /** How many fulfillment mutations a list of calls holds. */
  function CountCreates(calls: seq<Call>): nat {
    if calls == [] then 0
    else CountCreates(calls[..|calls| - 1]) + (if calls[|calls| - 1].CreateFulfillment? then 1 else 0)
  }

  lemma {:induction false} CountCreatesAppend(a: seq<Call>, b: seq<Call>)
    ensures CountCreates(a + b) == CountCreates(a) + CountCreates(b)
    decreases |b|
  {
    if b == [] {
      assert a + b == a;
    } else {
      assert (a + b)[..|a + b| - 1] == a + b[..|b| - 1];
      CountCreatesAppend(a, b[..|b| - 1]);
    }
  }

  /** A row counted as a success sent a mutation. */
  ghost predicate SuccessesMutate(runs: seq<RowRun>) {
    forall j :: 0 <= j < |runs| && runs[j].outcome == Succeeded ==> CountCreates(runs[j].calls) >= 1
  }

  lemma RunsMutateOnSuccess(rows: seq<Row>, m: ColumnMapping, p: Platform)
    ensures SuccessesMutate(Runs(rows, m, p))
  {
    var runs := Runs(rows, m, p);
    forall j | 0 <= j < |runs| && runs[j].outcome == Succeeded ensures CountCreates(runs[j].calls) >= 1 {
      var calls := runs[j].calls;
      assert |calls| == 2 && calls[1].CreateFulfillment?;
      assert calls[..1][..0] == [];
    }
  }

  /** No success is counted without a fulfillment mutation: the success
      counter never exceeds the number of mutations sent. */
  lemma {:induction false} SuccessesFollowMutations(runs: seq<RowRun>)
    requires SuccessesMutate(runs)
    ensures Tally(runs).success <= CountCreates(Trace(runs))
    decreases |runs|
  {
    if runs != [] {
      var init := runs[..|runs| - 1];
      var last := runs[|runs| - 1];
      assert forall j :: 0 <= j < |init| ==> init[j] == runs[j];
      SuccessesFollowMutations(init);
      CountCreatesAppend(Trace(init), last.calls);
    }
  }

  /** Errors are only ever appended, and counters only grow: the report
      after a prefix of the rows is a prefix of the report after all of them. */
  lemma {:induction false} ErrorsOnlyGrow(runs: seq<RowRun>, k: nat)
    requires k <= |runs|
    ensures Tally(runs[..k]).errors <= Tally(runs).errors
    ensures Tally(runs[..k]).success <= Tally(runs).success
    ensures Tally(runs[..k]).fail <= Tally(runs).fail
    decreases |runs|
  {
    if k < |runs| {
      var init := runs[..|runs| - 1];
      assert init[..k] == runs[..k];
      ErrorsOnlyGrow(init, k);
    } else {
      assert runs[..k] == runs;
    }
  }

  /** Each row moves exactly one counter by one, and adds a message exactly
      when it failed with one. */
  lemma RowCountsOnce(runs: seq<RowRun>, i: nat)
    requires i < |runs|
    ensures var before := Tally(runs[..i]);
            var after := Tally(runs[..i + 1]);
            var o := runs[i].outcome;
            (after.success == before.success + 1 && after.fail == before.fail) ==
              (o == Succeeded) &&
            (after.fail == before.fail + 1 && after.success == before.success) ==
              (o != Succeeded) &&
            after.errors == before.errors + (if o.Failed? then [o.message] else [])
  {
    assert runs[..i + 1][..i] == runs[..i];
  }

  /** The marker appended when errors were dropped. */
  const MoreErrors: string := "...and more errors."
  /** How many errors are kept before the marker. */
  const ErrorCap: nat := 50

  /** The error list as returned: at most `ErrorCap` errors, then the marker
      if any were dropped. */
  function Capped(errors: seq<string>): (r: seq<string>)
    ensures |errors| <= ErrorCap ==> r == errors
    ensures |errors| > ErrorCap ==> |r| == ErrorCap + 1 && r[..ErrorCap] == errors[..ErrorCap] && r[ErrorCap] == MoreErrors
  {
    if |errors| > ErrorCap then errors[..ErrorCap] + [MoreErrors] else errors
  }

  /** The cap keeps entries in place and bounds the list; capping twice is
      capping once. */
  lemma CappedProperties(errors: seq<string>)
    ensures |Capped(errors)| <= ErrorCap + 1
    ensures |Capped(errors)| <= |errors|
    ensures forall k :: 0 <= k < |Capped(errors)| ==> Capped(errors)[k] == errors[k] || (k == ErrorCap && Capped(errors)[k] == MoreErrors)
    ensures Capped(Capped(errors)) == Capped(errors)
  {
    if |errors| > ErrorCap {
      var r := Capped(errors);
      assert |r| > ErrorCap;
      assert r[..ErrorCap] + [MoreErrors] == r;
    }
  }

  /** The report of a whole batch, cap applied. */
  function BatchReport(rows: seq<Row>, m: ColumnMapping, p: Platform): (r: Report)
    ensures r.success + r.fail == |rows|
    ensures |r.errors| <= ErrorCap + 1
    ensures |r.errors| <= r.fail
  {
    var t := Tally(Runs(rows, m, p));
    CappedProperties(t.errors);
    Report(t.success, t.fail, Capped(t.errors))
  }

  /** The mutable `results` accumulator of the row loop. */
  class Results {
    var success: nat
    var fail: nat
    var errors: seq<string>

    /** Every message belongs to a failed row. */
    ghost predicate Valid()
      reads this
    {
      |errors| <= fail
    }

    function Snapshot(): Report
      reads this
    {
      Report(success, fail, errors)
    }

    constructor ()
      ensures Valid() && success == 0 && fail == 0 && errors == []
    {
      success, fail, errors := 0, 0, [];
    }

    /** `results.success++` */
    method CountSuccess()
      requires Valid()
      modifies this
      ensures Valid()
      ensures success == old(success) + 1 && fail == old(fail) && errors == old(errors)
    {
      success := success + 1;
    }

    /** `results.fail++` with no message */
    method CountFailure()
      requires Valid()
      modifies this
      ensures Valid()
      ensures success == old(success) && fail == old(fail) + 1 && errors == old(errors)
    {
      fail := fail + 1;
    }

    /** `results.fail++` followed by `results.errors.push(message)` */
    method CountError(message: string)
      requires Valid()
      modifies this
      ensures Valid()
      ensures success == old(success) && fail == old(fail) + 1 && errors == old(errors) + [message]
    {
      fail := fail + 1;
      errors := errors + [message];
    }

    /** Cut the error list to `ErrorCap` entries and push the marker. */
    method CapErrors()
      requires Valid()
      modifies this
      ensures Valid()
      ensures success == old(success) && fail == old(fail) && errors == Capped(old(errors))
    {
      if |errors| > ErrorCap {
        errors := errors[..ErrorCap];
        errors := errors + [MoreErrors];
      }
    }
  }

  /** The body of the row loop for row number `i`: the early exits of the
      handler's `continue` statements (lines 148, 183 and 195) become returns. */
  method ProcessRow(i: nat, row: Row, m: ColumnMapping, p: Platform, results: Results) returns (rowCalls: seq<Call>)
    requires results.Valid()
    modifies results
    ensures results.Valid()
    ensures results.Snapshot() == Step(old(results.Snapshot()), RunRow(i, row, m, p).outcome)
    ensures rowCalls == RunRow(i, row, m, p).calls
  {
    var orderIdentifier := Lookup(row, m.order);
    var trackingNumber := Lookup(row, m.tracking);
    var trackingCompany := if m.carrier.Some? then Lookup(row, m.carrier.value) else None;

    if !Present(orderIdentifier) || !Present(trackingNumber) {
      results.CountFailure();
      return [];
    }
    var id := orderIdentifier.value;

    rowCalls := [SearchOrder(i, id)];
    var search := p.lookup(i, id);
    if search.LookupThrows? {
      results.CountError(ThrewMessage(id, search.message));
      return;
    }
    if search.NoEdges? || |search.orders| == 0 {
      results.CountError(NotFoundMessage(id));
      return;
    }
    var orderNode := search.orders[0];
    var openFulfillmentOrder := FirstEligible(orderNode.fulfillmentOrders);
    if openFulfillmentOrder.None? {
      results.CountError(NoOpenMessage(id));
      return;
    }

    var input := FulfillmentInput(openFulfillmentOrder.value.id, TrackingInfo(trackingNumber.value, trackingCompany));
    if !Present(trackingCompany) {
      input := input.(trackingInfo := input.trackingInfo.(company := None));
    }

    rowCalls := rowCalls + [CreateFulfillment(i, input)];
    var reply := p.dispatch(i, input);
    match reply
    case DispatchThrows(msg) =>
      results.CountError(ThrewMessage(id, msg));
    case UserErrors(userErrors) =>
      if |userErrors| > 0 {
        results.CountError(RejectedMessage(id, userErrors[0]));
      } else {
        results.CountSuccess();
      }
    case NoUserErrors =>
      results.CountSuccess();
  }

  /** The row loop and the cap. */
  method RunBatch(rows: seq<Row>, m: ColumnMapping, p: Platform) returns (report: Report, calls: seq<Call>)
    ensures report == BatchReport(rows, m, p)
    ensures calls == Trace(Runs(rows, m, p))
  {
    ghost var runs := Runs(rows, m, p);
    var results := new Results();
    calls := [];
    for i := 0 to |rows|
      invariant results.Valid()
      invariant results.Snapshot() == Tally(runs[..i])
      invariant calls == Trace(runs[..i])
    {
      var rowCalls := ProcessRow(i, rows[i], m, p, results);
      calls := calls + rowCalls;
      assert runs[..i + 1][..i] == runs[..i];
    }
    assert runs[..|rows|] == runs;
    results.CapErrors();
    report := results.Snapshot();
  }
}
