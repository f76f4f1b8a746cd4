/** One record's trip through the handler: read its cells, search for the
    order, pick an open fulfillment order, send the fulfillment mutation,
    and turn the replies into a counted success or a failure message. This
    is the specification of the loop body that `Batch.RunBatch` runs. */
module Reconcile {
  import opened Records
  import opened Schema
  import opened Remote

  /** A request the handler makes, in the order it makes them: decoding the
      upload, and per row the order search and the fulfillment mutation. */
  datatype Call =
    | DecodeFile(format: Format)
    | SearchOrder(row: nat, query: string)
    | CreateFulfillment(row: nat, input: FulfillmentInput)

  /** A call to the shop platform, as opposed to local decoding. */
  predicate IsRemote(c: Call) {
    c.SearchOrder? || c.CreateFulfillment?
  }

  /** How a row ends: counted as a success, counted as a failure without a
      message (a required cell is missing), or counted as a failure with one. */
  datatype Outcome = Succeeded | Skipped | Failed(message: string)

  /** A row's outcome and the remote calls it made. */
  datatype RowRun = RowRun(outcome: Outcome, calls: seq<Call>)

  /** What the order search decides for a row. */
  datatype Resolution =
    | Unfound
    | NoOpenFulfillment
    | Resolved(target: FulfillmentOrder)
    | ResolveThrew(message: string)

  /** The order resolver: only the first order of the reply is looked at,
      and its first eligible fulfillment order is the target. */
  function Resolve(reply: LookupReply): (r: Resolution)
    ensures r == Unfound <==> reply.NoEdges? || reply == Edges([])
    ensures r.ResolveThrew? <==> reply.LookupThrows?
    ensures r.ResolveThrew? ==> r.message == reply.message
    ensures r == NoOpenFulfillment <==>
              reply.Edges? && reply.orders != [] &&
              forall j :: 0 <= j < |reply.orders[0].fulfillmentOrders| ==>
                !Eligible(reply.orders[0].fulfillmentOrders[j])
    ensures r.Resolved? ==>
              reply.Edges? && reply.orders != [] && Eligible(r.target) &&
              exists k :: 0 <= k < |reply.orders[0].fulfillmentOrders| &&
                reply.orders[0].fulfillmentOrders[k] == r.target &&
                forall j :: 0 <= j < k ==> !Eligible(reply.orders[0].fulfillmentOrders[j])
  {
    match reply
    case LookupThrows(msg) => ResolveThrew(msg)
    case NoEdges => Unfound
    case Edges(orders) =>
      if orders == [] then Unfound
      else
        match FirstEligible(orders[0].fulfillmentOrders)
        case None => NoOpenFulfillment
        case Some(fo) => Resolved(fo)
  }

  /** First result wins: orders after the first one in the search reply
      never affect the resolution. */
  lemma ResolveUsesFirstOrder(first: Order, others: seq<Order>)
    ensures Resolve(Edges([first] + others)) == Resolve(Edges([first]))
  {
  }

  /** What the fulfillment mutation decides for a row. */
  datatype Dispatched = Fulfilled | Rejected(firstError: string) | DispatchThrew(message: string)

  /** The fulfillment dispatcher: a non-empty `userErrors` list rejects with
      its first message; an empty or absent one is a success. */
  function Dispatch(reply: DispatchReply): (r: Dispatched)
    ensures r == Fulfilled <==> reply == NoUserErrors || reply == UserErrors([])
    ensures r.Rejected? <==> reply.UserErrors? && reply.messages != []
    ensures r.Rejected? ==> r.firstError == reply.messages[0]
    ensures r.DispatchThrew? <==> reply.DispatchThrows?
    ensures r.DispatchThrew? ==> r.message == reply.message
  {
    match reply
    case DispatchThrows(msg) => DispatchThrew(msg)
    case NoUserErrors => Fulfilled
    case UserErrors(errs) => if |errs| > 0 then Rejected(errs[0]) else Fulfilled
  }

  function NotFoundMessage(id: string): string { "Order not found: " + id }
  function NoOpenMessage(id: string): string { "No open fulfillment order for: " + id }
  function RejectedMessage(id: string, first: string): string { "Failed to fulfill " + id + ": " + first }
  function ThrewMessage(id: string, msg: string): string { "Error processing " + id + ": " + msg }

  /** The carrier cell of a row: None when the batch has no carrier column. */
  function CompanyCell(row: Row, m: ColumnMapping): (r: Option<string>)
    ensures m.carrier.None? ==> r.None?
    ensures m.carrier.Some? ==> (r.None? <==> m.carrier.value !in Keys(row))
    ensures r.Some? ==> m.carrier.Some?
    ensures r.Some? ==> exists i :: 0 <= i < |row| && row[i] == Field(m.carrier.value, r.value)
  {
    if m.carrier.Some? then Lookup(row, m.carrier.value) else None
  }

  /** The full treatment of row number `i`. */
  function RunRow(i: nat, row: Row, m: ColumnMapping, p: Platform): (r: RowRun)
    // a row lacking a truthy order or tracking cell fails silently, with no call
    ensures r.outcome == Skipped <==> !Present(Lookup(row, m.order)) || !Present(Lookup(row, m.tracking))
    ensures r.outcome == Skipped ==> r.calls == []
    // any other row first searches for exactly its raw order cell
    ensures r.outcome != Skipped ==>
              1 <= |r.calls| <= 2 && r.calls[0] == SearchOrder(i, Lookup(row, m.order).value)
    // a mutation is sent exactly when the search resolved a target, and it targets that one
    ensures |r.calls| == 2 <==>
              r.outcome != Skipped && Resolve(p.lookup(i, Lookup(row, m.order).value)).Resolved?
    ensures |r.calls| == 2 ==>
              r.calls[1] == CreateFulfillment(i, TrackingInput(
                Resolve(p.lookup(i, Lookup(row, m.order).value)).target.id,
                Lookup(row, m.tracking).value, CompanyCell(row, m)))
    // a success requires a mutation that reported no user error
    ensures r.outcome == Succeeded ==>
              |r.calls| == 2 && Dispatch(p.dispatch(i, r.calls[1].input)) == Fulfilled
    ensures forall c :: c in r.calls ==> IsRemote(c) && c.row == i
  {
    var orderCell := Lookup(row, m.order);
    var trackingCell := Lookup(row, m.tracking);
    if !Present(orderCell) || !Present(trackingCell) then RowRun(Skipped, [])
    else
      var id := orderCell.value;
      var search := SearchOrder(i, id);
      match Resolve(p.lookup(i, id))
      case ResolveThrew(msg) => RowRun(Failed(ThrewMessage(id, msg)), [search])
      case Unfound => RowRun(Failed(NotFoundMessage(id)), [search])
      case NoOpenFulfillment => RowRun(Failed(NoOpenMessage(id)), [search])
      case Resolved(fo) =>
        var input := TrackingInput(fo.id, trackingCell.value, CompanyCell(row, m));
        var create := CreateFulfillment(i, input);
        match Dispatch(p.dispatch(i, input))
        case Fulfilled => RowRun(Succeeded, [search, create])
        case Rejected(first) => RowRun(Failed(RejectedMessage(id, first)), [search, create])
        case DispatchThrew(msg) => RowRun(Failed(ThrewMessage(id, msg)), [search, create])
  }

  /** The failure message of a row whose cells are present, by the replies
      it got; this is every message a row can add. */
  lemma RowMessages(i: nat, row: Row, m: ColumnMapping, p: Platform)
    requires Present(Lookup(row, m.order)) && Present(Lookup(row, m.tracking))
    ensures var id := Lookup(row, m.order).value;
            var r := RunRow(i, row, m, p);
            var res := Resolve(p.lookup(i, id));
            (res == Unfound ==> r.outcome == Failed(NotFoundMessage(id))) &&
            (res == NoOpenFulfillment ==> r.outcome == Failed(NoOpenMessage(id))) &&
            (res.ResolveThrew? ==> r.outcome == Failed(ThrewMessage(id, res.message))) &&
            (res.Resolved? ==>
               var d := Dispatch(p.dispatch(i, r.calls[1].input));
               (d == Fulfilled ==> r.outcome == Succeeded) &&
               (d.Rejected? ==> r.outcome == Failed(RejectedMessage(id, d.firstError))) &&
               (d.DispatchThrew? ==> r.outcome == Failed(ThrewMessage(id, d.message))))
  {
  }
}
