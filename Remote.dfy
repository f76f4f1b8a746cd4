/** The shop platform as the handler sees it: the replies of the order
    search and of the fulfillment mutation, the choice of an open
    fulfillment order, and the mutation's input. The GraphQL transport and
    JSON decoding are not modelled; the platform is a scripted oracle. */
module Remote {
  import opened Records

  /** A fulfillment order node: its id and its status text. */
  datatype FulfillmentOrder = FulfillmentOrder(id: string, status: string)

  /** An order node of the search reply. */
  datatype Order = Order(id: string, name: string, fulfillmentOrders: seq<FulfillmentOrder>)

  /** What the order search yields: `data.orders.edges` absent (any reply
      lacking `data`, `orders` or `edges`, read with optional chaining),
      present with its order nodes, or an exception with its message. Only a
      reply that makes the code throw is an exception: a transport failure,
      or a null `edges[0].node` or `fulfillmentOrders` read after the
      chaining. */
  datatype LookupReply = NoEdges | Edges(orders: seq<Order>) | LookupThrows(message: string)

  /** What the fulfillment mutation yields: `userErrors` absent (any reply
      lacking `data`, `fulfillmentCreateV2` or `userErrors`, such as
      `data: null` with top-level GraphQL errors, which counts as a
      success), present with the messages of its entries, or an exception
      with its message. */
  datatype DispatchReply = NoUserErrors | UserErrors(messages: seq<string>) | DispatchThrows(message: string)

  /** `trackingInfo`: the number, and the company unless it was deleted. */
  datatype TrackingInfo = TrackingInfo(number: string, company: Option<string>)

  /** `fulfillmentInput`: one fulfillment-order target and its tracking. */
  datatype FulfillmentInput = FulfillmentInput(fulfillmentOrderId: string, trackingInfo: TrackingInfo)

  /** The platform's replies, scripted by the row being processed and the
      request sent, so that later rows may see what earlier rows changed. */
  datatype Platform = Platform(
    lookup: (nat, string) -> LookupReply,
    dispatch: (nat, FulfillmentInput) -> DispatchReply)

  /** A status that admits a new fulfillment. */
  predicate Eligible(fo: FulfillmentOrder) {
    fo.status == "OPEN" || fo.status == "IN_PROGRESS"
  }

  /** `fulfillmentOrders.find(Eligible)`: the first eligible fulfillment
      order in the platform's order, or None when there is none. */
  function FirstEligible(fos: seq<FulfillmentOrder>): (r: Option<FulfillmentOrder>)
    ensures r.Some? ==> exists k :: 0 <= k < |fos| && fos[k] == r.value &&
                          (forall j :: 0 <= j < k ==> !Eligible(fos[j]))
    ensures r.Some? ==> Eligible(r.value)
    ensures r.None? <==> forall j :: 0 <= j < |fos| ==> !Eligible(fos[j])
  {
    if fos == [] then None
    else if Eligible(fos[0]) then Some(fos[0])
    else
      var r := FirstEligible(fos[1..]);
      if r.Some? then
        var k :| 0 <= k < |fos[1..]| && fos[1..][k] == r.value &&
                 (forall j :: 0 <= j < k ==> !Eligible(fos[1..][j]));
        assert fos[k + 1] == r.value;
        assert forall j :: 0 < j < k + 1 ==> !Eligible(fos[j]) by {
          forall j | 0 < j < k + 1 ensures !Eligible(fos[j]) {
            assert fos[j] == fos[1..][j - 1];
          }
        }
        r
      else r
  }

  /** Closed, cancelled and other fulfillment orders in front of the first
      eligible one do not change the choice. */
  lemma {:induction false} FirstEligibleSkipsIneligible(ineligible: seq<FulfillmentOrder>, rest: seq<FulfillmentOrder>)
    requires forall j :: 0 <= j < |ineligible| ==> !Eligible(ineligible[j])
    ensures FirstEligible(ineligible + rest) == FirstEligible(rest)
    decreases |ineligible|
  {
    if ineligible != [] {
      assert (ineligible + rest)[1..] == ineligible[1..] + rest;
      assert (ineligible + rest)[0] == ineligible[0];
      FirstEligibleSkipsIneligible(ineligible[1..], rest);
    } else {
      assert ineligible + rest == rest;
    }
  }

  /** The mutation's input for a chosen fulfillment order: the tracking
      number always, the company only when the cell was truthy (the
      `delete` of an empty or missing company). */
  function TrackingInput(fulfillmentOrderId: string, number: string, company: Option<string>): (r: FulfillmentInput)
    ensures r.fulfillmentOrderId == fulfillmentOrderId
    ensures r.trackingInfo.number == number
    ensures r.trackingInfo.company.Some? <==> Present(company)
    ensures r.trackingInfo.company.Some? ==> r.trackingInfo.company == company
  {
    var input := FulfillmentInput(fulfillmentOrderId, TrackingInfo(number, company));
    if !Present(company) then input.(trackingInfo := input.trackingInfo.(company := None)) else input
  }
}
