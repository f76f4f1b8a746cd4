/** Column detection: which headers of the first record give the order
    identifier, the tracking number and the carrier. Each target column
    takes the first header, in `Object.keys` order, whose lower-cased text
    satisfies that column's test. */
module Schema {
  import opened Text
  import opened Records

  /** The three columns the handler looks for. */
  datatype Column = OrderColumn | TrackingColumn | CarrierColumn

  /** The test each column applies to a header. */
  predicate Matches(c: Column, header: string) {
    var lower := ToLower(header);
    match c
    case OrderColumn => Contains(lower, "order") || Contains(lower, "name") || lower == "id"
    case TrackingColumn => Contains(lower, "tracking") && !Contains(lower, "company") && !Contains(lower, "url")
    case CarrierColumn => Contains(lower, "company") || Contains(lower, "carrier")
  }

  /** `headers.find(h => Matches(c, h))`, as the index of the header found:
      the first header that matches, or None when none does. */
  function FindHeader(headers: seq<string>, c: Column): (r: Option<nat>)
    ensures r.Some? ==> r.value < |headers| && Matches(c, headers[r.value])
    ensures r.Some? ==> forall j :: 0 <= j < r.value ==> !Matches(c, headers[j])
    ensures r.None? <==> forall j :: 0 <= j < |headers| ==> !Matches(c, headers[j])
  {
    if headers == [] then None
    else if Matches(c, headers[0]) then Some(0)
    else
      match FindHeader(headers[1..], c)
      case None => None
      case Some(k) => Some(k + 1)
  }

  /** The first-match rule pins the header down: any position holding a
      matching header with no matching header before it is the one found. */
  lemma FindHeaderUnique(headers: seq<string>, c: Column, k: nat)
    requires k < |headers| && Matches(c, headers[k])
    requires forall j :: 0 <= j < k ==> !Matches(c, headers[j])
    ensures FindHeader(headers, c) == Some(k)
  {
  }

  /** The header names chosen for one batch. */
  datatype ColumnMapping = ColumnMapping(order: string, tracking: string, carrier: Option<string>)

  /** The header found for a column, by name. */
  function FindKey(headers: seq<string>, c: Column): (r: Option<string>)
    ensures r.None? <==> forall h :: h in headers ==> !Matches(c, h)
    ensures r.Some? ==> exists k :: 0 <= k < |headers| && headers[k] == r.value &&
                          Matches(c, r.value) && forall j :: 0 <= j < k ==> !Matches(c, headers[j])
  {
    match FindHeader(headers, c)
    case None => None
    case Some(k) => Some(headers[k])
  }

  /** The mapping for a batch, or None when the order column or the
      tracking column cannot be found; the carrier column is optional. */
  function InferSchema(headers: seq<string>): (r: Option<ColumnMapping>)
    ensures r.None? <==>
              (forall j :: 0 <= j < |headers| ==> !Matches(OrderColumn, headers[j])) ||
              (forall j :: 0 <= j < |headers| ==> !Matches(TrackingColumn, headers[j]))
    ensures r.Some? ==>
              r.value.order in headers && Matches(OrderColumn, r.value.order) &&
              r.value.tracking in headers && Matches(TrackingColumn, r.value.tracking)
    ensures r.Some? ==> Some(r.value.order) == FindKey(headers, OrderColumn)
    ensures r.Some? ==> Some(r.value.tracking) == FindKey(headers, TrackingColumn)
    ensures r.Some? ==> r.value.carrier == FindKey(headers, CarrierColumn)
    ensures r.Some? && r.value.carrier.Some? ==>
              r.value.carrier.value in headers && Matches(CarrierColumn, r.value.carrier.value)
  {
    match (FindKey(headers, OrderColumn), FindKey(headers, TrackingColumn))
    case (Some(o), Some(t)) => Some(ColumnMapping(o, t, FindKey(headers, CarrierColumn)))
    case _ => None
  }

  /** A found header is never the empty string, so JavaScript's falsiness
      test on the found key (`!orderKeyOriginal`) means exactly "not found". */
  lemma FoundHeaderNonEmpty(header: string, c: Column)
    requires Matches(c, header)
    ensures header != ""
  {
  }
}
