/**
 * The local mirror of a Shopify customer's tags (`CustomerTag` collection):
 * `customerId` is required and unique, `tags` defaults to the empty list and
 * `phoneNumber` to `null`.
 */
module CustomerTagModel {
  import opened Wrappers

  datatype CustomerTag = CustomerTag(customerId: string, tags: seq<string>, phoneNumber: Option<string>)

  /** `new CustomerTag({customerId, tags, phoneNumber})` followed by validation. */
  function NewCustomerTag(customerId: Option<string>, tags: Option<seq<string>>, phoneNumber: Option<string>)
    : (r: Result<CustomerTag, string>)
    ensures r.Success? <==> customerId.Some? && customerId.value != ""
    ensures r.Success? ==>
      && r.value.customerId == customerId.value
      && r.value.tags == tags.GetOr([])
      && r.value.phoneNumber == phoneNumber
  {
    if customerId.None? || customerId.value == "" then Failure("customerId")
    else Success(CustomerTag(customerId.value, tags.GetOr([]), phoneNumber))
  }

  /** The unique index on `customerId`: at most one mirror per customer. */
  predicate UniqueCustomers(records: seq<CustomerTag>) {
    forall i, j :: 0 <= i < j < |records| ==> records[i].customerId != records[j].customerId
  }

  /** `CustomerTag.findOne({ customerId })`. */
  function FindCustomer(records: seq<CustomerTag>, customerId: string): (r: Option<nat>)
    ensures r.Some? ==> r.value < |records| && records[r.value].customerId == customerId
    ensures r.Some? ==> forall k :: 0 <= k < r.value ==> records[k].customerId != customerId
    ensures r.None? ==> forall k :: 0 <= k < |records| ==> records[k].customerId != customerId
  {
    if records == [] then None
    else if records[0].customerId == customerId then Some(0)
    else
      match FindCustomer(records[1..], customerId)
      case None => None
      case Some(k) => Some(k + 1)
  }
}
