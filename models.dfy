/**
 * The document shapes of the three schemas the services read or produce:
 * cards, orders with their line items, and the status of a processed order.
 * Database identifiers (ObjectId) are kept as the strings they render to.
 */
module Models {
  import opened Common

  type ObjectId = string

  datatype Card = Card(
    id: ObjectId,
    name: string,
    beltRank: string,
    achievement: string,
    clubName: string,
    image: string,
    price: real,
    userId: ObjectId,
    printCount: int)

  /** A line item: a reference to a card and how many copies were ordered. */
  datatype OrderItem = OrderItem(card: ObjectId, quantity: int)

  /** The schema accepts a line item only with a quantity of at least 1. */
  predicate ValidOrderItem(item: OrderItem) { item.quantity >= 1 }

  predicate ValidOrderItems(items: seq<OrderItem>)
  {
    forall i :: 0 <= i < |items| ==> ValidOrderItem(items[i])
  }

  datatype ShippingAddress = ShippingAddress(
    fullName: string,
    addressLine1: string,
    addressLine2: string,
    city: string,
    state: string,
    postalCode: string,
    country: string,
    phone: string)

  /** An order with its line items populated. */
  datatype Order = Order(
    id: ObjectId,
    user: ObjectId,
    items: seq<OrderItem>,
    shippingAddress: ShippingAddress,
    totalAmount: real,
    orderStatus: string,
    paymentStatus: string)

  /** The two values the `status` field of a processed order may hold. */
  datatype ProcessingStatus = Completed | Failed

  function StatusName(s: ProcessingStatus): (name: string)
  {
    match s
    case Completed => "completed"
    case Failed => "failed"
  }

  /** The enum check on `status`: only the two listed strings are accepted. */
  function ParseStatus(t: string): (r: Option<ProcessingStatus>)
    ensures r.Some? <==> t == "completed" || t == "failed"
    ensures r.Some? ==> StatusName(r.value) == t
  {
    if t == "completed" then Some(Completed)
    else if t == "failed" then Some(Failed)
    else None
  }

  /** Every status survives being written out and read back. */
  lemma StatusRoundTrip(s: ProcessingStatus)
    ensures ParseStatus(StatusName(s)) == Some(s)
  {
  }
}
