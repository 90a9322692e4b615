/** The records the client keeps in its store, as the server hands them over. */
module Domain {
  import opened Seqs

  /** A reference to another record. The server either populates it with the referenced
      object (which carries `_id`) or leaves the raw id string. */
  datatype Ref = Populated(id: string) | Raw(id: string)

  /** `ref?._id`: a raw string has no `_id` property, so it yields `undefined` (None). */
  function RefId(r: Ref): (o: Option<string>)
    ensures o.Some? <==> r.Populated?
    ensures o.Some? ==> o.value == r.id
  {
    match r
    case Populated(id) => Some(id)
    case Raw(_) => None
  }

  /** `ref?._id === id || ref === id`: the ref points at `id`, populated or raw. */
  predicate RefersTo(r: Ref, id: string)
  {
    r.id == id
  }

  /** `typeof ref === 'object' ? ref._id : ref`: the referenced id, whatever the form. */
  function RefKey(r: Ref): string
  {
    r.id
  }

  const StatusPending: string := "pending"
  const StatusOngoing: string := "ongoing"
  const StatusCompleted: string := "completed"
  const StatusAccepted: string := "accepted"
  const StatusRejected: string := "rejected"

  const RoleAdmin: string := "admin"
  const RoleDriver: string := "driver"
  const RoleUser: string := "user"

  /** A rental request (`rentStatus` is kept as the text the server sent). */
  datatype Rent = Rent(
    id: string,
    user: Ref,
    car: Ref,
    rentStatus: string,
    startingPoint: string,
    destination: string)

  /** A driver's offer; `bidAmount` is in cents and may be missing. */
  datatype Bid = Bid(
    id: string,
    rentId: Ref,
    driverId: Ref,
    bidAmount: Option<int>,
    bidStatus: string,
    driverLocation: string)

  datatype Car = Car(
    id: string,
    name: string,
    brand: string,
    model: string,
    image: string,
    rating: Option<real>,
    fuelType: string,
    passengerCapacity: int,
    color: string,
    condition: string)

  datatype User = User(
    id: string,
    name: string,
    email: string,
    role: string,
    img: Option<string>,
    rating: Option<real>)

  function RentId(r: Rent): string { r.id }
  function BidId(b: Bid): string { b.id }
  function CarId(c: Car): string { c.id }
  function UserId(u: User): string { u.id }

  function RentStatusOf(r: Rent): string { r.rentStatus }
  function BidStatusOf(b: Bid): string { b.bidStatus }
  function RoleOf(u: User): string { u.role }

  /** A field value in a JSON request body. */
  datatype Value = Text(text: string) | Number(number: real)

  /** A JSON request body: field name to value. */
  type Body = map<string, Value>

  /** `bid.bidAmount || 0`: a missing amount (and 0 itself) counts as 0. */
  function AmountOrZero(b: Bid): int
  {
    match b.bidAmount
    case Some(a) => a
    case None => 0
  }

  /** The three rental statuses the server uses. */
  predicate ValidRentStatus(s: string)
  {
    s == StatusPending || s == StatusOngoing || s == StatusCompleted
  }

  /** The three bid statuses the server uses. */
  predicate ValidBidStatus(s: string)
  {
    s == StatusPending || s == StatusAccepted || s == StatusRejected
  }

  /** What a management page's delete button does: the id handed to the delete thunk,
      and whether the list is fetched again afterwards. */
  datatype DeleteOutcome = DeleteOutcome(request: Option<string>, refetch: bool)

  /** `handleDelete` on the user and car pages: nothing happens unless `window.confirm`
      answers yes; then the record is deleted, and only a fulfilled delete refetches. */
  function ConfirmedDelete(id: string, confirmed: bool, fulfilled: bool): (o: DeleteOutcome)
    ensures o.request.Some? <==> confirmed
    ensures o.request.Some? ==> o.request.value == id
    ensures o.refetch <==> confirmed && fulfilled
    ensures o.refetch ==> o.request.Some?
  {
    if confirmed then DeleteOutcome(Some(id), fulfilled) else DeleteOutcome(None, false)
  }
}
