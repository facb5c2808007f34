/**
 * The documents of the five collections (parcels, riders, users,
 * payments, trackings) and the payment-gateway session that payment
 * confirmation reads.
 */
module Records {
  import opened Common
  import opened Clock

  // Status tokens and role names the lifecycle writes or tests.
  const ParcelCreated: string := "parcel_created"
  const ParcelPaid: string := "parcel_paid"
  const DriverAssigned: string := "driver_assigned"
  const ParcelDelivered: string := "parcel_delivered"
  const PendingPickup: string := "pending-pickup"
  const Paid: string := "paid"
  const InDelivery: string := "in_delivery"
  const Available: string := "available"
  const RiderPending: string := "Pending"
  const Approved: string := "approved"
  const RiderRole: string := "rider"
  const UserRole: string := "user"

  /**
   * A parcel document. The sender's fields come from the request body;
   * the lifecycle fields are absent until a handler sets them.
   */
  datatype Parcel = Parcel(
    parcelName: string,
    senderEmail: string,
    cost: int,
    trackingId: string,
    createdAt: Timestamp,
    deliveryStatus: Option<string>,
    paymentStatus: Option<string>,
    riderId: Option<ObjectId>,
    riderName: Option<string>,
    riderEmail: Option<string>)

  /** A rider application: approval `status` and availability `workStatus`. */
  datatype Rider = Rider(
    riderName: string,
    riderEmail: string,
    riderDistrict: string,
    status: string,
    role: Option<string>,
    workStatus: Option<string>,
    createdAt: Timestamp)

  datatype User = User(email: string, displayName: string, role: Option<string>, createdAt: Timestamp)

  /** A settled payment; `transactionId` is the gateway's payment intent. */
  datatype PaymentRecord = PaymentRecord(
    amountCents: int,
    currency: string,
    customerEmail: string,
    parcelId: ObjectId,
    parcelName: string,
    transactionId: string,
    paymentStatus: string,
    paidAt: Timestamp,
    trackingId: string)

  /** The metadata attached to a checkout session when it was created. */
  datatype Metadata = Metadata(parcelId: ObjectId, parcelName: string, trackingId: string)

  /** A checkout session as retrieved from the payment gateway. */
  datatype Session = Session(
    paymentIntent: string,
    paymentStatus: string,
    amountTotal: int,
    currency: string,
    customerEmail: string,
    metadata: Metadata)

  /**
   * `findOne({ field: value })` over a collection kept in insertion order:
   * the index of the first document whose `field` is `value`.
   */
  function FindFirst<T>(docs: seq<T>, field: T -> string, value: string): (r: Option<nat>)
    ensures r.Some? ==> r.value < |docs| && field(docs[r.value]) == value
    ensures r.Some? ==> forall j :: 0 <= j < r.value ==> field(docs[j]) != value
    ensures r.None? <==> forall j :: 0 <= j < |docs| ==> field(docs[j]) != value
  {
    if docs == [] then None
    else if field(docs[0]) == value then Some(0)
    else match FindFirst(docs[1..], field, value)
      case None => None
      case Some(i) => Some(i + 1)
  }

  /** `findOne({ email })` on users. */
  function FindUser(users: seq<User>, email: string): Option<nat> {
    FindFirst(users, (u: User) => u.email, email)
  }

  /** `findOne({ transactionId })` on payments. */
  function FindPayment(payments: seq<PaymentRecord>, transactionId: string): Option<nat> {
    FindFirst(payments, (p: PaymentRecord) => p.transactionId, transactionId)
  }

  /**
   * The role reported for `email`: the stored role of the first user with
   * that email, or "user" when there is no such user or its role is
   * missing or empty (`user?.role || "user"`).
   */
  function RoleOf(users: seq<User>, email: string): (role: string)
    ensures role != ""
    ensures (forall j :: 0 <= j < |users| ==> users[j].email != email) ==> role == UserRole
    ensures forall i :: 0 <= i < |users| && users[i].email == email
                        && (forall j :: 0 <= j < i ==> users[j].email != email) ==>
              role == (if users[i].role.Some? && users[i].role.value != "" then users[i].role.value else UserRole)
  {
    match FindUser(users, email)
    case None => UserRole
    case Some(i) =>
      var u := users[i];
      if u.role.Some? && u.role.value != "" then u.role.value else UserRole
  }
}
