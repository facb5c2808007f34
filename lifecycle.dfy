/**
 * The parcel lifecycle as transitions of the whole store. Each request
 * handler is one function from the store before the request to the store
 * after it and the handler's reply. The clock reading, the random bytes
 * and the payment-gateway session are parameters.
 */
module Lifecycle {
  import opened Common
  import opened Clock
  import opened TrackingIds
  import opened Ledger
  import opened Records

  /**
   * The five collections. Parcels and riders are addressed by identifier;
   * users and payments are looked up by email and transaction identifier,
   * so they are kept in insertion order; the ledger is a log.
   * `nextId` is the identifier the next inserted document receives.
   */
  datatype State = State(
    parcels: map<ObjectId, Parcel>,
    riders: map<ObjectId, Rider>,
    users: seq<User>,
    payments: seq<PaymentRecord>,
    trackings: seq<LedgerEntry>,
    nextId: ObjectId)

  const Empty: State := State(map[], map[], [], [], [], 0)

  /** A transition's result: the new store and the handler's reply. */
  datatype Step<R> = Step(state: State, reply: R)

  datatype AssignReply = AssignReply(parcelMatched: bool, riderMatched: bool)

  datatype PaymentReply =
    | AlreadyExists(transactionId: string, trackingId: string)
    | Settled(parcelMatched: bool, trackingId: string, transactionId: string)
    | NotPaid

  datatype UserReply = UserExists | UserInserted

  predicate PaymentsUnique(payments: seq<PaymentRecord>) {
    forall i, j :: 0 <= i < j < |payments| ==> payments[i].transactionId != payments[j].transactionId
  }

  predicate EmailsUnique(users: seq<User>) {
    forall i, j :: 0 <= i < j < |users| ==> users[i].email != users[j].email
  }

  /**
   * What every reachable store satisfies: identifiers below the counter
   * (so an insert never overwrites), at most one payment per transaction
   * identifier and at most one user per email.
   */
  predicate Valid(s: State) {
    && (forall k :: k in s.parcels ==> k < s.nextId)
    && (forall k :: k in s.riders ==> k < s.nextId)
    && PaymentsUnique(s.payments)
    && EmailsUnique(s.users)
  }

  /**
   * `updateOne({ _id: id }, ...)`: rewrite the document with identifier
   * `id` by `f`; an identifier that matches nothing changes nothing.
   */
  function UpdateOne<V>(m: map<ObjectId, V>, id: ObjectId, f: V -> V): (r: map<ObjectId, V>)
    ensures r.Keys == m.Keys
    ensures id in m ==> r[id] == f(m[id])
    ensures forall k :: k in m && k != id ==> r[k] == m[k]
  {
    if id in m then m[id := f(m[id])] else m
  }

  /** `insertOne`: store `v` under the identifier `id`. */
  function InsertOne<V>(m: map<ObjectId, V>, id: ObjectId, v: V): (r: map<ObjectId, V>)
    ensures r.Keys == m.Keys + {id}
    ensures r[id] == v
    ensures forall k :: k in m && k != id ==> r[k] == m[k]
  {
    m[id := v]
  }

  function WithRider(p: Parcel, riderId: ObjectId, riderName: string, riderEmail: string): Parcel {
    p.(deliveryStatus := Some(DriverAssigned), riderId := Some(riderId),
       riderName := Some(riderName), riderEmail := Some(riderEmail))
  }

  function WithWorkStatus(rider: Rider, workStatus: string): Rider {
    rider.(workStatus := Some(workStatus))
  }

  /**
   * POST /parcels: stamp the body with a fresh tracking identifier and the
   * creation time, log "parcel_created" and insert it under a fresh
   * identifier. The reply is the new identifier.
   */
  function CreateParcel(s: State, body: Parcel, now: Timestamp, random: RandomBytes): (r: Step<ObjectId>)
    ensures r.reply == s.nextId && r.state.nextId == s.nextId + 1
    ensures Valid(s) ==> r.reply !in s.parcels
    ensures r.state.parcels.Keys == s.parcels.Keys + {r.reply}
    ensures r.state.parcels[r.reply] == Stamped(body, GenerateTrackingId(now, random), now)
    ensures forall k :: k in s.parcels && k != r.reply ==> r.state.parcels[k] == s.parcels[k]
    ensures r.state.trackings
         == s.trackings + [LedgerEntry(GenerateTrackingId(now, random), ParcelCreated, now)]
    ensures r.state.riders == s.riders && r.state.users == s.users && r.state.payments == s.payments
  {
    var trackingId := GenerateTrackingId(now, random);
    var logged := s.trackings + [LedgerEntry(trackingId, ParcelCreated, now)];
    var parcels := InsertOne(s.parcels, s.nextId, Stamped(body, trackingId, now));
    Step(s.(parcels := parcels, trackings := logged, nextId := s.nextId + 1), s.nextId)
  }

  /** The request body with the tracking identifier and creation time written over it. */
  function Stamped(body: Parcel, trackingId: string, now: Timestamp): Parcel {
    body.(trackingId := trackingId, createdAt := now)
  }

  /**
   * PATCH /parcels/:id: mark the parcel "driver_assigned" with the rider's
   * identity, mark the rider "in_delivery" and log "driver_assigned".
   * Neither the rider's approval nor its current work status is checked;
   * an identifier that matches nothing leaves that collection unchanged,
   * and the ledger entry is written regardless.
   */
  function AssignRider(s: State, parcelId: ObjectId, riderId: ObjectId, riderName: string,
                       riderEmail: string, trackingId: string, now: Timestamp): (r: Step<AssignReply>)
    ensures r.reply.parcelMatched <==> parcelId in s.parcels
    ensures r.reply.riderMatched <==> riderId in s.riders
    ensures r.state.parcels.Keys == s.parcels.Keys && r.state.riders.Keys == s.riders.Keys
    ensures parcelId in s.parcels ==>
      r.state.parcels[parcelId] == WithRider(s.parcels[parcelId], riderId, riderName, riderEmail)
    ensures forall k :: k in s.parcels && k != parcelId ==> r.state.parcels[k] == s.parcels[k]
    ensures riderId in s.riders ==>
      r.state.riders[riderId] == WithWorkStatus(s.riders[riderId], InDelivery)
    ensures forall k :: k in s.riders && k != riderId ==> r.state.riders[k] == s.riders[k]
    ensures r.state.trackings == s.trackings + [LedgerEntry(trackingId, DriverAssigned, now)]
    ensures r.state.users == s.users && r.state.payments == s.payments && r.state.nextId == s.nextId
  {
    var parcels := UpdateOne(s.parcels, parcelId, p => WithRider(p, riderId, riderName, riderEmail));
    var riders := UpdateOne(s.riders, riderId, rider => WithWorkStatus(rider, InDelivery));
    var logged := s.trackings + [LedgerEntry(trackingId, DriverAssigned, now)];
    Step(s.(parcels := parcels, riders := riders, trackings := logged),
         AssignReply(parcelId in s.parcels, riderId in s.riders))
  }

  /**
   * PATCH /parcels/:id/status: set the parcel's delivery status to the
   * supplied token, unvalidated, and log that token. Only the token
   * "parcel_delivered" also frees the named rider ("available"); a missing
   * rider identifier matches no rider.
   */
  function SetDeliveryStatus(s: State, parcelId: ObjectId, status: string, riderId: Option<ObjectId>,
                             trackingId: string, now: Timestamp): (r: Step<bool>)
    ensures r.reply <==> parcelId in s.parcels
    ensures r.state.parcels.Keys == s.parcels.Keys && r.state.riders.Keys == s.riders.Keys
    ensures parcelId in s.parcels ==>
      r.state.parcels[parcelId] == s.parcels[parcelId].(deliveryStatus := Some(status))
    ensures forall k :: k in s.parcels && k != parcelId ==> r.state.parcels[k] == s.parcels[k]
    ensures status != ParcelDelivered ==> r.state.riders == s.riders
    ensures status == ParcelDelivered && riderId.Some? && riderId.value in s.riders ==>
      r.state.riders[riderId.value] == WithWorkStatus(s.riders[riderId.value], Available)
    ensures forall k :: k in s.riders && riderId != Some(k) ==> r.state.riders[k] == s.riders[k]
    ensures r.state.trackings == s.trackings + [LedgerEntry(trackingId, status, now)]
    ensures r.state.users == s.users && r.state.payments == s.payments && r.state.nextId == s.nextId
  {
    var riders :=
      if status == ParcelDelivered && riderId.Some? then
        UpdateOne(s.riders, riderId.value, rider => WithWorkStatus(rider, Available))
      else s.riders;
    var parcels := UpdateOne(s.parcels, parcelId, (p: Parcel) => p.(deliveryStatus := Some(status)));
    var logged := s.trackings + [LedgerEntry(trackingId, status, now)];
    Step(s.(parcels := parcels, riders := riders, trackings := logged), parcelId in s.parcels)
  }

  /** The payment document written for a paid session. */
  function PaymentOf(session: Session, now: Timestamp): PaymentRecord {
    PaymentRecord(session.amountTotal, session.currency, session.customerEmail,
                  session.metadata.parcelId, session.metadata.parcelName,
                  session.paymentIntent, session.paymentStatus, now, session.metadata.trackingId)
  }

  /**
   * PATCH /payment-success. A payment already recorded for the session's
   * transaction identifier is reported with its tracking identifier and
   * nothing is written. Otherwise a session that is not "paid" is refused
   * with nothing written; a paid one marks the parcel paid and
   * "pending-pickup", records exactly one payment and logs "parcel_paid".
   */
  function ConfirmPayment(s: State, session: Session, now: Timestamp): (r: Step<PaymentReply>)
    ensures r.reply.AlreadyExists? <==>
      exists i :: 0 <= i < |s.payments| && s.payments[i].transactionId == session.paymentIntent
    ensures r.reply.AlreadyExists? ==>
      && r.state == s
      && r.reply.transactionId == session.paymentIntent
      && exists i :: 0 <= i < |s.payments| && s.payments[i].transactionId == session.paymentIntent
                     && (forall j :: 0 <= j < i ==> s.payments[j].transactionId != session.paymentIntent)
                     && s.payments[i].trackingId == r.reply.trackingId
    ensures r.reply.NotPaid? <==>
      !r.reply.AlreadyExists? && session.paymentStatus != Paid
    ensures r.reply.NotPaid? ==> r.state == s
    ensures r.reply.Settled? ==>
      && r.reply.trackingId == session.metadata.trackingId
      && r.reply.transactionId == session.paymentIntent
      && (r.reply.parcelMatched <==> session.metadata.parcelId in s.parcels)
      && r.state.payments == s.payments + [PaymentOf(session, now)]
      && r.state.trackings == s.trackings + [LedgerEntry(session.metadata.trackingId, ParcelPaid, now)]
      && r.state.parcels.Keys == s.parcels.Keys
      && (forall k :: k in s.parcels && k != session.metadata.parcelId ==> r.state.parcels[k] == s.parcels[k])
      && (session.metadata.parcelId in s.parcels ==>
            r.state.parcels[session.metadata.parcelId]
              == s.parcels[session.metadata.parcelId].(paymentStatus := Some(Paid),
                                                         deliveryStatus := Some(PendingPickup)))
      && r.state.riders == s.riders && r.state.users == s.users && r.state.nextId == s.nextId
  {
    match FindPayment(s.payments, session.paymentIntent)
    case Some(i) => Step(s, AlreadyExists(session.paymentIntent, s.payments[i].trackingId))
    case None =>
      if session.paymentStatus == Paid then
        var id := session.metadata.parcelId;
        var parcels := UpdateOne(s.parcels, id,
          (p: Parcel) => p.(paymentStatus := Some(Paid), deliveryStatus := Some(PendingPickup)));
        var trackingId := session.metadata.trackingId;
        var next := s.(parcels := parcels,
                       payments := s.payments + [PaymentOf(session, now)],
                       trackings := s.trackings + [LedgerEntry(trackingId, ParcelPaid, now)]);
        Step(next, Settled(id in s.parcels, trackingId, session.paymentIntent))
      else
        Step(s, NotPaid)
  }

  /**
   * POST /riders: insert the application with status "Pending", role
   * "rider" and the creation time; every other field is the body's.
   */
  function RegisterRider(s: State, body: Rider, now: Timestamp): (r: Step<ObjectId>)
    ensures r.reply == s.nextId && r.state.nextId == s.nextId + 1
    ensures Valid(s) ==> r.reply !in s.riders
    ensures r.state.riders.Keys == s.riders.Keys + {r.reply}
    ensures r.state.riders[r.reply] == body.(status := RiderPending, role := Some(RiderRole), createdAt := now)
    ensures forall k :: k in s.riders && k != r.reply ==> r.state.riders[k] == s.riders[k]
    ensures r.state.parcels == s.parcels && r.state.users == s.users
    ensures r.state.payments == s.payments && r.state.trackings == s.trackings
  {
    var rider := body.(status := RiderPending, role := Some(RiderRole), createdAt := now);
    Step(s.(riders := InsertOne(s.riders, s.nextId, rider), nextId := s.nextId + 1), s.nextId)
  }

  /**
   * PATCH /riders/:id: set the rider's approval status to the supplied
   * value and its work status to "available" whatever that value is; only
   * "approved" also promotes the first user with the supplied email to
   * role "rider". The reply says whether the rider existed.
   */
  function ReviewRider(s: State, riderId: ObjectId, status: string, email: string): (r: Step<bool>)
    ensures r.reply <==> riderId in s.riders
    ensures r.state.riders.Keys == s.riders.Keys
    ensures riderId in s.riders ==>
      r.state.riders[riderId] == s.riders[riderId].(status := status, workStatus := Some(Available))
    ensures forall k :: k in s.riders && k != riderId ==> r.state.riders[k] == s.riders[k]
    ensures |r.state.users| == |s.users|
    ensures forall i :: 0 <= i < |s.users| ==> r.state.users[i].email == s.users[i].email
    ensures status != Approved ==> r.state.users == s.users
    ensures forall i :: 0 <= i < |s.users| && s.users[i].email != email ==> r.state.users[i] == s.users[i]
    ensures forall i :: 0 <= i < |s.users| && (status != Approved || FindUser(s.users, email) != Some(i)) ==>
      r.state.users[i] == s.users[i]
    ensures status == Approved ==>
      forall i :: 0 <= i < |s.users| && s.users[i].email == email
                  && (forall j :: 0 <= j < i ==> s.users[j].email != email) ==>
        r.state.users[i] == s.users[i].(role := Some(RiderRole))
    ensures r.state.parcels == s.parcels && r.state.payments == s.payments
    ensures r.state.trackings == s.trackings && r.state.nextId == s.nextId
  {
    var riders := UpdateOne(s.riders, riderId,
      (rider: Rider) => rider.(status := status, workStatus := Some(Available)));
    var users :=
      if status == Approved then
        match FindUser(s.users, email)
        case None => s.users
        case Some(i) => s.users[i := s.users[i].(role := Some(RiderRole))]
      else s.users;
    Step(s.(riders := riders, users := users), riderId in s.riders)
  }

  /**
   * POST /users: force role "user" and stamp the creation time; insert
   * only when no user has the same email.
   */
  function RegisterUser(s: State, body: User, now: Timestamp): (r: Step<UserReply>)
    ensures r.reply == UserExists <==> exists i :: 0 <= i < |s.users| && s.users[i].email == body.email
    ensures r.reply == UserExists ==> r.state == s
    ensures r.reply == UserInserted ==>
      r.state.users == s.users + [body.(role := Some(UserRole), createdAt := now)]
    ensures r.state.parcels == s.parcels && r.state.riders == s.riders
    ensures r.state.payments == s.payments && r.state.trackings == s.trackings && r.state.nextId == s.nextId
  {
    var user := body.(role := Some(UserRole), createdAt := now);
    if FindUser(s.users, user.email).Some? then Step(s, UserExists)
    else Step(s.(users := s.users + [user]), UserInserted)
  }
}
