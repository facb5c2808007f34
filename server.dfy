/**
 * The server's five collections as one object whose request handlers
 * update them in place, in the order the handlers issue their writes.
 * Each handler is proved to leave the store in the state, and to give the
 * reply, that the matching transition function of `Lifecycle` describes,
 * and to keep the store invariant.
 */
module Server {
  import opened Common
  import opened Clock
  import opened TrackingIds
  import opened Ledger
  import opened Records
  import opened Lifecycle
  import opened LifecycleProperties

  class Store {
    var parcels: map<ObjectId, Parcel>
    var riders: map<ObjectId, Rider>
    var users: seq<User>
    var payments: seq<PaymentRecord>
    var trackings: seq<LedgerEntry>
    /** The identifier the next `insertOne` into parcels or riders receives. */
    var nextId: ObjectId

    /** The collections as a value. */
    function Model(): State
      reads this
    {
      State(parcels, riders, users, payments, trackings, nextId)
    }

    /** A fresh deployment: every collection empty. */
    constructor ()
      ensures Model() == Empty && Valid(Model())
    {
      parcels := map[];
      riders := map[];
      users := [];
      payments := [];
      trackings := [];
      nextId := 0;
    }

    /** POST /parcels. */
    method CreateParcel(body: Parcel, now: Timestamp, random: RandomBytes) returns (id: ObjectId)
      modifies this
      ensures var step := Lifecycle.CreateParcel(old(Model()), body, now, random);
        Model() == step.state && id == step.reply
      ensures Valid(old(Model())) ==> Valid(Model())
    {
      var trackingId := GenerateTrackingId(now, random);
      var parcel := Stamped(body, trackingId, now);
      trackings := trackings + [LedgerEntry(trackingId, ParcelCreated, now)];
      id := nextId;
      parcels := InsertOne(parcels, id, parcel);
      nextId := nextId + 1;
      if Valid(old(Model())) { CreateParcelKeepsValid(old(Model()), body, now, random); }
    }

    /** PATCH /parcels/:id, assigning a rider. */
    method AssignRider(parcelId: ObjectId, riderId: ObjectId, riderName: string, riderEmail: string,
                       trackingId: string, now: Timestamp) returns (reply: AssignReply)
      modifies this
      ensures var step := Lifecycle.AssignRider(old(Model()), parcelId, riderId, riderName, riderEmail,
                                                trackingId, now);
        Model() == step.state && reply == step.reply
      ensures Valid(old(Model())) ==> Valid(Model())
    {
      var parcelMatched := parcelId in parcels;
      if parcelMatched {
        parcels := parcels[parcelId := WithRider(parcels[parcelId], riderId, riderName, riderEmail)];
      }
      var riderMatched := riderId in riders;
      if riderMatched {
        riders := riders[riderId := WithWorkStatus(riders[riderId], InDelivery)];
      }
      trackings := trackings + [LedgerEntry(trackingId, DriverAssigned, now)];
      reply := AssignReply(parcelMatched, riderMatched);
      if Valid(old(Model())) { AssignRiderKeepsValid(old(Model()), parcelId, riderId, riderName, riderEmail, trackingId, now); }
    }

    /** PATCH /parcels/:id/status. */
    method SetDeliveryStatus(parcelId: ObjectId, status: string, riderId: Option<ObjectId>,
                             trackingId: string, now: Timestamp) returns (matched: bool)
      modifies this
      ensures var step := Lifecycle.SetDeliveryStatus(old(Model()), parcelId, status, riderId, trackingId, now);
        Model() == step.state && matched == step.reply
      ensures Valid(old(Model())) ==> Valid(Model())
    {
      if status == ParcelDelivered && riderId.Some? && riderId.value in riders {
        riders := riders[riderId.value := WithWorkStatus(riders[riderId.value], Available)];
      }
      matched := parcelId in parcels;
      if matched {
        parcels := parcels[parcelId := parcels[parcelId].(deliveryStatus := Some(status))];
      }
      trackings := trackings + [LedgerEntry(trackingId, status, now)];
      if Valid(old(Model())) { SetDeliveryStatusKeepsValid(old(Model()), parcelId, status, riderId, trackingId, now); }
    }

    /** PATCH /payment-success, for the checkout session the payment provider returned. */
    method ConfirmPayment(session: Session, now: Timestamp) returns (reply: PaymentReply)
      modifies this
      ensures var step := Lifecycle.ConfirmPayment(old(Model()), session, now);
        Model() == step.state && reply == step.reply
      ensures Valid(old(Model())) ==> Valid(Model())
    {
      var existing := FindPayment(payments, session.paymentIntent);
      if existing.Some? {
        reply := AlreadyExists(session.paymentIntent, payments[existing.value].trackingId);
      } else {
        var trackingId := session.metadata.trackingId;
        if session.paymentStatus == Paid {
          var id := session.metadata.parcelId;
          var parcelMatched := id in parcels;
          if parcelMatched {
            parcels := parcels[id := parcels[id].(paymentStatus := Some(Paid),
                                                  deliveryStatus := Some(PendingPickup))];
          }
          payments := payments + [PaymentOf(session, now)];
          trackings := trackings + [LedgerEntry(trackingId, ParcelPaid, now)];
          reply := Settled(parcelMatched, trackingId, session.paymentIntent);
        } else {
          reply := NotPaid;
        }
      }
      if Valid(old(Model())) { ConfirmPaymentKeepsValid(old(Model()), session, now); }
    }

    /** POST /riders. */
    method RegisterRider(body: Rider, now: Timestamp) returns (id: ObjectId)
      modifies this
      ensures var step := Lifecycle.RegisterRider(old(Model()), body, now);
        Model() == step.state && id == step.reply
      ensures Valid(old(Model())) ==> Valid(Model())
    {
      var rider := body.(status := RiderPending, role := Some(RiderRole), createdAt := now);
      id := nextId;
      riders := InsertOne(riders, id, rider);
      nextId := nextId + 1;
      if Valid(old(Model())) { RegisterRiderKeepsValid(old(Model()), body, now); }
    }

    /** PATCH /riders/:id, an administrator's decision on an application. */
    method ReviewRider(riderId: ObjectId, status: string, email: string) returns (matched: bool)
      modifies this
      ensures var step := Lifecycle.ReviewRider(old(Model()), riderId, status, email);
        Model() == step.state && matched == step.reply
      ensures Valid(old(Model())) ==> Valid(Model())
    {
      matched := riderId in riders;
      if matched {
        riders := riders[riderId := riders[riderId].(status := status, workStatus := Some(Available))];
      }
      if status == Approved {
        var found := FindUser(users, email);
        if found.Some? {
          users := users[found.value := users[found.value].(role := Some(RiderRole))];
        }
      }
      if Valid(old(Model())) { ReviewRiderKeepsValid(old(Model()), riderId, status, email); }
    }

    /** POST /users. */
    method RegisterUser(body: User, now: Timestamp) returns (reply: UserReply)
      modifies this
      ensures var step := Lifecycle.RegisterUser(old(Model()), body, now);
        Model() == step.state && reply == step.reply
      ensures Valid(old(Model())) ==> Valid(Model())
    {
      var user := body.(role := Some(UserRole), createdAt := now);
      if FindUser(users, user.email).Some? {
        reply := UserExists;
      } else {
        users := users + [user];
        reply := UserInserted;
      }
      if Valid(old(Model())) { RegisterUserKeepsValid(old(Model()), body, now); }
    }
  }
}
