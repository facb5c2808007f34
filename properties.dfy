/**
 * Properties of the lifecycle over single requests and over arbitrary
 * sequences of requests.
 */
module LifecycleProperties {
  import opened Common
  import opened Clock
  import opened TrackingIds
  import opened Ledger
  import opened Records
  import opened Lifecycle
  import opened Reports

  /** One request to the core, with its clock reading and random bytes. */
  datatype Op =
    | CreateParcelOp(body: Parcel, now: Timestamp, random: RandomBytes)
    | AssignRiderOp(parcelId: ObjectId, riderId: ObjectId, riderName: string, riderEmail: string,
                    trackingId: string, now: Timestamp)
    | SetStatusOp(parcelId: ObjectId, status: string, rider: Option<ObjectId>, trackingId: string,
                  now: Timestamp)
    | ConfirmPaymentOp(session: Session, now: Timestamp)
    | RegisterRiderOp(riderBody: Rider, now: Timestamp)
    | ReviewRiderOp(reviewedId: ObjectId, decision: string, email: string)
    | RegisterUserOp(userBody: User, now: Timestamp)

  function Apply(s: State, op: Op): (t: State)
    ensures t.nextId >= s.nextId
  {
    match op
    case CreateParcelOp(body, now, random) => CreateParcel(s, body, now, random).state
    case AssignRiderOp(p, r, name, email, tid, now) => AssignRider(s, p, r, name, email, tid, now).state
    case SetStatusOp(p, status, r, tid, now) => SetDeliveryStatus(s, p, status, r, tid, now).state
    case ConfirmPaymentOp(session, now) => ConfirmPayment(s, session, now).state
    case RegisterRiderOp(body, now) => RegisterRider(s, body, now).state
    case ReviewRiderOp(r, decision, email) => ReviewRider(s, r, decision, email).state
    case RegisterUserOp(body, now) => RegisterUser(s, body, now).state
  }

  /** The store after serving `ops` in order. */
  function Run(s: State, ops: seq<Op>): State
    decreases |ops|
  {
    if ops == [] then s else Run(Apply(s, ops[0]), ops[1..])
  }

  /** Every request keeps the store invariant. */
  lemma ApplyPreservesValid(s: State, op: Op)
    requires Valid(s)
    ensures Valid(Apply(s, op))
  {
    match op {
      case CreateParcelOp(body, now, random) => CreateParcelKeepsValid(s, body, now, random);
      case AssignRiderOp(p, r, name, email, tid, now) => AssignRiderKeepsValid(s, p, r, name, email, tid, now);
      case SetStatusOp(p, status, r, tid, now) => SetDeliveryStatusKeepsValid(s, p, status, r, tid, now);
      case ConfirmPaymentOp(session, now) => ConfirmPaymentKeepsValid(s, session, now);
      case RegisterRiderOp(body, now) => RegisterRiderKeepsValid(s, body, now);
      case ReviewRiderOp(rid, decision, email) => ReviewRiderKeepsValid(s, rid, decision, email);
      case RegisterUserOp(body, now) => RegisterUserKeepsValid(s, body, now);
    }
  }

  /** A parcel is inserted under the counter, which then moves past it. */
  lemma CreateParcelKeepsValid(s: State, body: Parcel, now: Timestamp, random: RandomBytes)
    requires Valid(s)
    ensures Valid(CreateParcel(s, body, now, random).state)
  {
  }

  /** Assigning a rider adds no identifier and touches neither payments nor users. */
  lemma AssignRiderKeepsValid(s: State, parcelId: ObjectId, riderId: ObjectId, riderName: string,
                              riderEmail: string, trackingId: string, now: Timestamp)
    requires Valid(s)
    ensures Valid(AssignRider(s, parcelId, riderId, riderName, riderEmail, trackingId, now).state)
  {
  }

  /** Setting a status adds no identifier and touches neither payments nor users. */
  lemma SetDeliveryStatusKeepsValid(s: State, parcelId: ObjectId, status: string, riderId: Option<ObjectId>,
                                    trackingId: string, now: Timestamp)
    requires Valid(s)
    ensures Valid(SetDeliveryStatus(s, parcelId, status, riderId, trackingId, now).state)
  {
  }

  /** A rider is inserted under the counter, which then moves past it. */
  lemma RegisterRiderKeepsValid(s: State, body: Rider, now: Timestamp)
    requires Valid(s)
    ensures Valid(RegisterRider(s, body, now).state)
  {
  }

  /** A settled payment is the only one with its transaction identifier. */
  lemma ConfirmPaymentKeepsValid(s: State, session: Session, now: Timestamp)
    requires Valid(s)
    ensures Valid(ConfirmPayment(s, session, now).state)
  {
    var r := ConfirmPayment(s, session, now);
    var t := r.state;
    if r.reply.Settled? {
      forall i, j | 0 <= i < j < |t.payments|
        ensures t.payments[i].transactionId != t.payments[j].transactionId
      {
        if j == |s.payments| {
          assert t.payments[j].transactionId == session.paymentIntent;
        }
      }
    }
  }

  /** A user is appended only under an email no stored user has. */
  lemma RegisterUserKeepsValid(s: State, body: User, now: Timestamp)
    requires Valid(s)
    ensures Valid(RegisterUser(s, body, now).state)
  {
    var r := RegisterUser(s, body, now);
    var t := r.state;
    if r.reply == UserInserted {
      forall i, j | 0 <= i < j < |t.users|
        ensures t.users[i].email != t.users[j].email
      {
        if j == |s.users| {
          assert t.users[j].email == body.email;
        }
      }
    }
  }

  /** Promoting a user rewrites its role, never its email. */
  lemma ReviewRiderKeepsValid(s: State, riderId: ObjectId, decision: string, email: string)
    requires Valid(s)
    ensures Valid(ReviewRider(s, riderId, decision, email).state)
  {
    var t := ReviewRider(s, riderId, decision, email).state;
    assert forall i :: 0 <= i < |t.users| ==> t.users[i].email == s.users[i].email;
  }

  /** Every sequence of requests from a valid store ends in a valid store. */
  lemma {:induction false} RunPreservesValid(s: State, ops: seq<Op>)
    requires Valid(s)
    ensures Valid(Run(s, ops))
    decreases |ops|
  {
    if ops != [] {
      ApplyPreservesValid(s, ops[0]);
      RunPreservesValid(Apply(s, ops[0]), ops[1..]);
    }
  }

  /** A single request appends at most one ledger entry and rewrites none. */
  lemma ApplyAppendsAtMostOne(s: State, op: Op)
    ensures |s.trackings| <= |Apply(s, op).trackings| <= |s.trackings| + 1
    ensures Apply(s, op).trackings[..|s.trackings|] == s.trackings
  {
    var t := Apply(s, op);
    match op {
      case ConfirmPaymentOp(session, now) =>
        var r := ConfirmPayment(s, session, now);
        if r.reply.Settled? {
          assert t.trackings == s.trackings + [LedgerEntry(session.metadata.trackingId, ParcelPaid, now)];
        }
      case _ =>
    }
  }

  /**
   * The ledger is append-only: after any sequence of requests the old
   * ledger is a prefix of the new one, and it has grown by at most one
   * entry per request.
   */
  lemma {:induction false} LedgerAppendOnly(s: State, ops: seq<Op>)
    ensures |s.trackings| <= |Run(s, ops).trackings| <= |s.trackings| + |ops|
    ensures Run(s, ops).trackings[..|s.trackings|] == s.trackings
    decreases |ops|
  {
    if ops != [] {
      var t := Apply(s, ops[0]);
      ApplyAppendsAtMostOne(s, ops[0]);
      LedgerAppendOnly(t, ops[1..]);
      var u := Run(t, ops[1..]);
      assert u.trackings[..|s.trackings|] == u.trackings[..|t.trackings|][..|s.trackings|];
    }
  }

  /**
   * Confirming the same session a second time writes nothing, whatever the
   * first confirmation did; when the session is paid the second reply
   * reports the transaction and tracking identifier of the first.
   */
  lemma ConfirmPaymentIdempotent(s: State, session: Session, t1: Timestamp, t2: Timestamp)
    ensures var first := ConfirmPayment(s, session, t1);
            var second := ConfirmPayment(first.state, session, t2);
            && second.state == first.state
            && (first.reply.Settled? ==>
                  second.reply == AlreadyExists(session.paymentIntent, session.metadata.trackingId))
            && (session.paymentStatus == Paid ==> second.reply.AlreadyExists?)
  {
    var first := ConfirmPayment(s, session, t1);
    if first.reply.Settled? {
      var ps := first.state.payments;
      assert ps[|s.payments|].transactionId == session.paymentIntent;
      match FindPayment(ps, session.paymentIntent)
      case Some(i) =>
        assert FindPayment(s.payments, session.paymentIntent).None?;
        assert i == |s.payments|;
      case None =>
        assert false;
    }
  }

  /** A paid session on a valid store leaves exactly one payment for its transaction. */
  lemma PaidSessionRecordedOnce(s: State, session: Session, now: Timestamp)
    requires Valid(s) && session.paymentStatus == Paid
    ensures var t := ConfirmPayment(s, session, now).state;
      exists i :: 0 <= i < |t.payments| && t.payments[i].transactionId == session.paymentIntent
        && forall j :: 0 <= j < |t.payments| && t.payments[j].transactionId == session.paymentIntent ==> j == i
  {
    var r := ConfirmPayment(s, session, now);
    ConfirmPaymentKeepsValid(s, session, now);
    var t := r.state;
    if r.reply.Settled? {
      assert t.payments[|s.payments|].transactionId == session.paymentIntent;
    } else {
      var i :| 0 <= i < |s.payments| && s.payments[i].transactionId == session.paymentIntent;
      assert t.payments[i].transactionId == session.paymentIntent;
    }
  }

  /**
   * Reviewing a rider makes it available; assigning it a parcel puts it
   * in delivery; marking that parcel delivered with the same rider makes
   * it available again.
   */
  lemma RiderWorkCycle(s: State, riderId: ObjectId, decision: string, email: string,
                       parcelId: ObjectId, riderName: string, riderEmail: string,
                       trackingId: string, t1: Timestamp, t2: Timestamp)
    requires riderId in s.riders
    ensures var s1 := ReviewRider(s, riderId, decision, email).state;
            var s2 := AssignRider(s1, parcelId, riderId, riderName, riderEmail, trackingId, t1).state;
            var s3 := SetDeliveryStatus(s2, parcelId, ParcelDelivered, Some(riderId), trackingId, t2).state;
            && s1.riders[riderId].workStatus == Some(Available)
            && s2.riders[riderId].workStatus == Some(InDelivery)
            && s3.riders[riderId].workStatus == Some(Available)
            && (parcelId in s.parcels ==>
                  && s2.parcels[parcelId].deliveryStatus == Some(DriverAssigned)
                  && s3.parcels[parcelId].deliveryStatus == Some(ParcelDelivered)
                  && s3.parcels[parcelId].riderId == Some(riderId))
  {
  }

  /** Approving a rider whose email has a user account gives that account the role "rider". */
  lemma ApprovalPromotesRole(s: State, riderId: ObjectId, email: string)
    requires exists i :: 0 <= i < |s.users| && s.users[i].email == email
    ensures RoleOf(ReviewRider(s, riderId, Approved, email).state.users, email) == RiderRole
  {
    var t := ReviewRider(s, riderId, Approved, email).state;
    var i := FindUser(s.users, email).value;
    assert t.users[i] == s.users[i].(role := Some(RiderRole));
    assert FindUser(t.users, email) == Some(i);
  }

  /** Any other decision leaves every reported role as it was. */
  lemma OtherDecisionsKeepRoles(s: State, riderId: ObjectId, decision: string, email: string, who: string)
    requires decision != Approved
    ensures RoleOf(ReviewRider(s, riderId, decision, email).state.users, who) == RoleOf(s.users, who)
  {
  }

  /** A newly registered user is reported with role "user", even if the body asked for another. */
  lemma RegisteredUserHasUserRole(s: State, body: User, now: Timestamp)
    requires forall i :: 0 <= i < |s.users| ==> s.users[i].email != body.email
    ensures RoleOf(RegisterUser(s, body, now).state.users, body.email) == UserRole
  {
    var r := RegisterUser(s, body, now);
    assert r.reply == UserInserted;
    var t := r.state;
    assert t.users[|s.users|].email == body.email;
    assert forall j :: 0 <= j < |s.users| ==> t.users[j] == s.users[j];
    assert FindUser(t.users, body.email) == Some(|s.users|);
  }

  /**
   * End to end: register and approve a rider, create a parcel, confirm
   * its paid session, assign the rider and mark the parcel delivered. The
   * parcel's history is created, paid, assigned, delivered; the parcel is
   * paid and delivered; the rider is approved and available again.
   */
  lemma EndToEnd(rider: Rider, parcel: Parcel, random: RandomBytes, session: Session,
                 t0: Timestamp, t1: Timestamp, t2: Timestamp, t3: Timestamp, t4: Timestamp)
    requires session.metadata.parcelId == 1
    requires session.metadata.trackingId == GenerateTrackingId(t1, random)
    requires session.paymentStatus == Paid
    ensures var tid := GenerateTrackingId(t1, random);
      var s1 := RegisterRider(Empty, rider, t0).state;
      var s2 := ReviewRider(s1, 0, Approved, rider.riderEmail).state;
      var s3 := CreateParcel(s2, parcel, t1, random).state;
      var s4 := ConfirmPayment(s3, session, t2).state;
      var s5 := AssignRider(s4, 1, 0, rider.riderName, rider.riderEmail, tid, t3).state;
      var s6 := SetDeliveryStatus(s5, 1, ParcelDelivered, Some(0), tid, t4).state;
      && Statuses(History(s6.trackings, tid)) == [ParcelCreated, ParcelPaid, DriverAssigned, ParcelDelivered]
      && 1 in s6.parcels && s6.parcels[1].paymentStatus == Some(Paid)
      && s6.parcels[1].deliveryStatus == Some(ParcelDelivered) && s6.parcels[1].riderId == Some(0)
      && 0 in s6.riders && s6.riders[0].workStatus == Some(Available) && s6.riders[0].status == Approved
      && |s6.payments| == 1
  {
    var tid := GenerateTrackingId(t1, random);
    SetUp(rider, parcel, random, t0, t1);
    var s1 := RegisterRider(Empty, rider, t0).state;
    var s2 := ReviewRider(s1, 0, Approved, rider.riderEmail).state;
    var s3 := CreateParcel(s2, parcel, t1, random).state;
    Delivery(s3, session, tid, rider.riderName, rider.riderEmail, t2, t3, t4);
  }

  /** The first three requests of the scenario: the rider is approved and the parcel created. */
  lemma SetUp(rider: Rider, parcel: Parcel, random: RandomBytes, t0: Timestamp, t1: Timestamp)
    ensures var s1 := RegisterRider(Empty, rider, t0).state;
      var s2 := ReviewRider(s1, 0, Approved, rider.riderEmail).state;
      var s3 := CreateParcel(s2, parcel, t1, random).state;
      && s3.payments == [] && 1 in s3.parcels && 0 in s3.riders && s3.riders[0].status == Approved
      && |s3.trackings| == 1 && s3.trackings[0].trackingId == GenerateTrackingId(t1, random)
      && s3.trackings[0].status == ParcelCreated
  {
    var s1 := RegisterRider(Empty, rider, t0).state;
    var s2 := ReviewRider(s1, 0, Approved, rider.riderEmail).state;
    assert s1.nextId == 1 && 0 in s1.riders && s1.trackings == [] && s1.payments == [];
    assert s2.nextId == 1 && 0 in s2.riders && s2.riders[0].status == Approved;
    assert s2.trackings == [] && s2.payments == [];
    var tid := GenerateTrackingId(t1, random);
    var s3 := CreateParcel(s2, parcel, t1, random).state;
    assert s3.riders == s2.riders && s3.payments == [];
    assert s3.trackings == [LedgerEntry(tid, ParcelCreated, t1)];
  }

  /** The last three requests of the scenario: payment, assignment, delivery. */
  lemma Delivery(s3: State, session: Session, tid: string, name: string, email: string,
                 t2: Timestamp, t3: Timestamp, t4: Timestamp)
    requires s3.payments == [] && 1 in s3.parcels && 0 in s3.riders && s3.riders[0].status == Approved
    requires session.metadata.parcelId == 1 && session.metadata.trackingId == tid
    requires session.paymentStatus == Paid
    requires |s3.trackings| == 1 && s3.trackings[0].trackingId == tid && s3.trackings[0].status == ParcelCreated
    ensures var s4 := ConfirmPayment(s3, session, t2).state;
      var s5 := AssignRider(s4, 1, 0, name, email, tid, t3).state;
      var s6 := SetDeliveryStatus(s5, 1, ParcelDelivered, Some(0), tid, t4).state;
      && Statuses(History(s6.trackings, tid)) == [ParcelCreated, ParcelPaid, DriverAssigned, ParcelDelivered]
      && 1 in s6.parcels && s6.parcels[1].paymentStatus == Some(Paid)
      && s6.parcels[1].deliveryStatus == Some(ParcelDelivered) && s6.parcels[1].riderId == Some(0)
      && 0 in s6.riders && s6.riders[0].workStatus == Some(Available) && s6.riders[0].status == Approved
      && |s6.payments| == 1
  {
    var r4 := ConfirmPayment(s3, session, t2);
    assert r4.reply.Settled?;
    var s4 := r4.state;
    var s5 := AssignRider(s4, 1, 0, name, email, tid, t3).state;
    var s6 := SetDeliveryStatus(s5, 1, ParcelDelivered, Some(0), tid, t4).state;
    var e1 := s3.trackings[0];
    var e2, e3, e4 := LedgerEntry(tid, ParcelPaid, t2), LedgerEntry(tid, DriverAssigned, t3),
                      LedgerEntry(tid, ParcelDelivered, t4);
    assert s3.trackings == [e1];
    LogOfFour(s3.trackings, s4.trackings, s5.trackings, s6.trackings, e1, e2, e3, e4);
    HistoryOfFour(e1, e2, e3, e4, tid);
  }

  lemma HistoryOfFour(e1: LedgerEntry, e2: LedgerEntry, e3: LedgerEntry, e4: LedgerEntry, tid: string)
    requires e1.trackingId == tid && e2.trackingId == tid && e3.trackingId == tid && e4.trackingId == tid
    ensures Statuses(History([e1, e2, e3, e4], tid)) == [e1.status, e2.status, e3.status, e4.status]
  {
    HistoryOfOwnEntries([e1, e2, e3, e4], tid);
  }

  lemma LogOfFour(l1: seq<LedgerEntry>, l2: seq<LedgerEntry>, l3: seq<LedgerEntry>, l4: seq<LedgerEntry>,
                  e1: LedgerEntry, e2: LedgerEntry, e3: LedgerEntry, e4: LedgerEntry)
    requires l1 == [e1] && l2 == l1 + [e2] && l3 == l2 + [e3] && l4 == l3 + [e4]
    ensures l4 == [e1, e2, e3, e4]
  {
  }

  /**
   * A parcel marked "parcel_delivered" under its own tracking identifier
   * shows up in its rider's per-day report on the day of the request.
   */
  lemma DeliveryIsReported(s: State, parcelId: ObjectId, riderId: Option<ObjectId>, now: Timestamp,
                           email: string)
    requires parcelId in s.parcels && s.parcels[parcelId].riderEmail == Some(email)
    ensures var tid := s.parcels[parcelId].trackingId;
      var t := SetDeliveryStatus(s, parcelId, ParcelDelivered, riderId, tid, now).state;
      Count(DeliveriesPerDay(t.parcels, t.trackings, email), IsoDate(now)) >= 1
  {
    var tid := s.parcels[parcelId].trackingId;
    var t := SetDeliveryStatus(s, parcelId, ParcelDelivered, riderId, tid, now).state;
    var i := |s.trackings|;
    assert t.trackings[i] == LedgerEntry(tid, ParcelDelivered, now);
    assert Delivered(t.parcels[parcelId], email);
    assert (parcelId, i) in DayRows(t.parcels, t.trackings, email, IsoDate(now));
    DeliveriesPerDayCounts(t.parcels, t.trackings, email, IsoDate(now));
  }
}
