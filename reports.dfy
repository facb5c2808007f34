/**
 * GET /riders/delivery-per-day: the aggregation that counts a rider's
 * deliveries per calendar day. The stages are modelled one by one:
 * match the rider's delivered parcels, join each to the ledger entries
 * with its tracking identifier, keep the "parcel_delivered" entries,
 * turn each entry's time into a "YYYY-MM-DD" day and count per day.
 * The group stage's output order is unspecified, so the report is a map
 * from day to count.
 */
module Reports {
  import opened Common
  import opened Clock
  import opened Ledger
  import opened Records

  /** The first match stage: the rider's parcel whose delivery status is "parcel_delivered". */
  predicate Delivered(p: Parcel, email: string) {
    p.riderEmail == Some(email) && p.deliveryStatus == Some(ParcelDelivered)
  }

  /** The `$dateToString` stage: the UTC day of a ledger entry. */
  function DeliveryDay(e: LedgerEntry): string {
    IsoDate(e.createdAt)
  }

  /** The lookup stage seen from one ledger entry: the matched parcels that join it. */
  function Joined(parcels: map<ObjectId, Parcel>, e: LedgerEntry, email: string): set<ObjectId> {
    set k | k in parcels && Delivered(parcels[k], email) && parcels[k].trackingId == e.trackingId
  }

  /** How many documents the group stage counted for `day`; zero when it has no group. */
  function Count(report: map<string, nat>, day: string): nat {
    if day in report then report[day] else 0
  }

  /**
   * The report, built one ledger entry at a time: a "parcel_delivered"
   * entry adds one document per matched parcel that joins it to the
   * group of its day. Every ledger entry counts; none is deduplicated.
   */
  function DeliveriesPerDay(parcels: map<ObjectId, Parcel>, ledger: seq<LedgerEntry>, email: string)
    : (report: map<string, nat>)
    ensures forall day :: day in report ==> report[day] > 0
    decreases |ledger|
  {
    if ledger == [] then map[]
    else
      var report := DeliveriesPerDay(parcels, ledger[..|ledger| - 1], email);
      var e := ledger[|ledger| - 1];
      var n := |Joined(parcels, e, email)|;
      if e.status != ParcelDelivered || n == 0 then report
      else report[DeliveryDay(e) := Count(report, DeliveryDay(e)) + n]
  }

  /**
   * The documents that reach the group stage for `day`: one per pair of a
   * matched parcel and a "parcel_delivered" ledger entry (by index) with
   * the parcel's tracking identifier, logged on that day.
   */
  function DayRows(parcels: map<ObjectId, Parcel>, ledger: seq<LedgerEntry>, email: string, day: string)
    : set<(ObjectId, int)>
  {
    set k, i | k in parcels && 0 <= i < |ledger| && Delivered(parcels[k], email)
               && ledger[i].trackingId == parcels[k].trackingId
               && ledger[i].status == ParcelDelivered && DeliveryDay(ledger[i]) == day :: (k, i)
  }

  /** The documents of one ledger entry (by index) after the unwind: one per joined parcel. */
  function Paired(ks: set<ObjectId>, i: int): set<(ObjectId, int)> {
    set k | k in ks :: (k, i)
  }

  /** Pairing every element of a set with the same index keeps its size. */
  lemma {:induction false} PairedSize(ks: set<ObjectId>, i: int)
    ensures |Paired(ks, i)| == |ks|
    decreases |ks|
  {
    if ks != {} {
      var k :| k in ks;
      var rest := ks - {k};
      PairedSize(rest, i);
      assert Paired(ks, i) == Paired(rest, i) + {(k, i)};
      assert (k, i) !in Paired(rest, i);
    }
  }

  /** The rows of a ledger with one more entry: the old rows plus the rows of the new entry. */
  lemma DayRowsSnoc(parcels: map<ObjectId, Parcel>, ledger: seq<LedgerEntry>, email: string, day: string)
    requires ledger != []
    ensures var prefix := ledger[..|ledger| - 1];
      var e := ledger[|ledger| - 1];
      var added := Paired(Joined(parcels, e, email), |ledger| - 1);
      DayRows(parcels, ledger, email, day)
        == DayRows(parcels, prefix, email, day)
           + (if e.status == ParcelDelivered && DeliveryDay(e) == day then added else {})
  {
    var prefix := ledger[..|ledger| - 1];
    var e := ledger[|ledger| - 1];
    var added := Paired(Joined(parcels, e, email), |ledger| - 1);
    var extra := if e.status == ParcelDelivered && DeliveryDay(e) == day then added else {};
    forall row | row in DayRows(parcels, ledger, email, day)
      ensures row in DayRows(parcels, prefix, email, day) + extra
    {
      var (k, i) := row;
      if i == |ledger| - 1 {
        assert k in Joined(parcels, e, email);
      } else {
        assert prefix[i] == ledger[i];
      }
    }
    forall row | row in DayRows(parcels, prefix, email, day) + extra
      ensures row in DayRows(parcels, ledger, email, day)
    {
      var (k, i) := row;
      if row in DayRows(parcels, prefix, email, day) {
        assert prefix[i] == ledger[i];
      }
    }
  }

  /**
   * The report agrees with the pipeline's documents: a day is in the
   * report exactly when some matched parcel has a delivered entry on it,
   * and its count is the number of (parcel, entry) pairs for that day.
   */
  lemma {:induction false} DeliveriesPerDayCounts(parcels: map<ObjectId, Parcel>, ledger: seq<LedgerEntry>,
                                                  email: string, day: string)
    ensures day in DeliveriesPerDay(parcels, ledger, email) <==> DayRows(parcels, ledger, email, day) != {}
    ensures Count(DeliveriesPerDay(parcels, ledger, email), day) == |DayRows(parcels, ledger, email, day)|
    decreases |ledger|
  {
    if ledger != [] {
      var prefix := ledger[..|ledger| - 1];
      var e := ledger[|ledger| - 1];
      var joined := Joined(parcels, e, email);
      var added := Paired(joined, |ledger| - 1);
      DeliveriesPerDayCounts(parcels, prefix, email, day);
      DayRowsSnoc(parcels, ledger, email, day);
      PairedSize(joined, |ledger| - 1);
      DeliveriesPerDayStep(parcels, ledger, email, day);
      if e.status == ParcelDelivered && DeliveryDay(e) == day {
        NewEntryRowsAreNew(parcels, prefix, email, day, joined);
      }
    }
  }

  /**
   * One more ledger entry changes the report only at its own day, where
   * the count grows by the number of parcels it joins if it is a delivery.
   */
  lemma DeliveriesPerDayStep(parcels: map<ObjectId, Parcel>, ledger: seq<LedgerEntry>, email: string, day: string)
    requires ledger != []
    ensures var prefix := ledger[..|ledger| - 1];
      var e := ledger[|ledger| - 1];
      var n := if e.status == ParcelDelivered && DeliveryDay(e) == day then |Joined(parcels, e, email)| else 0;
      && (day in DeliveriesPerDay(parcels, ledger, email) <==> day in DeliveriesPerDay(parcels, prefix, email) || n > 0)
      && Count(DeliveriesPerDay(parcels, ledger, email), day) == Count(DeliveriesPerDay(parcels, prefix, email), day) + n
  {
  }

  /**
   * The rows of a new entry are indexed past every earlier row, so the
   * count of a day grows by exactly the number of rows the entry adds.
   */
  lemma NewEntryRowsAreNew(parcels: map<ObjectId, Parcel>, prefix: seq<LedgerEntry>, email: string,
                           day: string, joined: set<ObjectId>)
    ensures var rows := DayRows(parcels, prefix, email, day);
      var added := Paired(joined, |prefix|);
      |rows + added| == |rows| + |added|
  {
    var rows := DayRows(parcels, prefix, email, day);
    var added := Paired(joined, |prefix|);
    forall row | row in rows ensures row !in added {
      assert row.1 < |prefix|;
    }
    assert rows * added == {};
  }

  /**
   * The pipeline does not deduplicate: a matched parcel logged
   * "parcel_delivered" twice on one day counts at least twice that day.
   */
  lemma RepeatedDeliveryCountsTwice(parcels: map<ObjectId, Parcel>, ledger: seq<LedgerEntry>, email: string,
                                    k: ObjectId, i: int, j: int)
    requires k in parcels && Delivered(parcels[k], email)
    requires 0 <= i < |ledger| && 0 <= j < |ledger| && i != j
    requires ledger[i].trackingId == parcels[k].trackingId && ledger[i].status == ParcelDelivered
    requires ledger[j].trackingId == parcels[k].trackingId && ledger[j].status == ParcelDelivered
    requires DeliveryDay(ledger[i]) == DeliveryDay(ledger[j])
    ensures Count(DeliveriesPerDay(parcels, ledger, email), DeliveryDay(ledger[i])) >= 2
  {
    var day := DeliveryDay(ledger[i]);
    DeliveriesPerDayCounts(parcels, ledger, email, day);
    var rows := DayRows(parcels, ledger, email, day);
    var both := {(k, i), (k, j)};
    assert (k, i) in rows && (k, j) in rows;
    var others := rows - both;
    assert rows == others + both;
    assert |both| == 2;
  }
}
