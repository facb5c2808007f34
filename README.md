# zap-shift parcel lifecycle in Dafny

This project models the core of the zap-shift courier server (`index.js`). That core has five parts:

- the tracking identifier `generateTrackingId` gives a new parcel;
- the tracking ledger that `logTracking` appends to;
- the request handlers that move a parcel through its life: create, pay, assign a rider, set the delivery status;
- the bookkeeping of riders and users: rider registration and review, user registration, role lookup;
- the aggregation that counts a rider's deliveries per day.

The five MongoDB collections are modelled as one store:

- parcels and riders are maps from object identifier to document;
- users, payments and the trackings ledger are sequences in insertion order, since they are searched by email or transaction identifier and `findOne` returns the first match.

Each handler is modelled in two forms:

- a pure transition function in `Lifecycle`, from the store before the request to the store after it and the reply;
- a method of the class `Server.Store`, which updates the collections in place in the order the handler writes them. Each method is proved to end in exactly the state, with exactly the reply, that its transition function gives, and to keep the store invariant.

Properties that relate several requests are lemmas in `LifecycleProperties`:

- the invariant is preserved;
- the ledger is append-only;
- payment confirmation is idempotent;
- a rider's work status cycles;
- role promotion works as described;
- an end-to-end scenario runs as expected.

The clock, the random bytes and the payment provider's checkout session are inputs: every request takes its clock reading, its random bytes or its session as a parameter.

Files:

- `common.dfy`: `Option`, bytes, object identifiers.
- `clock.dfy`: a UTC instant and its `toISOString` rendering.
- `tracking_id.dfy`: the tracking identifier.
- `ledger.dfy`: ledger entries, `details` and per-parcel history.
- `records.dfy`: documents and the `findOne` lookups.
- `lifecycle.dfy`: the store and one transition function per handler.
- `properties.dfy`: properties over several requests.
- `reports.dfy`: deliveries per day.
- `server.dfy`: the `Store` class.

The model follows `index.js` as written; in particular:

- A rider is never checked for approval or current work before assignment.
- Reviewing a rider sets `workStatus` to "available" for every decision, and stores the decision string verbatim.
- Registration stores status "Pending", with a capital P, while review compares against "approved".
- An update whose identifier matches no document changes nothing and is not an error. The ledger entry of that request is still appended.
- A failed write is never reported as a partial failure.
- The per-day report counts every matching ledger entry. It does not count each parcel once.
- `POST /parcels` stores the request body as given. Only the tracking identifier and the creation time are overwritten.

## Model

| member | source | states |
|---|---|---|
| Clock.Digits | index.js:20 | zero-padded decimal rendering: exactly `width` digits that read back as the number |
| Clock.IsoDate | index.js:20 | `toISOString().slice(0, 10)`: 10 characters with '-' at 4 and 7, and the three segments read back as year, month and day |
| Clock.IsoString | index.js:20 | `toISOString()`: 24 characters whose first 10 are the ISO date |
| TrackingIds.RemoveAll | index.js:20 | `replace(/-/g, "")`: the result has no occurrence of the removed character |
| TrackingIds.RemoveAllAppend | index.js:20 | removing a character distributes over concatenation |
| TrackingIds.RemoveAllAbsent | index.js:20 | removing a character that does not occur leaves the string unchanged |
| TrackingIds.DateToken | index.js:20 | the date segment has 8 characters; its first 4, next 2 and last 2 are decimal and read back as year, month and day |
| TrackingIds.HexLower | index.js:21 | `toString("hex")`: two characters per byte, and the characters at 2i and 2i+1 are the lower-case digits of byte i's high and low nibble |
| TrackingIds.UpperCaseOfHexLower | index.js:21 | `toUpperCase` (modelled by `UpperCase`) applied to the hex rendering: upper-casing the lower-case hex rendering of the bytes gives their upper-case hex rendering |
| TrackingIds.HexDigitRoundTrip | index.js:21 | each upper-case hex digit reads back as its value |
| TrackingIds.HexUpperIsHex | index.js:21 | the upper-case hex rendering consists of upper-case hex digits only |
| TrackingIds.ParseHexSnoc | index.js:21 | appending two digits to a hex string appends exactly one byte to what it parses to |
| TrackingIds.HexUpperRoundTrip | index.js:21 | the upper-case hex rendering parses back to the bytes it came from |
| TrackingIds.GenerateTrackingId | index.js:18-23 | the identifier has 20 characters |
| TrackingIds.TrackingIdShape | index.js:18-23 | the identifier is "PRCL-", then 8 decimal digits that read back as the day of `now`, then "-", then 6 upper-case hex digits that read back as the random bytes |
| TrackingIds.GenerateTrackingIdInjective | index.js:18-23 | equal identifiers come from the same calendar day and the same random bytes |
| Ledger.Split | index.js:107 | `String.prototype.split`: at least one part, and no part contains the separator |
| Ledger.JoinSplitIsReplace | index.js:107 | `split(sep).join(by)` (`Array.prototype.join` is modelled by `Join`) replaces every separator by `by`, position by position |
| Ledger.JoinSplitRoundTrip | index.js:107 | joining the split parts with the same separator gives back the string |
| Ledger.DetailsOf | index.js:103-109 | `details` has the length of `status`, contains no '_', is `status` with each '_' replaced by ' ', and equals `status` when `status` has no '_' |
| Ledger.HistoryMembers | index.js:636-641 | an entry is in a tracking identifier's history exactly when it is in the ledger and has that identifier |
| Ledger.HistoryOfOwnEntries | index.js:636-641 | a ledger made only of one identifier's entries is that identifier's whole history, in order |
| Ledger.HistoryAppend | index.js:103-112 | appending an entry extends its own identifier's history by that entry and leaves every other history unchanged |
| Records.FindFirst | index.js:143 | `findOne({ field: value })` on users by email and on payments by transaction identifier: the index of the first document whose field has the value, or none exactly when no document has it |
| Records.RoleOf | index.js:140-145 | the reported role is never empty; it is "user" when no user has the email, and the first such user's non-empty role otherwise |
| Lifecycle.UpdateOne | index.js:258-269 | `updateOne` by identifier rewrites only the matched document, and a missing identifier changes nothing |
| Lifecycle.InsertOne | index.js:251 | `insertOne` adds the document under its identifier and changes no other document |
| Lifecycle.CreateParcel | index.js:244-253 | the body is stored under a fresh identifier, stamped with the generated tracking identifier and time; one "parcel_created" entry is appended; nothing else changes |
| Lifecycle.AssignRider | index.js:256-290 | the parcel gets "driver_assigned" and the rider's identity; the rider gets "in_delivery"; one "driver_assigned" entry is appended; no other parcel or rider changes; the reply says which identifiers matched |
| Lifecycle.SetDeliveryStatus | index.js:292-316 | the parcel's status becomes the supplied token; only "parcel_delivered" with a rider identifier makes that rider "available", and any other token leaves the riders unchanged; one entry with the token is appended |
| Lifecycle.ConfirmPayment | index.js:385-446 | a transaction already recorded is reported with the tracking identifier of the first payment that has it, with no write; an unpaid session writes nothing; a paid one marks the parcel paid and "pending-pickup", records one payment and appends one "parcel_paid" entry |
| Lifecycle.RegisterRider | index.js:587-595 | the application is stored under a fresh identifier with status "Pending", role "rider" and the creation time; nothing else changes |
| Lifecycle.ReviewRider | index.js:597-624 | the rider gets the supplied status and "available" whatever the status; only "approved" gives the first user with the email the role "rider", and every other user keeps its document; no email changes |
| Lifecycle.RegisterUser | index.js:147-160 | a taken email leaves the store unchanged; otherwise the user is appended with role "user" and the creation time |
| LifecycleProperties.Apply | index.js:244-624 | no request moves the identifier counter backwards |
| LifecycleProperties.ApplyPreservesValid | index.js:244-624 | every request keeps identifiers below the counter, transaction identifiers unique and emails unique |
| LifecycleProperties.ConfirmPaymentKeepsValid | index.js:391-446 | a settled payment is the only one with its transaction identifier |
| LifecycleProperties.RegisterUserKeepsValid | index.js:147-160 | a user is added only under an email no one has |
| LifecycleProperties.ReviewRiderKeepsValid | index.js:597-624 | promoting a user never changes an email |
| LifecycleProperties.RunPreservesValid | index.js:244-624 | every sequence of requests from a valid store ends in a valid store |
| LifecycleProperties.ApplyAppendsAtMostOne | index.js:103-112 | a request appends at most one ledger entry and rewrites none |
| LifecycleProperties.LedgerAppendOnly | index.js:103-112 | after any sequence of requests the old ledger is a prefix of the new one, grown by at most one entry per request |
| LifecycleProperties.ConfirmPaymentIdempotent | index.js:391-401 | confirming a session a second time writes nothing; after a settlement it reports that settlement's transaction and tracking identifiers |
| LifecycleProperties.PaidSessionRecordedOnce | index.js:391-434 | after a paid session on a valid store exactly one payment has its transaction identifier |
| LifecycleProperties.RiderWorkCycle | index.js:256-316 | review, assignment, then delivery take the rider through available, in_delivery, available; the parcel ends delivered by that rider |
| LifecycleProperties.ApprovalPromotesRole | index.js:140-145 | approving a rider whose email has an account makes the role lookup report "rider" |
| LifecycleProperties.OtherDecisionsKeepRoles | index.js:609-621 | any other decision leaves every reported role unchanged |
| LifecycleProperties.RegisteredUserHasUserRole | index.js:147-160 | a newly registered user is reported with role "user" whatever role the body carried |
| LifecycleProperties.EndToEnd | index.js:244-624 | register and approve a rider, create, pay, assign and deliver a parcel: the parcel's history is created, paid, assigned, delivered; the parcel is paid and delivered by the rider; the rider is approved and available; one payment exists |
| LifecycleProperties.DeliveryIsReported | index.js:292-316 | a parcel marked delivered under its own tracking identifier appears in its rider's per-day report on the day of the request |
| Reports.DeliveriesPerDay | index.js:528-576 | every day in the report has a positive count |
| Reports.PairedSize | index.js:538-548 | pairing one ledger entry with the set of parcels it joins gives one document per parcel |
| Reports.DayRowsSnoc | index.js:539-554 | one more ledger entry adds exactly its own joined documents to its day |
| Reports.DeliveriesPerDayStep | index.js:565-570 | one more ledger entry changes the report only at its own day, where a delivery adds the number of parcels it joins |
| Reports.NewEntryRowsAreNew | index.js:539-554 | the documents of a new ledger entry are distinct from every earlier document, so a day's count grows by exactly their number |
| Reports.DeliveriesPerDayCounts | index.js:528-576 | a day is in the report exactly when some (delivered parcel of the rider, "parcel_delivered" entry with its tracking identifier) pair falls on it, and its count is the number of such pairs |
| Reports.RepeatedDeliveryCountsTwice | index.js:528-576 | a parcel logged "parcel_delivered" twice on one day counts at least twice that day |
| Server.Store.constructor | index.js:69-74 | a fresh deployment has empty collections and satisfies the invariant |
| Server.Store.CreateParcel | index.js:244-253 | the new collections and the reply are those of `Lifecycle.CreateParcel`, and the invariant is kept |
| Server.Store.AssignRider | index.js:256-290 | the new collections and the reply are those of `Lifecycle.AssignRider`, and the invariant is kept |
| Server.Store.SetDeliveryStatus | index.js:292-316 | the new collections and the reply are those of `Lifecycle.SetDeliveryStatus`, and the invariant is kept |
| Server.Store.ConfirmPayment | index.js:385-446 | the new collections and the reply are those of `Lifecycle.ConfirmPayment`, and the invariant is kept |
| Server.Store.RegisterRider | index.js:587-595 | the new collections and the reply are those of `Lifecycle.RegisterRider`, and the invariant is kept |
| Server.Store.ReviewRider | index.js:597-624 | the new collections and the reply are those of `Lifecycle.ReviewRider`, and the invariant is kept |
| Server.Store.RegisterUser | index.js:147-160 | the new collections and the reply are those of `Lifecycle.RegisterUser`, and the invariant is kept |

## Left out

- Express routing, CORS, the listener, Firebase token checks and the admin and rider gates: plumbing and access control, not lifecycle logic.
- MongoDB connection, ping and error handling: the collections are in-memory values, and every write succeeds.
- Stripe checkout-session creation and the `parseInt(cost) * 100` conversion: a foreign SDK and number coercion. The session the provider returns is an input record.
- `amount_total / 100`: floating division. The payment document keeps the amount in cents.
- Requests are served one at a time: each handler is an atomic transition. In the source, `PATCH /payment-success` is a `findOne` followed by an `insertOne` with no unique index, and `POST /users` is the same. Two concurrent confirmations of one paid session can both insert a payment and both log "parcel_paid", and two concurrent registrations can both insert a user. So LifecycleProperties.PaidSessionRecordedOnce, LifecycleProperties.ConfirmPaymentIdempotent and the invariant's `PaymentsUnique` and `EmailsUnique` parts (Lifecycle.Valid) hold only for requests served one after another.
- The fire-and-forget `logTracking` calls are not awaited. The model appends each entry in order, at the point of the call, so interleavings with other requests are not modelled.
- Each request reads the clock once. The source calls `new Date()` several times per request, and those readings can differ by a few milliseconds.
- The clock is a UTC calendar instant given as input, with years 0 to 9999. The conversion from epoch milliseconds and the expanded-year form of `toISOString` are not part of this model.
- `String.prototype.toUpperCase` is modelled for ASCII only. Hex digits are ASCII.
- Identifiers are natural numbers from one counter. Parsing a string into an `ObjectId`, and a malformed identifier throwing, are not modelled. A missing rider identifier in the set-status body is `None`, which matches no rider.
- Users and payments carry no identifier. `PATCH /users/:id/role` matches a user by `_id`, but it is not modelled; no modelled handler looks a user or payment up by identifier.
- Request bodies carry only the modelled fields. Other fields are passed through by the source unchanged.
- Every field a handler reads is present and is a string. A missing field is not modelled: for example `PATCH /parcels/:id/status` without `deliveryStatus` writes `undefined` to the parcel, and `status.split` in `logTracking` then throws in a promise nobody awaits.
- Ledger.LedgerEntry: `details` is derived from `status` by `Details()` instead of being stored, so it cannot disagree with `status`.
- Nothing enforces that ledger times increase.
- The list, search and status-count endpoints, the delete endpoints and `PATCH /users/:id/role` only pass parameters to storage. `GET /trackings/:trackingId/logs` is modelled only as the `Ledger.History` helper.
- Reports.DeliveriesPerDay: a missing `email` query parameter is not modelled; the email is always a string. The group stage's output order is left unspecified, so the report is a map from day to count.
- A `findOne` or `updateOne` on users matches by exact string equality; collation is not modelled.
