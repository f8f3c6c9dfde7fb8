/**
 * The shipment and quote handlers of a shipping company
 * (business-platform-api/src/routes/shipping.py): creating a shipment with
 * its tracking number and first timeline entry, status updates with their
 * milestone timestamps, free tracking entries, public tracking, and the
 * send/respond steps of a shipping quote.
 *
 * Clock readings and the random part of a tracking number are parameters.
 * Every failing handler rolls back, so a non-2xx status means no write.
 */
module ShippingRoutes {
  import opened Common
  import opened BackendModels

  // ---------------------------------------------------------------------
  // Tracking numbers: "SH" + yyyymmdd + 8 upper-case characters
  // ---------------------------------------------------------------------

  predicate IsUpperHex(c: char) { '0' <= c <= '9' || 'A' <= c <= 'F' }
  predicate IsLowerHex(c: char) { '0' <= c <= '9' || 'a' <= c <= 'f' }

  /** `str.upper()` on ASCII letters. */
  function UpperChar(c: char): char {
    if 'a' <= c <= 'z' then (c as int - 32) as char else c
  }

  function Upper(s: string): string {
    seq(|s|, i requires 0 <= i < |s| => UpperChar(s[i]))
  }

  /** The text form of a version-4 UUID: 36 characters whose first eight
    * are lower-case hexadecimal digits. */
  predicate UuidText(u: string) {
    |u| == 36 && forall i :: 0 <= i < 8 ==> IsLowerHex(u[i])
  }

  /** A calendar date as `datetime.now()` yields it, with a four-digit year. */
  predicate ValidDate(year: int, month: int, day: int) {
    1000 <= year <= 9999 && 1 <= month <= 12 && 1 <= day <= 31
  }

  function TrackingNumber(year: nat, month: nat, day: nat, uuid: string): string
    requires |uuid| >= 8
  {
    "SH" + Digits(year, 4) + Digits(month, 2) + Digits(day, 2) + Upper(uuid[..8])
  }

  /** A tracking number is 18 characters: `SH`, the date that reads back as
    * the creation date, and eight upper-case hexadecimal digits. */
  lemma TrackingNumberShape(year: nat, month: nat, day: nat, uuid: string)
    requires ValidDate(year, month, day) && UuidText(uuid)
    ensures var t := TrackingNumber(year, month, day, uuid);
            && |t| == 18 && t[..2] == "SH"
            && (forall i :: 2 <= i < 10 ==> IsDigit(t[i]))
            && ParseDigits(t[2..6]) == year && ParseDigits(t[6..8]) == month && ParseDigits(t[8..10]) == day
            && (forall i :: 10 <= i < 18 ==> IsUpperHex(t[i]))
  {
    var t := TrackingNumber(year, month, day, uuid);
    assert t[2..6] == Digits(year, 4);
    assert t[6..8] == Digits(month, 2);
    assert t[8..10] == Digits(day, 2);
    assert Pow10(4) == 10000 && Pow10(2) == 100;
    DigitsRoundTrip(year, 4);
    DigitsRoundTrip(month, 2);
    DigitsRoundTrip(day, 2);
    forall i | 10 <= i < 18 ensures IsUpperHex(t[i]) {
      assert t[i] == UpperChar(uuid[i - 10]);
    }
  }

  // ---------------------------------------------------------------------
  // get_or_404 inside `try ... except Exception`
  // ---------------------------------------------------------------------

  /** As written: the `NotFound` raised by `get_or_404` is an `Exception`,
    * so the handler's own `except` answers 500 for an unknown id. */
  function LookupCodeAsWritten(present: bool, code: int): (c: int)
    ensures c == 500 <==> !present || code == 500
    ensures present ==> c == code
  {
    if present then code else 500
  }

  /** As evidently intended: an unknown id is a 404. */
  function LookupCode(present: bool, code: int): (c: int)
    ensures c == 404 <==> !present || code == 404
    ensures present ==> c == code
  {
    if present then code else 404
  }

  /** The two differ exactly on unknown ids (for handlers that never answer
    * 404 themselves), e.g. a status update on an empty table. */
  lemma UnknownIdAnswers500(shipments: map<int, Shipment>, id: int, code: int)
    requires code != 404
    ensures LookupCodeAsWritten(id in shipments, code) != LookupCode(id in shipments, code)
            <==> id !in shipments
  {
  }

  // ---------------------------------------------------------------------
  // Timeline
  // ---------------------------------------------------------------------

  function EventTime(e: TrackingEvent): real { e.timestamp as real }

  /** The shipment's events, in insertion order. */
  function HistoryOf(tracking: seq<TrackingEvent>, id: int): seq<TrackingEvent> {
    Filter(tracking, (e: TrackingEvent) => e.shipmentId == id)
  }

  /** `track_shipment`'s order: oldest first. */
  function HistoryAscending(tracking: seq<TrackingEvent>, id: int): seq<TrackingEvent> {
    SortBy(HistoryOf(tracking, id), ByAsc(EventTime))
  }

  /** `get_shipment`'s order: newest first. */
  function HistoryDescending(tracking: seq<TrackingEvent>, id: int): seq<TrackingEvent> {
    SortBy(HistoryOf(tracking, id), ByDesc(EventTime))
  }

  /** Both views hold exactly the shipment's events, in opposite orders. */
  lemma HistoryViews(tracking: seq<TrackingEvent>, id: int)
    ensures multiset(HistoryAscending(tracking, id)) == multiset(HistoryOf(tracking, id))
    ensures multiset(HistoryDescending(tracking, id)) == multiset(HistoryOf(tracking, id))
    ensures forall i :: 0 < i < |HistoryAscending(tracking, id)| ==>
              HistoryAscending(tracking, id)[i - 1].timestamp <= HistoryAscending(tracking, id)[i].timestamp
    ensures forall i :: 0 < i < |HistoryDescending(tracking, id)| ==>
              HistoryDescending(tracking, id)[i - 1].timestamp >= HistoryDescending(tracking, id)[i].timestamp
    ensures forall e :: e in HistoryAscending(tracking, id) ==> e in tracking && e.shipmentId == id
  {
    KeyOrderTotal(EventTime);
    SortBySpec(HistoryOf(tracking, id), ByAsc(EventTime));
    SortBySpec(HistoryOf(tracking, id), ByDesc(EventTime));
    var asc := HistoryAscending(tracking, id);
    var desc := HistoryDescending(tracking, id);
    forall i | 0 < i < |asc| ensures asc[i - 1].timestamp <= asc[i].timestamp {
      assert ByAsc(EventTime)(asc[i - 1], asc[i]);
      assert EventTime(asc[i - 1]) <= EventTime(asc[i]);
    }
    forall i | 0 < i < |desc| ensures desc[i - 1].timestamp >= desc[i].timestamp {
      assert ByDesc(EventTime)(desc[i - 1], desc[i]);
      assert EventTime(desc[i - 1]) >= EventTime(desc[i]);
    }
    forall e | e in asc ensures e in tracking && e.shipmentId == id {
      assert e in multiset(asc);
      assert e in HistoryOf(tracking, id);
    }
  }

  /** Appending an event extends that shipment's history by it and leaves
    * every other shipment's history as it was. */
  lemma AppendOnlyTimeline(tracking: seq<TrackingEvent>, e: TrackingEvent, id: int)
    ensures HistoryOf(tracking + [e], id)
            == HistoryOf(tracking, id) + (if e.shipmentId == id then [e] else [])
  {
    FilterAppend(tracking, [e], (x: TrackingEvent) => x.shipmentId == id);
  }

  // ---------------------------------------------------------------------
  // Status updates
  // ---------------------------------------------------------------------

  /** The row after `update_shipment_status`: the requested status, the one
    * milestone it names, and `updated_at`. */
  function ApplyStatus(s: Shipment, newStatus: string, now: int): Shipment {
    var s1 := s.(status := newStatus, updatedAt := Some(now));
    if newStatus == ShipmentCode(ShipmentConfirmed) then s1.(confirmedAt := Some(now))
    else if newStatus == ShipmentCode(PickedUp) then s1.(pickedUpAt := Some(now))
    else if newStatus == ShipmentCode(ShipmentDelivered) then s1.(deliveredAt := Some(now))
    else s1
  }

  /** Any status is taken, with no transition check; a milestone is stamped
    * only by its own status, and nothing but status, milestones and
    * `updated_at` changes. */
  lemma StatusUpdateEffect(s: Shipment, newStatus: string, now: int)
    ensures var r := ApplyStatus(s, newStatus, now);
      && r.status == newStatus && r.updatedAt == Some(now)
      && (r.confirmedAt != s.confirmedAt ==> newStatus == "confirmed")
      && (r.pickedUpAt != s.pickedUpAt ==> newStatus == "picked_up")
      && (r.deliveredAt != s.deliveredAt ==> newStatus == "delivered")
      && (newStatus == "confirmed" ==> r.confirmedAt == Some(now))
      && (newStatus == "picked_up" ==> r.pickedUpAt == Some(now))
      && (newStatus == "delivered" ==> r.deliveredAt == Some(now))
      && r.(status := s.status, updatedAt := s.updatedAt, confirmedAt := s.confirmedAt,
            pickedUpAt := s.pickedUpAt, deliveredAt := s.deliveredAt) == s
  {
  }

  /** At most one milestone is stamped by a single update. */
  lemma OneMilestonePerUpdate(s: Shipment, newStatus: string, now: int)
    ensures var r := ApplyStatus(s, newStatus, now);
      (if r.confirmedAt != s.confirmedAt then 1 else 0) + (if r.pickedUpAt != s.pickedUpAt then 1 else 0)
      + (if r.deliveredAt != s.deliveredAt then 1 else 0) <= 1
  {
  }

  /** For a status of the schema's enumeration, exactly `confirmed`,
    * `picked_up` and `delivered` stamp their own milestone, and no other
    * status stamps one. */
  lemma MilestonesOfEnumeration(s: Shipment, st: ShipmentStatus, now: int)
    ensures var r := ApplyStatus(s, ShipmentCode(st), now);
      && r.confirmedAt == (if st == ShipmentConfirmed then Some(now) else s.confirmedAt)
      && r.pickedUpAt == (if st == PickedUp then Some(now) else s.pickedUpAt)
      && r.deliveredAt == (if st == ShipmentDelivered then Some(now) else s.deliveredAt)
  {
    ShipmentCodesDistinct(st, ShipmentConfirmed);
    ShipmentCodesDistinct(st, PickedUp);
    ShipmentCodesDistinct(st, ShipmentDelivered);
  }

  function StatusEvent(id: int, newStatus: string, location: Option<string>,
                       description: Option<string>, createdBy: Option<string>, now: int): TrackingEvent {
    TrackingEvent(id, newStatus, location,
                  if description.Some? then description.value else "تم تحديث الحالة إلى " + newStatus,
                  now, if createdBy.Some? then createdBy.value else "system")
  }

  /** The first timeline entry of every shipment. */
  function CreationEvent(id: int, now: int): TrackingEvent {
    TrackingEvent(id, ShipmentCode(ShipmentPending), None, "تم إنشاء الشحنة", now, "system")
  }

  // ---------------------------------------------------------------------
  // Requests and views
  // ---------------------------------------------------------------------

  /** The keys of a `create_shipment` body that the model keeps; `None` is a
    * missing key (a missing required key raises `KeyError`). The pickup
    * date is required and parsed with `fromisoformat`, so `NoDate` (a
    * missing key) and `BadDate` both raise; a delivery date is parsed only
    * when present and non-empty. */
  datatype ShipmentRequest = ShipmentRequest(
    companyId: Option<int>, merchantId: Option<int>,
    pickupAddress: Option<string>, pickupContactName: Option<string>, pickupContactPhone: Option<string>,
    deliveryAddress: Option<string>, deliveryContactName: Option<string>, deliveryContactPhone: Option<string>,
    pickupDate: DateField, deliveryDate: DateField, quotedPrice: Option<real>)

  /** Every required key is present and every date given parses. */
  predicate RequestAccepted(q: ShipmentRequest) {
    q.companyId.Some? && q.merchantId.Some? && q.pickupAddress.Some? && q.pickupContactName.Some?
    && q.pickupContactPhone.Some? && q.deliveryAddress.Some? && q.deliveryContactName.Some?
    && q.deliveryContactPhone.Some? && q.pickupDate.ParsedDate? && q.quotedPrice.Some?
    && !q.deliveryDate.BadDate?
  }

  function NewShipmentRow(q: ShipmentRequest, id: int, trackingNumber: string, now: int): Shipment
    requires RequestAccepted(q)
  {
    Shipment(id, trackingNumber, q.companyId.value, q.merchantId.value, ShipmentCode(ShipmentPending),
             None, None, None, Some(now), q.pickupDate.day, DateColumn(q.deliveryDate), q.quotedPrice.value)
  }

  /** What `track_shipment` answers. */
  datatype TrackView = TrackView(trackingNumber: string, status: string, pickupDate: Option<int>,
                                 deliveryDate: Option<int>, history: seq<TrackingEvent>)

  /** What `get_shipment` answers. */
  datatype ShipmentView = ShipmentFound(shipment: Shipment, history: seq<TrackingEvent>)
                        | ShipmentError(code: int)

  // ---------------------------------------------------------------------
  // The store
  // ---------------------------------------------------------------------

  class ShippingStore {
    var shipments: map<int, Shipment>
    var tracking: seq<TrackingEvent>
    var quotes: map<int, ShippingQuote>

    /** Rows are keyed by their id, and tracking numbers are unique (the
      * column's unique constraint). */
    ghost predicate Valid()
      reads this
    {
      && (forall id :: id in shipments ==> shipments[id].id == id)
      && (forall a, b :: a in shipments && b in shipments && a != b ==>
            shipments[a].trackingNumber != shipments[b].trackingNumber)
      && (forall id :: id in quotes ==> quotes[id].id == id)
    }

    /** The tables as a seed script or earlier requests left them. */
    constructor (shipments0: map<int, Shipment>, tracking0: seq<TrackingEvent>, quotes0: map<int, ShippingQuote>)
      requires forall id :: id in shipments0 ==> shipments0[id].id == id
      requires forall a, b :: a in shipments0 && b in shipments0 && a != b ==>
                 shipments0[a].trackingNumber != shipments0[b].trackingNumber
      requires forall id :: id in quotes0 ==> quotes0[id].id == id
      ensures Valid()
      ensures shipments == shipments0 && tracking == tracking0 && quotes == quotes0
    {
      shipments := shipments0;
      tracking := tracking0;
      quotes := quotes0;
    }

    predicate NumberTaken(t: string)
      reads this
    {
      exists id :: id in shipments && shipments[id].trackingNumber == t
    }

    /** create_shipment: a new `pending` row and its first timeline entry.
      * A missing required key, a date `fromisoformat` rejects, or a
      * tracking number already in use, is a 500 with nothing written. */
    method CreateShipment(q: ShipmentRequest, id: int, year: nat, month: nat, day: nat,
                          uuid: string, now: int) returns (code: int)
      requires Valid() && id !in shipments
      requires ValidDate(year, month, day) && UuidText(uuid)
      modifies this
      ensures Valid()
      ensures code == 201 || code == 500
      ensures code == 201 <==>
              RequestAccepted(q) && !old(NumberTaken(TrackingNumber(year, month, day, uuid)))
      ensures code == 500 ==> unchanged(this)
      ensures code == 201 ==>
        && shipments == old(shipments)[id := NewShipmentRow(q, id, TrackingNumber(year, month, day, uuid), now)]
        && tracking == old(tracking) + [CreationEvent(id, now)]
        && quotes == old(quotes)
    {
      var number := TrackingNumber(year, month, day, uuid);
      if !RequestAccepted(q) {
        return 500;
      }
      if NumberTaken(number) {
        return 500;
      }
      shipments := shipments[id := NewShipmentRow(q, id, number, now)];
      tracking := tracking + [CreationEvent(id, now)];
      code := 201;
    }

    /** update_shipment_status: an unknown id answers 500, since the
      * `NotFound` of `get_or_404` is caught by the handler's `except`. */
    method UpdateShipmentStatus(id: int, newStatus: Option<string>, location: Option<string>,
                                description: Option<string>, createdBy: Option<string>, now: int)
      returns (code: int)
      requires Valid()
      modifies this
      ensures Valid()
      ensures code == LookupCodeAsWritten(id in old(shipments), if newStatus.None? then 500 else 200)
      ensures code != 200 ==> unchanged(this)
      ensures code == 200 ==>
        && shipments == old(shipments)[id := ApplyStatus(old(shipments)[id], newStatus.value, now)]
        && tracking == old(tracking) + [StatusEvent(id, newStatus.value, location, description, createdBy, now)]
        && quotes == old(quotes)
    {
      code := LookupCodeAsWritten(id in shipments, if newStatus.None? then 500 else 200);
      if code != 200 {
        return;
      }
      shipments := shipments[id := ApplyStatus(shipments[id], newStatus.value, now)];
      tracking := tracking + [StatusEvent(id, newStatus.value, location, description, createdBy, now)];
    }

    /** add_tracking_update: appends an entry and never touches a shipment
      * row. The shipment id is not looked up. */
    method AddTrackingUpdate(id: int, status: Option<string>, location: Option<string>,
                             description: Option<string>, createdBy: Option<string>, now: int)
      returns (code: int)
      modifies this`tracking
      ensures code == (if status.None? || description.None? then 500 else 201)
      ensures code == 500 ==> tracking == old(tracking)
      ensures code == 201 ==>
        tracking == old(tracking) + [TrackingEvent(id, status.value, location, description.value, now,
                                                   if createdBy.Some? then createdBy.value else "system")]
    {
      if status.None? || description.None? {
        return 500;
      }
      tracking := tracking + [TrackingEvent(id, status.value, location, description.value, now,
                                            if createdBy.Some? then createdBy.value else "system")];
      code := 201;
    }

    /** track_shipment: the public view of the shipment with that tracking
      * number, history oldest first; `None` is the 404. */
    method TrackShipment(number: string) returns (r: Option<TrackView>)
      requires Valid()
      ensures r.None? <==> !NumberTaken(number)
      ensures r.Some? ==>
        exists id :: id in shipments && shipments[id].trackingNumber == number &&
          r.value == TrackView(number, shipments[id].status, Some(shipments[id].pickupDate),
                               shipments[id].deliveryDate, HistoryAscending(tracking, id))
    {
      if !NumberTaken(number) {
        return None;
      }
      var id :| id in shipments && shipments[id].trackingNumber == number;
      var s := shipments[id];
      r := Some(TrackView(s.trackingNumber, s.status, Some(s.pickupDate), s.deliveryDate,
                          HistoryAscending(tracking, id)));
    }

    /** get_shipment: the row with its history, newest first; an unknown id
      * answers 500 like the status update. */
    method GetShipment(id: int) returns (r: ShipmentView)
      ensures id !in shipments ==> r == ShipmentError(500)
      ensures id in shipments ==> r == ShipmentFound(shipments[id], HistoryDescending(tracking, id))
    {
      if id !in shipments {
        return ShipmentError(LookupCodeAsWritten(false, 200));
      }
      r := ShipmentFound(shipments[id], HistoryDescending(tracking, id));
    }

    /** send_shipping_quote; an unknown quote answers 500. */
    method SendShippingQuote(id: int, now: int) returns (code: int)
      requires Valid()
      modifies this`quotes
      ensures Valid()
      ensures code == LookupCodeAsWritten(id in old(quotes), 200)
      ensures code != 200 ==> quotes == old(quotes)
      ensures code == 200 ==>
        quotes == old(quotes)[id := old(quotes)[id].(status := QuoteCode(QuoteSent), sentAt := Some(now))]
    {
      code := LookupCodeAsWritten(id in quotes, 200);
      if code != 200 {
        return;
      }
      quotes := quotes[id := quotes[id].(status := QuoteCode(QuoteSent), sentAt := Some(now))];
    }

    /** respond_to_quote: the merchant's answer is stored as given, and an
      * unknown quote answers 500;
      * `notes` is replaced only when the key is present (`Some(None)` is
      * an explicit null). */
    method RespondToQuote(id: int, status: Option<string>, notes: Option<Option<string>>, now: int)
      returns (code: int)
      requires Valid()
      modifies this`quotes
      ensures Valid()
      ensures code == LookupCodeAsWritten(id in old(quotes), if status.None? then 500 else 200)
      ensures code != 200 ==> quotes == old(quotes)
      ensures code == 200 ==>
        quotes == old(quotes)[id := old(quotes)[id].(status := status.value, respondedAt := Some(now),
                                                     notes := if notes.Some? then notes.value else old(quotes)[id].notes)]
    {
      code := LookupCodeAsWritten(id in quotes, if status.None? then 500 else 200);
      if code != 200 {
        return;
      }
      var qt := quotes[id];
      quotes := quotes[id := qt.(status := status.value, respondedAt := Some(now),
                                 notes := if notes.Some? then notes.value else qt.notes)];
    }
  }
}
