/**
 * Booking creation (`POST /api/bookings`) as a function from the store's
 * contents before the request to the response and the contents after it.
 *
 * The request's times pick the first slot with exactly those start and end
 * times (service and staff are not compared). A matched slot that is not
 * open, or has nothing remaining, rejects the request and nothing changes.
 * Otherwise one confirmed booking is inserted; then, if a slot was matched,
 * that slot is decremented unless the update fails (`updateFails`), a failure
 * the endpoint swallows.
 */
module BookingFlow {
  import opened Wrappers
  import opened Schemas
  import opened ObjectIds
  import opened Documents

  datatype BookingCreate = BookingCreate(
    customerId: string,
    serviceId: string,
    staffId: Option<string>,
    startTime: Timestamp,
    endTime: Timestamp,
    notes: Option<string>,
    source: Option<string>)

  const SlotNotAvailable := "Slot not available"

  predicate AtTimes(start: Timestamp, end: Timestamp, s: ScheduleSlot) {
    s.startTime == start && s.endTime == end
  }

  /**
   * The slot found for the request: the store's answer to an exact-times
   * query with limit 1. It is a stored slot at the request's times, and there
   * is none exactly when no stored slot has those times.
   */
  function MatchedSlot(slots: seq<SlotDoc>, req: BookingCreate): (r: Option<SlotDoc>)
    ensures r.Some? ==> r.value in slots && AtTimes(req.startTime, req.endTime, r.value.slot)
    ensures r.None? <==> forall d :: d in slots ==> !AtTimes(req.startTime, req.endTime, d.slot)
  {
    var found := GetDocuments(slots, s => AtTimes(req.startTime, req.endTime, s), 1);
    if found == [] then None else Some(found[0])
  }

  /** `remaining` as the endpoint reads it: an absent field counts as 1. */
  function Remaining(s: ScheduleSlot): int {
    s.remaining.GetOr(1)
  }

  predicate Available(s: ScheduleSlot) {
    s.status == Open && Remaining(s) > 0
  }

  /** The booking record the endpoint writes for a request. */
  function BookingFor(req: BookingCreate, slotId: Option<string>): Booking {
    Booking(req.customerId, req.serviceId, req.staffId, req.startTime, req.endTime,
            Confirmed, 1, 0, if Given(req.source) then req.source.value else "ai",
            req.notes, slotId)
  }

  /** The status written back to a booked slot, computed from the slot as it was read. */
  function StatusAfterBooking(s: ScheduleSlot): SlotStatus {
    if Remaining(s) - 1 <= 0 then Booked else Open
  }

  /**
   * The response and the store contents after one booking request. A refusal
   * is "Slot not available", given only for a matched slot that is not
   * available, and changes nothing; a success returns the new booking's
   * string id, adds exactly that booking, and leaves links and the number of
   * slots as they were.
   */
  function Book(t: Tables, req: BookingCreate, updateFails: bool): (res: (Result<string, ApiError>, Tables))
    ensures res.0.Err? ==> res.0.error == BadRequest(SlotNotAvailable) && res.1 == t
    ensures res.0.Err? <==> MatchedSlot(t.slots, req).Some? && !Available(MatchedSlot(t.slots, req).value.slot)
    ensures res.0.Ok? ==> && res.0 == Ok(IdString(t.nextId))
                          && |res.1.bookings| == |t.bookings| + 1
                          && res.1.bookings[..|t.bookings|] == t.bookings
                          && res.1.bookings[|t.bookings|].id == t.nextId
                          && res.1.nextId == t.nextId + 1
                          && res.1.links == t.links
    ensures |res.1.slots| == |t.slots| && forall i :: 0 <= i < |t.slots| ==> res.1.slots[i].id == t.slots[i].id
  {
    var slot := MatchedSlot(t.slots, req);
    if slot.Some? && !Available(slot.value.slot) then
      (Err(BadRequest(SlotNotAvailable)), t)
    else
      var id := t.nextId;
      var booking := BookingFor(req, if slot.Some? then Some(IdString(slot.value.id)) else None);
      var inserted := t.(bookings := t.bookings + [BookingDoc(id, booking)], nextId := id + 1);
      var target := if slot.Some? then ParseObjectId(IdString(slot.value.id)) else None;
      var updated :=
        if target.Some? && !updateFails
        then inserted.(slots := UpdateOne(t.slots, target.value, StatusAfterBooking(slot.value.slot)))
        else inserted;
      (Ok(IdString(id)), updated)
  }

  /** The first slot with the request's times is the one matched. */
  lemma MatchedSlotIsFirst(slots: seq<SlotDoc>, req: BookingCreate, k: nat)
    requires k < |slots| && AtTimes(req.startTime, req.endTime, slots[k].slot)
    requires forall j :: 0 <= j < k ==> !AtTimes(req.startTime, req.endTime, slots[j].slot)
    ensures MatchedSlot(slots, req) == Some(slots[k])
  {
    SelectFirst(slots, s => AtTimes(req.startTime, req.endTime, s), k);
  }

  /** Without a slot at the request's times, nothing is matched. */
  lemma NoSlotMatched(slots: seq<SlotDoc>, req: BookingCreate)
    requires forall j :: 0 <= j < |slots| ==> !AtTimes(req.startTime, req.endTime, slots[j].slot)
    ensures MatchedSlot(slots, req) == None
  {
    SelectNone(slots, s => AtTimes(req.startTime, req.endTime, s));
  }

  /**
   * When the first slot at the request's times is not open or has nothing
   * remaining, the request fails with "Slot not available" and the store is
   * unchanged; otherwise it succeeds.
   */
  lemma BookRejectsUnavailableSlot(t: Tables, req: BookingCreate, updateFails: bool, k: nat)
    requires k < |t.slots| && AtTimes(req.startTime, req.endTime, t.slots[k].slot)
    requires forall j :: 0 <= j < k ==> !AtTimes(req.startTime, req.endTime, t.slots[j].slot)
    ensures var (r, after) := Book(t, req, updateFails);
            && (r.Err? <==> t.slots[k].slot.status != Open || Remaining(t.slots[k].slot) <= 0)
            && (r.Err? ==> r.error == BadRequest(SlotNotAvailable) && after == t)
  {
    MatchedSlotIsFirst(t.slots, req, k);
  }

  /**
   * A successful request appends exactly one booking under a fresh
   * identifier, returns that identifier, and leaves payment links alone.
   * The booking is confirmed, for quantity 1 at price 0, copies the request,
   * takes the request's source or "ai" when it is absent or empty, and refers
   * to the matched slot by its string id, or to no slot.
   */
  lemma BookAppendsOneBooking(t: Tables, req: BookingCreate, updateFails: bool)
    ensures var (r, after) := Book(t, req, updateFails);
            r.Ok? ==>
              && r.value == IdString(t.nextId)
              && after.nextId == t.nextId + 1
              && after.links == t.links
              && |after.bookings| == |t.bookings| + 1
              && after.bookings[..|t.bookings|] == t.bookings
              && var b := after.bookings[|t.bookings|];
              && b.id == t.nextId
              && b.booking.status == Confirmed
              && b.booking.quantity == 1
              && b.booking.priceCents == 0
              && b.booking.source == (if Given(req.source) then req.source.value else "ai")
              && b.booking.customerId == req.customerId
              && b.booking.serviceId == req.serviceId
              && b.booking.staffId == req.staffId
              && b.booking.startTime == req.startTime
              && b.booking.endTime == req.endTime
              && b.booking.notes == req.notes
              && b.booking.scheduleSlotId == (if MatchedSlot(t.slots, req).Some?
                                               then Some(IdString(MatchedSlot(t.slots, req).value.id))
                                               else None)
              && (b.booking.scheduleSlotId.None? <==> MatchedSlot(t.slots, req).None?)
              && (b.booking.scheduleSlotId.Some? ==>
                    ParseObjectId(b.booking.scheduleSlotId.value) == Some(MatchedSlot(t.slots, req).value.id))
  {
    var (r, after) := Book(t, req, updateFails);
    var slot := MatchedSlot(t.slots, req);
    if r.Ok? && slot.Some? {
      ParseIdString(slot.value.id);
    }
  }

  /** Without a slot at the request's times, the booking is made with no slot and no slot changes. */
  lemma BookWithoutSlot(t: Tables, req: BookingCreate, updateFails: bool)
    requires forall j :: 0 <= j < |t.slots| ==> !AtTimes(req.startTime, req.endTime, t.slots[j].slot)
    ensures var (r, after) := Book(t, req, updateFails);
            && r.Ok?
            && after.slots == t.slots
            && after.bookings == t.bookings + [BookingDoc(t.nextId, BookingFor(req, None))]
  {
    NoSlotMatched(t.slots, req);
  }

  /**
   * Booking an available slot lowers exactly that slot's `remaining` by one
   * and sets its status to booked when the old value minus one is at most 0,
   * to open otherwise; every other slot stays as it was. With unique slot
   * identifiers, the update finds the matched slot from its string id.
   */
  lemma BookDecrementsMatchedSlot(t: Tables, req: BookingCreate, k: nat)
    requires WellFormed(t)
    requires k < |t.slots| && AtTimes(req.startTime, req.endTime, t.slots[k].slot)
    requires forall j :: 0 <= j < k ==> !AtTimes(req.startTime, req.endTime, t.slots[j].slot)
    requires Available(t.slots[k].slot)
    ensures var (r, after) := Book(t, req, false);
            var s := t.slots[k].slot;
            && r.Ok?
            && |after.slots| == |t.slots|
            && after.slots[k].id == t.slots[k].id
            && after.slots[k].slot == s.(remaining := after.slots[k].slot.remaining,
                                         status := after.slots[k].slot.status)
            && (s.remaining.Some? ==> after.slots[k].slot.remaining == Some(s.remaining.value - 1))
            && (s.remaining.None? ==> after.slots[k].slot.remaining == Some(-1))
            && (after.slots[k].slot.status == Booked <==> Remaining(s) - 1 <= 0)
            && (after.slots[k].slot.status != Booked ==> after.slots[k].slot.status == Open)
            && forall j :: 0 <= j < |t.slots| && j != k ==> after.slots[j] == t.slots[j]
  {
    MatchedSlotIsFirst(t.slots, req, k);
    SlotIdResolves(t.slots, k);
  }

  /** When the slot update fails, the booking stays inserted and no slot changes. */
  lemma BookUpdateFailureKeepsSlots(t: Tables, req: BookingCreate)
    ensures var (r, after) := Book(t, req, true);
            after.slots == t.slots && (r.Ok? ==> |after.bookings| == |t.bookings| + 1)
  {
  }

  /** A request keeps identifiers issued by the counter and unique. */
  lemma BookPreservesWellFormed(t: Tables, req: BookingCreate, updateFails: bool)
    requires WellFormed(t)
    ensures WellFormed(Book(t, req, updateFails).1)
  {
    var (r, after) := Book(t, req, updateFails);
    if r.Ok? {
      forall d | d in after.slots ensures d.id < after.nextId {
        var i :| 0 <= i < |after.slots| && after.slots[i] == d;
        assert t.slots[i] in t.slots;
      }
      forall i, j | 0 <= i < j < |after.slots| ensures after.slots[i].id != after.slots[j].id {
        assert after.slots[i].id == t.slots[i].id && after.slots[j].id == t.slots[j].id;
      }
      BookingsStayWellFormed(t.bookings, after.bookings, t.nextId);
    }
  }

  /** Appending a booking under an identifier above all earlier ones keeps booking ids issued and unique. */
  lemma BookingsStayWellFormed(before: seq<BookingDoc>, after: seq<BookingDoc>, id: nat)
    requires DistinctBookingIds(before) && forall d :: d in before ==> d.id < id
    requires |after| == |before| + 1 && after[..|before|] == before && after[|before|].id == id
    ensures DistinctBookingIds(after) && forall d :: d in after ==> d.id < id + 1
  {
    forall d | d in after ensures d.id < id + 1 {
      var i :| 0 <= i < |after| && after[i] == d;
      if i < |before| {
        assert after[i] == before[i] && before[i] in before;
      }
    }
    forall i, j | 0 <= i < j < |after| ensures after[i].id != after[j].id {
      assert after[i] == before[i];
      if j < |before| {
        assert after[j] == before[j];
      } else {
        assert before[i] in before;
      }
    }
  }

  /** The identifier returned for a new booking resolves to that booking. */
  lemma BookedIdResolves(t: Tables, req: BookingCreate, updateFails: bool)
    requires WellFormed(t)
    ensures var (r, after) := Book(t, req, updateFails);
            r.Ok? ==> FindBooking(after.bookings, r.value) == Some(after.bookings[|t.bookings|].booking)
  {
    var (r, after) := Book(t, req, updateFails);
    if r.Ok? {
      BookPreservesWellFormed(t, req, updateFails);
      BookingIdResolves(after.bookings, |t.bookings|);
    }
  }

  /**
   * A slot invariant the endpoint does not enforce: `remaining` is present
   * and not negative, and an open slot has something remaining.
   */
  predicate SlotSound(s: ScheduleSlot) {
    s.remaining.Some? && s.remaining.value >= 0 && (s.status == Open ==> s.remaining.value > 0)
  }

  predicate SlotsSound(slots: seq<SlotDoc>) {
    forall d :: d in slots ==> SlotSound(d.slot)
  }

  /** One request at a time never oversells: sound slots stay sound. */
  lemma BookPreservesSoundSlots(t: Tables, req: BookingCreate, updateFails: bool)
    requires WellFormed(t) && SlotsSound(t.slots)
    ensures SlotsSound(Book(t, req, updateFails).1.slots)
  {
    var (r, after) := Book(t, req, updateFails);
    if after.slots != t.slots {
      var slot := MatchedSlot(t.slots, req);
      var selected := Select(t.slots, s => AtTimes(req.startTime, req.endTime, s));
      assert slot.value == selected[0] && selected[0] in selected;
      var m :| 0 <= m < |t.slots| && t.slots[m] == slot.value;
      SlotIdResolves(t.slots, m);
      assert t.slots[m] in t.slots;
      forall d | d in after.slots ensures SlotSound(d.slot) {
        var j :| 0 <= j < |after.slots| && after.slots[j] == d;
        assert t.slots[j] in t.slots;
      }
    }
  }

  /** A slot left at its defaults can be booked once; a second request for it is refused. */
  lemma DefaultSlotBooksOnce(id: nat, start: Timestamp, end: Timestamp, req1: BookingCreate, req2: BookingCreate)
    requires req1.startTime == start && req1.endTime == end
    requires req2.startTime == start && req2.endTime == end
    ensures var t := Tables([SlotDoc(id, NewScheduleSlot(None, None, start, end))], [], [], id + 1);
            var (r1, t1) := Book(t, req1, false);
            var (r2, t2) := Book(t1, req2, false);
            && r1.Ok?
            && t1.slots[0].slot.status == Booked && t1.slots[0].slot.remaining == Some(0)
            && r2 == Err(BadRequest(SlotNotAvailable)) && t2 == t1
  {
    var t := Tables([SlotDoc(id, NewScheduleSlot(None, None, start, end))], [], [], id + 1);
    BookDecrementsMatchedSlot(t, req1, 0);
    var t1 := Book(t, req1, false).1;
    BookRejectsUnavailableSlot(t1, req2, false, 0);
  }

  /**
   * The booking written agrees with the schema's defaults for status,
   * quantity and price; its source defaults to "ai" where the schema's is "web".
   */
  lemma BookingUsesSchemaDefaults(req: BookingCreate, slotId: Option<string>)
    ensures var b := BookingFor(req, slotId);
            var d := NewBooking(req.customerId, req.serviceId, req.startTime, req.endTime);
            && b.status == d.status && b.quantity == d.quantity && b.priceCents == d.priceCents
            && (!Given(req.source) ==> b.source == "ai" && d.source == "web")
  {
  }

  /** The booking's source is one of the schema's literals exactly when the request's is, or it is absent. */
  lemma BookingSourceConforms(req: BookingCreate, slotId: Option<string>)
    ensures IsBookingSource(BookingFor(req, slotId).source)
            <==> !Given(req.source) || IsBookingSource(req.source.value)
  {
  }
}
