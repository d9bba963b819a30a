/**
 * The store the three endpoints share, as an object whose collections the
 * endpoints update in place. Each endpoint is a method proved against the
 * function that specifies it.
 */
module FacilityStore {
  import opened Wrappers
  import opened Schemas
  import opened ObjectIds
  import opened Documents
  import opened Availability
  import opened BookingFlow
  import opened PaymentLinks

  class Store {
    var slots: seq<SlotDoc>
    var bookings: seq<BookingDoc>
    var links: seq<LinkDoc>
    var nextId: nat

    function State(): Tables
      reads this
    {
      Tables(slots, bookings, links, nextId)
    }

    ghost predicate Valid()
      reads this
    {
      WellFormed(State())
    }

    /** A store holding the given slots, numbered from 0, and nothing else. */
    constructor (initial: seq<ScheduleSlot>)
      ensures Valid()
      ensures |slots| == |initial| && forall i :: 0 <= i < |initial| ==> slots[i] == SlotDoc(i, initial[i])
      ensures bookings == [] && links == [] && nextId == |initial|
    {
      slots := seq(|initial|, i requires 0 <= i < |initial| => SlotDoc(i, initial[i]));
      bookings := [];
      links := [];
      nextId := |initial|;
      new;
      forall d | d in slots ensures d.id < nextId {
        var i :| 0 <= i < |slots| && slots[i] == d;
      }
    }

    /**
     * `POST /api/availability`: reads the matching slots and renders each
     * one's identifier as a string. Changes nothing.
     */
    method CheckAvailability(q: AvailabilityQuery, now: Timestamp, parseDate: string -> Option<Timestamp>)
      returns (r: Result<seq<RenderedSlot>, ApiError>)
      ensures r == AvailableSlots(slots, q, now, parseDate)
    {
      var start := WindowStart(q, now, parseDate);
      if start.Err? {
        return Err(start.error);
      }
      var found := Matching(slots, FilterFor(q, start.value), q.limit);
      var out: seq<RenderedSlot> := [];
      for i := 0 to |found|
        invariant |out| == i
        invariant forall j :: 0 <= j < i ==> out[j] == RenderedSlot(IdString(found[j].id), found[j].slot)
      {
        out := out + [RenderedSlot(IdString(found[i].id), found[i].slot)];
      }
      assert out == RenderAll(found);
      r := Ok(out);
    }

    /**
     * `POST /api/bookings`: checks the slot at the requested times, inserts
     * the booking, then decrements the slot unless that update fails.
     */
    method CreateBooking(req: BookingCreate, updateFails: bool) returns (r: Result<string, ApiError>)
      requires Valid()
      modifies this
      ensures Valid()
      ensures r == Book(old(State()), req, updateFails).0
      ensures State() == Book(old(State()), req, updateFails).1
    {
      ghost var expected := Book(State(), req, updateFails);
      BookPreservesWellFormed(State(), req, updateFails);
      var slot := MatchedSlot(slots, req);
      if slot.Some? && !Available(slot.value.slot) {
        r := Err(BadRequest(SlotNotAvailable));
        assert State() == expected.1;
        return;
      }
      var bookingId := nextId;
      var booking := BookingFor(req, if slot.Some? then Some(IdString(slot.value.id)) else None);
      bookings := bookings + [BookingDoc(bookingId, booking)];
      nextId := nextId + 1;
      if slot.Some? && !updateFails {
        var target := ParseObjectId(IdString(slot.value.id));
        if target.Some? {
          slots := UpdateOne(slots, target.value, StatusAfterBooking(slot.value.slot));
        }
      }
      r := Ok(IdString(bookingId));
      assert State() == expected.1;
    }

    /**
     * `POST /api/payment-links`: records a pending link for `token`, which
     * stands for the random token the endpoint draws, expiring seven days
     * after `now`.
     */
    method CreatePaymentLink(req: PaymentLinkCreate, token: string, now: Timestamp) returns (reply: LinkReply)
      requires Valid()
      modifies this
      ensures Valid()
      ensures State() == IssueLink(old(State()), req, token, now).0
      ensures reply == IssueLink(old(State()), req, token, now).1
      ensures slots == old(slots) && bookings == old(bookings)
    {
      IssueLinkPreservesWellFormed(State(), req, token, now);
      var url := PayUrl(token);
      var link := PaymentLink(req.customerId, req.amountCents, "AUD", req.description,
                              PaymentStatus.Pending, Some(token), Some(url), Some(now + LinkLifetime));
      var linkId := nextId;
      links := links + [LinkDoc(linkId, link)];
      nextId := nextId + 1;
      reply := LinkReply(IdString(linkId), token, url);
    }
  }
}
