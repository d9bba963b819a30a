/**
 * The document store as the endpoints see it: three collections of records,
 * each with a store-generated identifier, and the two store operations the
 * endpoints use on slots — a filtered, limited read and an update of one
 * record by identifier.
 */
module Documents {
  import opened Wrappers
  import opened Schemas
  import opened ObjectIds

  datatype SlotDoc = SlotDoc(id: nat, slot: ScheduleSlot)
  datatype BookingDoc = BookingDoc(id: nat, booking: Booking)
  datatype LinkDoc = LinkDoc(id: nat, link: PaymentLink)

  /** The contents of the store; `nextId` is the fresh-identifier counter. */
  datatype Tables = Tables(
    slots: seq<SlotDoc>,
    bookings: seq<BookingDoc>,
    links: seq<LinkDoc>,
    nextId: nat)

  /** An HTTP 400 response and its detail text. */
  datatype ApiError = BadRequest(detail: string)

  /** Python truthiness of an optional string: present and non-empty. */
  predicate Given(o: Option<string>) {
    o.Some? && o.value != ""
  }

  predicate DistinctSlotIds(docs: seq<SlotDoc>) {
    forall i, j :: 0 <= i < j < |docs| ==> docs[i].id != docs[j].id
  }

  predicate DistinctBookingIds(docs: seq<BookingDoc>) {
    forall i, j :: 0 <= i < j < |docs| ==> docs[i].id != docs[j].id
  }

  predicate DistinctLinkIds(docs: seq<LinkDoc>) {
    forall i, j :: 0 <= i < j < |docs| ==> docs[i].id != docs[j].id
  }

  /** Every identifier was issued by the counter; slot, booking and link ids are unique. */
  predicate WellFormed(t: Tables) {
    (forall d :: d in t.slots ==> d.id < t.nextId)
    && (forall d :: d in t.bookings ==> d.id < t.nextId)
    && (forall d :: d in t.links ==> d.id < t.nextId)
    && DistinctSlotIds(t.slots)
    && DistinctBookingIds(t.bookings)
    && DistinctLinkIds(t.links)
  }

  /** The slots a filter admits, in store order. */
  function Select(docs: seq<SlotDoc>, admits: ScheduleSlot -> bool): (r: seq<SlotDoc>)
    ensures |r| <= |docs|
    ensures forall d :: d in r ==> d in docs && admits(d.slot)
    ensures forall d :: d in docs && admits(d.slot) ==> d in r
    decreases |docs|
  {
    if docs == [] then []
    else if admits(docs[0].slot) then [docs[0]] + Select(docs[1..], admits)
    else Select(docs[1..], admits)
  }

  /** The first slot a filter selects is the earliest admitted one in the store. */
  lemma {:induction false} SelectFirst(docs: seq<SlotDoc>, admits: ScheduleSlot -> bool, k: nat)
    requires k < |docs| && admits(docs[k].slot)
    requires forall j :: 0 <= j < k ==> !admits(docs[j].slot)
    ensures Select(docs, admits) != [] && Select(docs, admits)[0] == docs[k]
    decreases k
  {
    if k > 0 {
      SelectFirst(docs[1..], admits, k - 1);
    }
  }

  /** A filter that admits no slot of the store selects nothing. */
  lemma {:induction false} SelectNone(docs: seq<SlotDoc>, admits: ScheduleSlot -> bool)
    requires forall d :: d in docs ==> !admits(d.slot)
    ensures Select(docs, admits) == []
    decreases |docs|
  {
    if docs != [] {
      assert docs[0] in docs;
      SelectNone(docs[1..], admits);
    }
  }

  /**
   * How many records a cursor limit lets through: 0 means no limit, and a
   * negative limit counts as its absolute value, as in MongoDB.
   */
  function LimitCount(limit: int, available: nat): (n: nat)
    ensures n <= available
    ensures limit == 0 ==> n == available
    ensures limit != 0 ==> n == (if available <= Abs(limit) then available else Abs(limit))
  {
    if limit == 0 || available <= Abs(limit) then available else Abs(limit)
  }

  function Abs(x: int): nat {
    if x < 0 then -x else x
  }

  /** The records a cursor with `limit` yields: the front of `docs`, as many as the limit lets through. */
  function Take(docs: seq<SlotDoc>, limit: int): (r: seq<SlotDoc>)
    ensures |r| == LimitCount(limit, |docs|)
    ensures r == docs[..|r|]
  {
    docs[..LimitCount(limit, |docs|)]
  }

  /**
   * `get_documents("scheduleslot", filter, limit)`: the earliest admitted
   * slots in store order, as many as the limit lets through; every admitted
   * slot when they all fit.
   */
  function GetDocuments(docs: seq<SlotDoc>, admits: ScheduleSlot -> bool, limit: int): (r: seq<SlotDoc>)
    ensures |r| == LimitCount(limit, |Select(docs, admits)|)
    ensures r == Select(docs, admits)[..|r|]
    ensures forall d :: d in r ==> d in docs && admits(d.slot)
    ensures limit == 0 || |Select(docs, admits)| <= Abs(limit) ==>
              forall d :: d in docs && admits(d.slot) ==> d in r
  {
    Take(Select(docs, admits), limit)
  }

  /** The position of the first slot with identifier `id`. */
  function IndexOfId(docs: seq<SlotDoc>, id: nat): (r: Option<nat>)
    ensures r.Some? ==> r.value < |docs| && docs[r.value].id == id
    ensures r.Some? ==> forall j :: 0 <= j < r.value ==> docs[j].id != id
    ensures r.None? ==> forall j :: 0 <= j < |docs| ==> docs[j].id != id
    decreases |docs|
  {
    if docs == [] then None
    else if docs[0].id == id then Some(0)
    else
      match IndexOfId(docs[1..], id)
      case None => None
      case Some(i) => Some(i + 1)
  }

  /** With unique identifiers, a slot's string id leads back to that very slot. */
  lemma SlotIdResolves(docs: seq<SlotDoc>, k: nat)
    requires DistinctSlotIds(docs) && k < |docs|
    ensures var target := ParseObjectId(IdString(docs[k].id));
            target.Some? && IndexOfId(docs, target.value) == Some(k)
  {
    ParseIdString(docs[k].id);
  }

  /**
   * `update_one({"_id": target}, {"$inc": {"remaining": -1}, "$set": {"status": status}})`:
   * the first slot with that identifier has its `remaining` lowered by one
   * (an absent field counts from 0, as the store's increment does) and its
   * status set, and every other slot is left alone; nothing changes when no
   * slot has the identifier.
   */
  function UpdateOne(docs: seq<SlotDoc>, target: nat, status: SlotStatus): (r: seq<SlotDoc>)
    ensures |r| == |docs|
    ensures forall i :: 0 <= i < |r| ==> r[i].id == docs[i].id
    ensures (forall j :: 0 <= j < |docs| ==> docs[j].id != target) ==> r == docs
    ensures forall k :: 0 <= k < |docs| && docs[k].id == target && IndexOfId(docs, target) == Some(k) ==>
              && r[k].slot == docs[k].slot.(remaining := Some(docs[k].slot.remaining.GetOr(0) - 1), status := status)
              && forall j :: 0 <= j < |docs| && j != k ==> r[j] == docs[j]
  {
    match IndexOfId(docs, target)
    case None => docs
    case Some(i) =>
      var s := docs[i].slot;
      docs[i := SlotDoc(target, s.(remaining := Some(s.remaining.GetOr(0) - 1), status := status))]
  }

  /** With unique identifiers, the update reaches exactly the slot that carries the identifier. */
  lemma UpdateOneHitsSlot(docs: seq<SlotDoc>, k: nat, status: SlotStatus)
    requires DistinctSlotIds(docs) && k < |docs|
    ensures var r := UpdateOne(docs, docs[k].id, status);
            && r[k] == SlotDoc(docs[k].id, docs[k].slot.(remaining := Some(docs[k].slot.remaining.GetOr(0) - 1), status := status))
            && forall j :: 0 <= j < |docs| && j != k ==> r[j] == docs[j]
  {
    SlotIdResolves(docs, k);
  }

  /** The booking with the identifier a caller was given, if any. */
  function FindBooking(docs: seq<BookingDoc>, id: string): (r: Option<Booking>)
    ensures r.Some? ==> exists d :: d in docs && d.booking == r.value && Some(d.id) == ParseObjectId(id)
    decreases |docs|
  {
    if docs == [] then None
    else if Some(docs[0].id) == ParseObjectId(id) then Some(docs[0].booking)
    else FindBooking(docs[1..], id)
  }

  /** With unique identifiers, every booking's string id resolves to that booking. */
  lemma {:induction false} BookingIdResolves(docs: seq<BookingDoc>, k: nat)
    requires DistinctBookingIds(docs) && k < |docs|
    ensures FindBooking(docs, IdString(docs[k].id)) == Some(docs[k].booking)
    decreases k
  {
    ParseIdString(docs[k].id);
    if k > 0 {
      assert docs[0].id != docs[k].id;
      assert DistinctBookingIds(docs[1..]) by {
        forall i, j | 0 <= i < j < |docs[1..]| ensures docs[1..][i].id != docs[1..][j].id {
          assert docs[1..][i] == docs[i + 1] && docs[1..][j] == docs[j + 1];
        }
      }
      BookingIdResolves(docs[1..], k - 1);
    }
  }
}
