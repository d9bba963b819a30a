/**
 * The record shapes of the booking domain: one datatype per collection,
 * the literal enumerations as datatypes, the field defaults as constructor
 * functions, and the one field-level validator (the bounds on a service).
 */
module Schemas {
  import opened Wrappers

  /** Instants in seconds; the model's stand-in for `datetime`. */
  type Timestamp = int

  const SecondsPerDay: int := 86400

  datatype Organization = Organization(
    name: string,
    industry: Option<string>,
    timezone: string,
    currency: string,
    settings: map<string, string>)

  datatype Service = Service(
    name: string,
    description: Option<string>,
    durationMinutes: int,
    priceCents: int,
    category: Option<string>,
    isActive: bool)

  /** The bounds every service satisfies once constructed. */
  predicate ValidService(s: Service) {
    5 <= s.durationMinutes <= 480 && s.priceCents >= 0
  }

  /**
   * Construction with validation: either a service carrying exactly the
   * given fields, or the names of every field whose bound is violated.
   */
  function MakeService(name: string, description: Option<string>, durationMinutes: int,
                       priceCents: int, category: Option<string>, isActive: bool)
    : (r: Result<Service, seq<string>>)
    ensures r.Ok? <==> 5 <= durationMinutes <= 480 && priceCents >= 0
    ensures r.Ok? ==> ValidService(r.value)
    ensures r.Ok? ==> r.value.name == name && r.value.description == description
                      && r.value.durationMinutes == durationMinutes && r.value.priceCents == priceCents
                      && r.value.category == category && r.value.isActive == isActive
    ensures r.Err? ==> ("duration_minutes" in r.error <==> !(5 <= durationMinutes <= 480))
    ensures r.Err? ==> ("price_cents" in r.error <==> priceCents < 0)
  {
    var errors := (if 5 <= durationMinutes <= 480 then [] else ["duration_minutes"])
                  + (if priceCents >= 0 then [] else ["price_cents"]);
    if errors == [] then Ok(Service(name, description, durationMinutes, priceCents, category, isActive))
    else Err(errors)
  }

  datatype Staff = Staff(
    name: string,
    email: Option<string>,
    phone: Option<string>,
    roles: seq<string>,
    services: seq<string>,
    timezone: Option<string>,
    isActive: bool)

  datatype Customer = Customer(
    firstName: string,
    lastName: Option<string>,
    email: Option<string>,
    phone: Option<string>,
    notes: Option<string>,
    marketingOptIn: bool)

  datatype SlotStatus = Open | Held | Booked | Blocked

  /**
   * A bookable time window. `remaining` is optional because a stored slot
   * document may lack the field; readers supply their own default.
   */
  datatype ScheduleSlot = ScheduleSlot(
    serviceId: Option<string>,
    staffId: Option<string>,
    startTime: Timestamp,
    endTime: Timestamp,
    capacity: int,
    remaining: Option<int>,
    location: Option<string>,
    status: SlotStatus)

  /** A slot with every defaulted field left at its default. */
  function NewScheduleSlot(serviceId: Option<string>, staffId: Option<string>,
                           startTime: Timestamp, endTime: Timestamp): ScheduleSlot
  {
    ScheduleSlot(serviceId, staffId, startTime, endTime, 1, Some(1), None, Open)
  }

  datatype BookingStatus = Pending | Confirmed | Cancelled

  /**
   * A booking. `source` is kept as the string that was written, since the
   * booking endpoint stores it without checking it against the literals.
   */
  datatype Booking = Booking(
    customerId: string,
    serviceId: string,
    staffId: Option<string>,
    startTime: Timestamp,
    endTime: Timestamp,
    status: BookingStatus,
    quantity: int,
    priceCents: int,
    source: string,
    notes: Option<string>,
    scheduleSlotId: Option<string>)

  /** The literal values a booking's source may take. */
  predicate IsBookingSource(s: string) {
    s == "phone" || s == "web" || s == "ai" || s == "manual"
  }

  function NewBooking(customerId: string, serviceId: string,
                      startTime: Timestamp, endTime: Timestamp): Booking
  {
    Booking(customerId, serviceId, None, startTime, endTime, Confirmed, 1, 0, "web", None, None)
  }

  datatype PaymentStatus = Pending | Paid | Expired

  datatype PaymentLink = PaymentLink(
    customerId: string,
    amountCents: int,
    currency: string,
    description: Option<string>,
    status: PaymentStatus,
    token: Option<string>,
    url: Option<string>,
    expiresAt: Option<Timestamp>)

  function NewPaymentLink(customerId: string, amountCents: int): PaymentLink {
    PaymentLink(customerId, amountCents, "AUD", None, PaymentStatus.Pending, None, None, None)
  }

  datatype Direction = Inbound | Outbound

  datatype Transcript = Transcript(
    callId: string,
    direction: Direction,
    text: string,
    intent: Option<string>,
    summary: Option<string>)

  datatype Channel = Sms | Email

  datatype MessageStatus = Queued | Sent | Failed

  datatype Message = Message(
    to: string,
    channel: Channel,
    subject: Option<string>,
    body: string,
    status: MessageStatus,
    meta: map<string, string>)
}
