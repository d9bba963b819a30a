/**
 * The availability search (`POST /api/availability`): open slots, optionally
 * for one service and one staff member, starting within a window of whole
 * days, at most `limit` of them, with identifiers rendered as strings.
 */
module Availability {
  import opened Wrappers
  import opened Schemas
  import opened ObjectIds
  import opened Documents

  datatype AvailabilityQuery = AvailabilityQuery(
    serviceId: Option<string>,
    staffId: Option<string>,
    date: Option<string>,
    days: int,
    limit: int)

  const DefaultDays: int := 7
  const DefaultLimit: int := 20

  const InvalidDateFormat := "Invalid date format, use YYYY-MM-DD"

  /** The query as a caller sends it with `days` and `limit` left out. */
  function QueryWithDefaults(serviceId: Option<string>, staffId: Option<string>,
                             date: Option<string>): AvailabilityQuery
  {
    AvailabilityQuery(serviceId, staffId, date, DefaultDays, DefaultLimit)
  }

  /** A slot as returned to the caller: its identifier as a string. */
  datatype RenderedSlot = RenderedSlot(id: string, slot: ScheduleSlot)

  function RenderSlot(d: SlotDoc): RenderedSlot {
    RenderedSlot(IdString(d.id), d.slot)
  }

  function RenderAll(docs: seq<SlotDoc>): seq<RenderedSlot> {
    seq(|docs|, i requires 0 <= i < |docs| => RenderSlot(docs[i]))
  }

  /** The store filter the query builds: equality on the given ids, a start-time window. */
  datatype SlotFilter = SlotFilter(
    serviceId: Option<string>,
    staffId: Option<string>,
    windowStart: Timestamp,
    windowEnd: Timestamp)

  function FilterFor(q: AvailabilityQuery, start: Timestamp): SlotFilter {
    SlotFilter(
      if Given(q.serviceId) then q.serviceId else None,
      if Given(q.staffId) then q.staffId else None,
      start,
      start + q.days * SecondsPerDay)
  }

  predicate Admits(f: SlotFilter, s: ScheduleSlot) {
    s.status == Open
    && (f.serviceId.Some? ==> s.serviceId == f.serviceId)
    && (f.staffId.Some? ==> s.staffId == f.staffId)
    && f.windowStart <= s.startTime < f.windowEnd
  }

  /** The slots the store returns for a filter and a limit. */
  function Matching(slots: seq<SlotDoc>, f: SlotFilter, limit: int): seq<SlotDoc> {
    GetDocuments(slots, s => Admits(f, s), limit)
  }

  /**
   * The start of the window: the parsed `date` when one is given (parsing is
   * the caller-supplied partial function `parseDate`), otherwise `now`.
   */
  function WindowStart(q: AvailabilityQuery, now: Timestamp, parseDate: string -> Option<Timestamp>)
    : Result<Timestamp, ApiError>
  {
    if Given(q.date) then
      match parseDate(q.date.value)
      case None => Err(BadRequest(InvalidDateFormat))
      case Some(t) => Ok(t)
    else Ok(now)
  }

  /** The number of stored slots a filter admits, before any limit. */
  function MatchCount(slots: seq<SlotDoc>, f: SlotFilter): nat {
    |Select(slots, s => Admits(f, s))|
  }

  /**
   * The response of the availability endpoint against the slot collection
   * `slots`: an error exactly when a non-empty date does not parse, and
   * otherwise open slots of the store, each under its string id.
   */
  function AvailableSlots(slots: seq<SlotDoc>, q: AvailabilityQuery, now: Timestamp,
                          parseDate: string -> Option<Timestamp>): (r: Result<seq<RenderedSlot>, ApiError>)
    ensures r.Err? <==> Given(q.date) && parseDate(q.date.value).None?
    ensures r.Ok? ==> forall i :: 0 <= i < |r.value| ==>
              r.value[i].slot.status == Open && exists d :: d in slots && RenderSlot(d) == r.value[i]
  {
    match WindowStart(q, now, parseDate)
    case Err(e) => Err(e)
    case Ok(start) =>
      var found := Matching(slots, FilterFor(q, start), q.limit);
      assert forall i :: 0 <= i < |found| ==> found[i] in found;
      Ok(RenderAll(found))
  }

  /**
   * Every returned slot is open, matches each non-empty service and staff id,
   * starts inside the window, and is a slot of the store whose string id
   * parses back to that slot's identifier.
   */
  lemma AvailableSlotsSound(slots: seq<SlotDoc>, q: AvailabilityQuery, now: Timestamp,
                            parseDate: string -> Option<Timestamp>)
    ensures var r := AvailableSlots(slots, q, now, parseDate);
            r.Ok? ==>
              var start := WindowStart(q, now, parseDate).value;
              forall i :: 0 <= i < |r.value| ==>
                && r.value[i].slot.status == Open
                && (Given(q.serviceId) ==> r.value[i].slot.serviceId == q.serviceId)
                && (Given(q.staffId) ==> r.value[i].slot.staffId == q.staffId)
                && start <= r.value[i].slot.startTime < start + q.days * SecondsPerDay
                && exists d :: d in slots && d.slot == r.value[i].slot && ParseObjectId(r.value[i].id) == Some(d.id)
  {
    var r := AvailableSlots(slots, q, now, parseDate);
    if r.Ok? {
      var start := WindowStart(q, now, parseDate).value;
      var found := Matching(slots, FilterFor(q, start), q.limit);
      forall i | 0 <= i < |r.value|
        ensures ParseObjectId(r.value[i].id) == Some(found[i].id)
        ensures found[i] in slots && Admits(FilterFor(q, start), found[i].slot)
      {
        ParseIdString(found[i].id);
        assert found[i] in Select(slots, s => Admits(FilterFor(q, start), s));
      }
    }
  }

  /**
   * The reply holds as many slots as the limit lets through of the matching
   * ones: `limit` of them when more match (0 meaning no limit), all of them
   * otherwise, and none when the window has no length.
   */
  lemma AvailableSlotsBounded(slots: seq<SlotDoc>, q: AvailabilityQuery, now: Timestamp,
                              parseDate: string -> Option<Timestamp>)
    ensures var r := AvailableSlots(slots, q, now, parseDate);
            r.Ok? ==>
              var n := MatchCount(slots, FilterFor(q, WindowStart(q, now, parseDate).value));
              && |r.value| == LimitCount(q.limit, n)
              && (q.limit > 0 ==> |r.value| == (if n <= q.limit then n else q.limit))
              && n <= |slots|
              && (q.days <= 0 ==> r.value == [])
  {
    var r := AvailableSlots(slots, q, now, parseDate);
    if r.Ok? && q.days <= 0 {
      var start := WindowStart(q, now, parseDate).value;
      var f := FilterFor(q, start);
      assert f.windowEnd <= f.windowStart;
      SelectNone(slots, s => Admits(f, s));
    }
  }

  /**
   * The reply is the earliest matching slots in store order, and when the
   * matches fit the limit, every open slot of the store that matches the
   * filters and starts inside the window is returned.
   */
  lemma AvailableSlotsComplete(slots: seq<SlotDoc>, q: AvailabilityQuery, now: Timestamp,
                               parseDate: string -> Option<Timestamp>)
    ensures var r := AvailableSlots(slots, q, now, parseDate);
            r.Ok? ==>
              var f := FilterFor(q, WindowStart(q, now, parseDate).value);
              && r.value == RenderAll(Select(slots, s => Admits(f, s))[..|r.value|])
              && (q.limit == 0 || MatchCount(slots, f) <= Abs(q.limit) ==>
                    forall d :: d in slots && Admits(f, d.slot) ==> RenderSlot(d) in r.value)
  {
    var r := AvailableSlots(slots, q, now, parseDate);
    if r.Ok? {
      var f := FilterFor(q, WindowStart(q, now, parseDate).value);
      var found := Matching(slots, f, q.limit);
      if q.limit == 0 || MatchCount(slots, f) <= Abs(q.limit) {
        forall d | d in slots && Admits(f, d.slot) ensures RenderSlot(d) in r.value {
          var i :| 0 <= i < |found| && found[i] == d;
          assert r.value[i] == RenderSlot(d);
        }
      }
    }
  }

  /**
   * The query a caller sends with `days` and `limit` left out and no date
   * searches the week starting now: at most 20 open slots, all starting
   * within seven days of `now`.
   */
  lemma DefaultQuerySearchesAWeek(slots: seq<SlotDoc>, serviceId: Option<string>, staffId: Option<string>,
                                  now: Timestamp, parseDate: string -> Option<Timestamp>)
    ensures var r := AvailableSlots(slots, QueryWithDefaults(serviceId, staffId, None), now, parseDate);
            && r.Ok?
            && |r.value| <= 20
            && forall i :: 0 <= i < |r.value| ==>
                 r.value[i].slot.status == Open && now <= r.value[i].slot.startTime < now + 7 * 86400
  {
    var q := QueryWithDefaults(serviceId, staffId, None);
    AvailableSlotsSound(slots, q, now, parseDate);
    AvailableSlotsBounded(slots, q, now, parseDate);
  }

  /**
   * A non-empty date that does not parse is rejected with the date-format
   * error, whatever the store holds; every other query succeeds.
   */
  lemma AvailableSlotsDateError(slots: seq<SlotDoc>, q: AvailabilityQuery, now: Timestamp,
                                parseDate: string -> Option<Timestamp>)
    ensures var r := AvailableSlots(slots, q, now, parseDate);
            && (r.Err? <==> Given(q.date) && parseDate(q.date.value).None?)
            && (r.Err? ==> r.error == BadRequest(InvalidDateFormat))
            && (r.Err? ==> forall other :: AvailableSlots(other, q, now, parseDate) == r)
  {
  }

  /** An empty service id, staff id or date constrains nothing: it acts as an absent one. */
  lemma BlankFieldsIgnored(slots: seq<SlotDoc>, q: AvailabilityQuery, now: Timestamp,
                           parseDate: string -> Option<Timestamp>)
    ensures AvailableSlots(slots, q.(serviceId := Some("")), now, parseDate)
            == AvailableSlots(slots, q.(serviceId := None), now, parseDate)
    ensures AvailableSlots(slots, q.(staffId := Some("")), now, parseDate)
            == AvailableSlots(slots, q.(staffId := None), now, parseDate)
    ensures AvailableSlots(slots, q.(date := Some("")), now, parseDate)
            == AvailableSlots(slots, q.(date := None), now, parseDate)
  {
  }
}
