/**
 * What the optimiser works on once the database has been read: the week's
 * pending events, the existing (non-optimised) schedules, the venues, the
 * equipment inventory and requests, the organisers' preferences, and the
 * compiled week. Ids are strings; instants are UTC minutes (see `Clock`).
 */
module Inputs {
  import opened Wrappers
  import opened Clock
  import opened Text
  import opened DateParsing
  import opened WeekConstraints

  /** A pending event; `requestedVenue` is the requested venue id as text. */
  datatype Event = Event(
    id: string,
    org: string,
    attendees: Option<int>,
    requestedDate: int,
    requestedStart: int,
    requestedEnd: int,
    requestedVenue: string)

  datatype Venue = Venue(id: string, venueType: string, name: string, occupancy: Option<int>)

  /** An existing, non-optimised schedule that occupies a venue. */
  datatype Booking = Booking(event: string, venue: string, start: int, end: int)

  /** One equipment request of an event; the quantity defaults to 1. */
  datatype EquipmentRequest = EquipmentRequest(equipment: string, quantity: Option<int>)

  /** An organiser's alternative: a venue id (as text), a date and a time slot. */
  datatype Preference = Preference(venue: string, date: Option<int>, slotStart: Option<int>, slotEnd: Option<int>)

  /** The fitness weights (`FitnessWeights`). */
  datatype Weights = Weights(
    venueMatch: real,
    dateMatch: real,
    timeslotMatch: real,
    capacityPenalty: real,
    hecticBonus: real,
    baseScore: real,
    hardPenalty: real)

  const DefaultWeights: Weights := Weights(50.0, 20.0, 30.0, -10.0, 100.0, 10.0, 10000.0)

  /**
   * The record `fetch_ga_data` returns. `stock` maps an equipment name to the
   * number of items with that name, `equipmentNames` an equipment id to its
   * name; the week is the PHT dates [weekStart, weekEnd); `hecticReference`
   * is the calendar's hectic periods as re-read for the fitness bonus.
   */
  datatype RunData = RunData(
    pending: seq<Event>,
    existing: seq<Booking>,
    venues: seq<Venue>,
    stock: map<string, int>,
    equipmentNames: map<string, string>,
    requests: map<string, seq<EquipmentRequest>>,
    preferences: map<string, seq<Preference>>,
    week: Constraints,
    weekStart: int,
    weekEnd: int,
    hecticReference: seq<DateText>,
    yearStart: int,
    yearEnd: int)

  // ---------------------------------------------------------------------
  // Lookups (Python dict `get`)
  // ---------------------------------------------------------------------

  /** The pending event with id `id` (`pending_events_dict.get`). */
  function FindEvent(events: seq<Event>, id: string): (r: Option<Event>)
    ensures r.Some? ==> r.value in events && r.value.id == id
    ensures r.None? <==> forall k :: 0 <= k < |events| ==> events[k].id != id
  {
    if events == [] then None
    else if events[0].id == id then Some(events[0])
    else FindEvent(events[1..], id)
  }

  /** The venue with id `id` (`venues_data.get`). */
  function FindVenue(venues: seq<Venue>, id: string): (r: Option<Venue>)
    ensures r.Some? ==> r.value in venues && r.value.id == id
    ensures r.None? <==> forall k :: 0 <= k < |venues| ==> venues[k].id != id
  {
    if venues == [] then None
    else if venues[0].id == id then Some(venues[0])
    else FindVenue(venues[1..], id)
  }

  /** The ids of `events`, in order: exactly the ids some event carries. */
  function EventIds(events: seq<Event>): (ids: seq<string>)
    ensures |ids| == |events|
    ensures forall k :: 0 <= k < |events| ==> ids[k] == events[k].id
    ensures forall id :: id in ids <==> exists e :: e in events && e.id == id
  {
    var ids := seq(|events|, k requires 0 <= k < |events| => events[k].id);
    assert forall e :: e in events ==> e.id in ids by {
      forall e | e in events
        ensures e.id in ids
      {
        var k :| 0 <= k < |events| && events[k] == e;
        assert ids[k] == e.id;
      }
    }
    ids
  }

  /** An id is found among the events exactly when it is one of their ids. */
  lemma FindEventIds(events: seq<Event>, id: string)
    ensures FindEvent(events, id).Some? <==> id in EventIds(events)
  {
    if id in EventIds(events) {
      var k :| 0 <= k < |events| && EventIds(events)[k] == id;
      assert events[k].id == id;
    }
  }

  function Quantity(r: EquipmentRequest): int {
    r.quantity.GetOr(1)
  }

  /** Items of equipment `name` in stock (`equipment_counts.get(name, 0)`). */
  function Stock(data: RunData, name: string): int {
    if name in data.stock then data.stock[name] else 0
  }

  function RequestsOf(data: RunData, id: string): seq<EquipmentRequest> {
    if id in data.requests then data.requests[id] else []
  }

  function PreferencesOf(data: RunData, id: string): seq<Preference> {
    if id in data.preferences then data.preferences[id] else []
  }

  // ---------------------------------------------------------------------
  // Slot rules shared by the operators and the post-mortem
  // ---------------------------------------------------------------------

  const DefaultDuration: int := 90

  /** The requested length when the request is a proper interval, else 1.5 hours. */
  function Duration(e: Event): (d: int)
    ensures d > 0
    ensures e.requestedEnd > e.requestedStart ==> d == e.requestedEnd - e.requestedStart
    ensures e.requestedEnd <= e.requestedStart ==> d == DefaultDuration
  {
    if e.requestedEnd > e.requestedStart then e.requestedEnd - e.requestedStart else DefaultDuration
  }

  /** A PHT time of day inside the 22:00-06:00 curfew. */
  predicate InCurfew(minuteOfDay: int) {
    CurfewStart <= minuteOfDay || minuteOfDay < CurfewEnd
  }

  /**
   * The end-spill filter of the slot generators: the PHT end time is after
   * 22:00 (and not midnight), or the slot ends on a later PHT date after 06:00.
   */
  predicate SpillsIntoNight(start: int, end: int) {
    (LocalTime(end) > CurfewStart && LocalTime(end) != 0)
    || (LocalDate(end) > LocalDate(start) && LocalTime(end) > CurfewEnd)
  }

  // ---------------------------------------------------------------------
  // Venue-type blockages
  // ---------------------------------------------------------------------

  /** "Classroom" for a classroom-type venue, else "ULS" for a ULS-named one. */
  function VenueKind(v: Venue): (k: Option<string>)
    ensures k == Some("Classroom") <==> Contains(Lower(v.venueType), "classroom")
    ensures k == Some("ULS") <==> !Contains(Lower(v.venueType), "classroom") && Contains(Lower(v.name), "uls")
    ensures k.Some? ==> k.value == "Classroom" || k.value == "ULS"
  {
    if Contains(Lower(v.venueType), "classroom") then Some("Classroom")
    else if Contains(Lower(v.name), "uls") then Some("ULS")
    else None
  }

  /** Changing the case of a venue's type text or name does not change its kind. */
  lemma VenueKindIgnoresCase(v: Venue, u: Venue)
    requires Lower(u.venueType) == Lower(v.venueType) && Lower(u.name) == Lower(v.name)
    ensures VenueKind(u) == VenueKind(v)
    ensures VenueKind(v.(venueType := Lower(v.venueType), name := Lower(v.name))) == VenueKind(v)
  {
    LowerIdempotent(v.venueType);
    LowerIdempotent(v.name);
  }

  /** A word occurring in a text occurs, lower-cased, at the same place in the lower-cased text. */
  lemma LowerOccurs(s: string, sub: string, i: int)
    requires OccursAt(s, sub, i)
    ensures OccursAt(Lower(s), Lower(sub), i)
  {
    assert forall j :: 0 <= j < |sub| ==> Lower(s)[i + j] == Lower(sub)[j] by {
      forall j | 0 <= j < |sub|
        ensures Lower(s)[i + j] == Lower(sub)[j]
      {
        assert s[i + j] == sub[j];
      }
    }
    assert Lower(s)[i..i + |sub|] == Lower(sub);
  }

  /** "Classroom" written in any mix of cases in the type text makes a classroom. */
  lemma ClassroomInAnyCase(v: Venue, word: string)
    requires Lower(word) == "classroom" && Contains(v.venueType, word)
    ensures VenueKind(v) == Some("Classroom")
  {
    var i :| 0 <= i <= |v.venueType| - |word| && OccursAt(v.venueType, word, i);
    LowerOccurs(v.venueType, word, i);
  }

  /** The key suffix for a PHT weekday: Monday-Friday and Saturday have rules, Sunday none. */
  function DaySuffix(w: int): (s: Option<string>)
    ensures s.None? <==> w > Saturday
  {
    if w < Saturday then Some("_weekday") else if w == Saturday then Some("_weekend_Sat") else None
  }

  /** The blockage-table key for venue `v` and a slot starting at `start`. */
  function BlockageKey(v: Venue, start: int): (key: Option<string>)
    ensures key.Some? <==> VenueKind(v).Some? && Weekday(LocalDate(start)) != Sunday
    ensures key.Some? ==>
              key.value == VenueKind(v).value + (if Weekday(LocalDate(start)) == Saturday then "_weekend_Sat" else "_weekday")
  {
    match (VenueKind(v), DaySuffix(Weekday(LocalDate(start))))
    case (Some(kind), Some(suffix)) => Some(kind + suffix)
    case _ => None
  }

  /** The blockage rules that apply to venue `v` for a slot starting at `start`. */
  function RulesFor(week: Constraints, v: Venue, start: int): seq<TimeRange> {
    match BlockageKey(v, start)
    case None => []
    case Some(key) => if key in week.blockages then week.blockages[key] else []
  }

  /** A rule restricted to one weekday applies only on that PHT weekday. */
  predicate RuleApplies(rule: TimeRange, start: int) {
    rule.day.None? || rule.day.value == "" || DayName(Weekday(LocalDate(start))) == rule.day.value
  }

  /** The rule, on the PHT date the slot starts, overlaps the slot [start, end). */
  predicate RuleHits(rule: TimeRange, start: int, end: int) {
    RuleApplies(rule, start)
    && Overlap(start, end, LocalToUtc(LocalDate(start), rule.start), LocalToUtc(LocalDate(start), rule.end))
  }
}
