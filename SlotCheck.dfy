/**
 * `_check_slot_constraints_for_reason` and `_run_post_mortem_analysis`.
 *
 * The reason checker judges one candidate slot for one event and names the
 * first check it fails, in a fixed order: the target week, the general
 * unavailable slots, (on non-hectic weeks) the venue and its venue-type
 * blockages, the event's own equipment requests, and the venue's capacity.
 * Unlike the fitness evaluator it checks week membership, and it weighs only
 * the event's own equipment, not that of concurrent events.
 *
 * The post-mortem samples five PHT daytime starts on every non-Sunday of the
 * week at every venue for each unscheduled event, collects the reasons, and
 * groups them by the text before their first ':'.
 */
module SlotCheck {
  import opened Wrappers
  import opened Clock
  import opened Text
  import opened WeekConstraints
  import opened Inputs
  import opened Fitness

  // ---------------------------------------------------------------------
  // Reasons
  // ---------------------------------------------------------------------

  predicate InTargetWeek(start: int, data: RunData) {
    data.weekStart <= LocalDate(start) < data.weekEnd
  }

  function OutsideWeekReason(d: int): string {
    "Slot Outside Target PHT Week (" + IsoDate(d) + ")"
  }

  function VenueNotFoundReason(venueId: string): string {
    "Venue Not Found (" + venueId + ")"
  }

  function BlockageReason(key: string, rule: TimeRange): string {
    "Venue Blockage: " + BlockageDetail(key, rule)
  }

  /** The key, the rule's weekday when it has one, and the rule's PHT times. */
  function BlockageDetail(key: string, rule: TimeRange): string {
    key
      + (if rule.day.Some? && rule.day.value != "" then " (" + rule.day.value + ")" else "")
      + " (" + ClockLabel(rule.start) + "-" + ClockLabel(rule.end) + " PHT)"
  }

  /** The venue-type blockage the slot runs into, if any (lines 347-377). */
  function VenueBlockage(v: Venue, start: int, end: int, week: Constraints): Option<string> {
    match BlockageKey(v, start)
    case None => None
    case Some(key) =>
      if key in week.blockages then
        match FirstRuleHit(week.blockages[key], start, end)
        case None => None
        case Some(rule) => Some(BlockageReason(key, rule))
      else None
  }

  /** The checker and the evaluator agree on whether a venue-type blockage is hit. */
  lemma VenueBlockageAgrees(v: Venue, start: int, end: int, week: Constraints)
    ensures VenueBlockage(v, start, end, week).Some? <==> FirstRuleHit(RulesFor(week, v, start), start, end).Some?
    ensures VenueBlockage(v, start, end, week).Some? ==> StartsWith(VenueBlockage(v, start, end, week).value, "Venue Blockage: ")
  {
    match BlockageKey(v, start)
    case None =>
    case Some(key) =>
      if key in week.blockages {
        match FirstRuleHit(week.blockages[key], start, end)
        case None =>
        case Some(rule) =>
          PrefixStartsWith("Venue Blockage: ", BlockageDetail(key, rule));
      }
  }

  /** What is wrong with one equipment request: an unknown id, or a name missing from the inventory. */
  function RequestProblem(r: EquipmentRequest, data: RunData): Option<string> {
    if r.equipment !in data.equipmentNames then
      Some("Requested Equipment ID '" + r.equipment + "' Not Found")
    else if data.equipmentNames[r.equipment] !in data.stock then
      Some("Equipment '" + data.equipmentNames[r.equipment] + "' Not Found in Inventory")
    else None
  }

  /** The problem of the first request that has one. */
  function FirstBadRequest(reqs: seq<EquipmentRequest>, data: RunData): (r: Option<string>)
    ensures r.None? <==> forall k :: 0 <= k < |reqs| ==> RequestProblem(reqs[k], data).None?
    ensures r.Some? ==> exists k :: 0 <= k < |reqs| && r == RequestProblem(reqs[k], data)
                                    && forall j :: 0 <= j < k ==> RequestProblem(reqs[j], data).None?
  {
    if reqs == [] then None
    else if RequestProblem(reqs[0], data).Some? then RequestProblem(reqs[0], data)
    else
      var r := FirstBadRequest(reqs[1..], data);
      if r.Some? then
        var k :| 0 <= k < |reqs[1..]| && r == RequestProblem(reqs[1..][k], data)
                 && forall j :: 0 <= j < k ==> RequestProblem(reqs[1..][j], data).None?;
        assert reqs[k + 1] == reqs[1..][k];
        r
      else r
  }

  /** The keys of `current_event_equip_requests`: each requested name once, in first-request order. */
  function OwnNames(reqs: seq<EquipmentRequest>, names: map<string, string>): seq<string>
    decreases |reqs|
  {
    if reqs == [] then []
    else
      var prev := OwnNames(reqs[..|reqs| - 1], names);
      var r := reqs[|reqs| - 1];
      if r.equipment in names && names[r.equipment] !in prev then prev + [names[r.equipment]] else prev
  }

  /** Each name a request resolves to appears once, and nothing else does. */
  lemma {:induction false} OwnNamesMembers(reqs: seq<EquipmentRequest>, names: map<string, string>)
    ensures Genome.Distinct(OwnNames(reqs, names))
    ensures forall n :: n in OwnNames(reqs, names) <==> exists r :: r in reqs && r.equipment in names && names[r.equipment] == n
    decreases |reqs|
  {
    if reqs != [] {
      var init := reqs[..|reqs| - 1];
      assert reqs == init + [reqs[|reqs| - 1]];
      OwnNamesMembers(init, names);
    }
  }

  function ShortageReason(name: string, needed: int, has: int): string {
    "Equipment Unavailable: '" + ShortageDetail(name, needed, has)
  }

  function ShortageDetail(name: string, needed: int, has: int): string {
    name + "' (Needs " + IntToString(needed) + ", Has " + IntToString(has) + ")"
  }

  /** The first name, in `ns` order, whose requested total exceeds the stock. */
  function FirstShortage(ns: seq<string>, reqs: seq<EquipmentRequest>, data: RunData): (r: Option<string>)
    ensures r.None? <==> forall k :: 0 <= k < |ns| ==> Demand(reqs, data.equipmentNames, ns[k]) <= Stock(data, ns[k])
    ensures r.Some? ==> StartsWith(r.value, "Equipment Unavailable: '")
  {
    if ns == [] then None
    else
      var q := Demand(reqs, data.equipmentNames, ns[0]);
      if q > Stock(data, ns[0]) then
        PrefixStartsWith("Equipment Unavailable: '", ShortageDetail(ns[0], q, Stock(data, ns[0])));
        Some(ShortageReason(ns[0], q, Stock(data, ns[0])))
      else
        var r := FirstShortage(ns[1..], reqs, data);
        assert forall k :: 1 <= k < |ns| ==> ns[k] == ns[1..][k - 1];
        r
  }

  /** Lines 385-397: a bad request first, else the first name short of stock. */
  function EquipmentReason(reqs: seq<EquipmentRequest>, data: RunData): Option<string> {
    match FirstBadRequest(reqs, data)
    case Some(problem) => Some(problem)
    case None => FirstShortage(OwnNames(reqs, data.equipmentNames), reqs, data)
  }

  /** Lines 399-404: more attendees than seats, or no venue record at all. */
  function CapacityReason(e: Event, venueId: string, data: RunData): Option<string> {
    match FindVenue(data.venues, venueId)
    case None => Some("Venue Data Error For Capacity Check (" + venueId + ")")
    case Some(v) =>
      if v.occupancy.Some? && e.attendees.Some? && e.attendees.value > v.occupancy.value then
        Some("Capacity Exceeded (Needs " + IntToString(e.attendees.value) + ", Venue Has " + IntToString(v.occupancy.value) + ")")
      else None
  }

  /** The reason the slot [start, end) at venue `venueId` fails for event `e`, or None. */
  function SlotReason(e: Event, venueId: string, start: int, end: int, data: RunData): Option<string> {
    if !InTargetWeek(start, data) then Some(OutsideWeekReason(LocalDate(start)))
    else if FirstOverlapping(data.week.general, start, end).Some? then
      Some(FirstOverlapping(data.week.general, start, end).value.reason)
    else if !data.week.isHectic && FindVenue(data.venues, venueId).None? then Some(VenueNotFoundReason(venueId))
    else if !data.week.isHectic && VenueBlockage(FindVenue(data.venues, venueId).value, start, end, data.week).Some? then
      VenueBlockage(FindVenue(data.venues, venueId).value, start, end, data.week)
    else if EquipmentReason(RequestsOf(data, e.id), data).Some? then EquipmentReason(RequestsOf(data, e.id), data)
    else CapacityReason(e, venueId, data)
  }

  // ---------------------------------------------------------------------
  // The checker
  // ---------------------------------------------------------------------

  /**
   * Lines 385-393: the scan of the event's own requests, stopping at the first
   * bad one, and otherwise the totals per name in first-request order.
   */
  method TotalRequests(reqs: seq<EquipmentRequest>, data: RunData)
    returns (bad: Option<string>, order: seq<string>, totals: map<string, int>)
    ensures bad == FirstBadRequest(reqs, data)
    ensures bad.None? ==> order == OwnNames(reqs, data.equipmentNames)
    ensures bad.None? ==> forall n :: n in order ==> n in totals && totals[n] == Demand(reqs, data.equipmentNames, n)
  {
    order := [];
    totals := map[];
    var i := 0;
    while i < |reqs|
      invariant 0 <= i <= |reqs|
      invariant FirstBadRequest(reqs, data) == FirstBadRequest(reqs[i..], data)
      invariant TotalsAt(reqs, i, data.equipmentNames, order, totals)
    {
      var r := reqs[i];
      if r.equipment !in data.equipmentNames {
        return Some("Requested Equipment ID '" + r.equipment + "' Not Found"), order, totals;
      }
      var n := data.equipmentNames[r.equipment];
      if n !in data.stock {
        return Some("Equipment '" + n + "' Not Found in Inventory"), order, totals;
      }
      BadRequestStep(reqs, i, data);
      TotalsStep(reqs, i, data.equipmentNames, order, totals);
      if n !in totals {
        order := order + [n];
      }
      totals := totals[n := (if n in totals then totals[n] else 0) + Quantity(r)];
      i := i + 1;
    }
    assert reqs[..i] == reqs;
    bad := None;
    assert forall n :: n in order ==> n in totals && totals[n] == Demand(reqs, data.equipmentNames, n);
  }

  lemma BadRequestStep(reqs: seq<EquipmentRequest>, i: int, data: RunData)
    requires 0 <= i < |reqs| && RequestProblem(reqs[i], data).None?
    ensures FirstBadRequest(reqs[i..], data) == FirstBadRequest(reqs[i + 1..], data)
  {
    assert reqs[i..][1..] == reqs[i + 1..];
  }

  /** `order` and `totals` are the ordered dict of totals per name over `reqs[..i]`. */
  ghost predicate TotalsAt(reqs: seq<EquipmentRequest>, i: int, names: map<string, string>, order: seq<string>, totals: map<string, int>) {
    && 0 <= i <= |reqs|
    && order == OwnNames(reqs[..i], names)
    && (forall n :: n in totals <==> n in order)
    && (forall n :: n in totals ==> totals[n] == Demand(reqs[..i], names, n))
  }

  lemma TotalsStep(reqs: seq<EquipmentRequest>, i: int, names: map<string, string>, order: seq<string>, totals: map<string, int>)
    requires i < |reqs| && TotalsAt(reqs, i, names, order, totals) && reqs[i].equipment in names
    ensures var n := names[reqs[i].equipment];
            TotalsAt(reqs, i + 1, names, if n in totals then order else order + [n],
                     totals[n := (if n in totals then totals[n] else 0) + Quantity(reqs[i])])
  {
    OwnNamesStep(reqs, i, names);
    DemandStep(reqs, i, names);
    var n := names[reqs[i].equipment];
    if n !in totals {
      UnnamedNotDemanded(reqs[..i], names, n);
    }
  }

  /** A name no request resolves to has no demand. */
  lemma {:induction false} UnnamedNotDemanded(reqs: seq<EquipmentRequest>, names: map<string, string>, n: string)
    requires n !in OwnNames(reqs, names)
    ensures Demand(reqs, names, n) == 0
    decreases |reqs|
  {
    if reqs != [] {
      UnnamedNotDemanded(reqs[..|reqs| - 1], names, n);
    }
  }

  lemma OwnNamesStep(reqs: seq<EquipmentRequest>, i: int, names: map<string, string>)
    requires 0 <= i < |reqs|
    ensures OwnNames(reqs[..i + 1], names)
            == if reqs[i].equipment in names && names[reqs[i].equipment] !in OwnNames(reqs[..i], names)
               then OwnNames(reqs[..i], names) + [names[reqs[i].equipment]]
               else OwnNames(reqs[..i], names)
  {
    assert reqs[..i + 1][..i] == reqs[..i];
  }

  /** Lines 395-397: the first name whose total exceeds the stock. */
  method ScanTotals(order: seq<string>, totals: map<string, int>, reqs: seq<EquipmentRequest>, data: RunData)
    returns (reason: Option<string>)
    requires forall n :: n in order ==> n in totals && totals[n] == Demand(reqs, data.equipmentNames, n)
    ensures reason == FirstShortage(order, reqs, data)
  {
    var k := 0;
    while k < |order|
      invariant 0 <= k <= |order|
      invariant FirstShortage(order, reqs, data) == FirstShortage(order[k..], reqs, data)
    {
      var n := order[k];
      assert order[k..][1..] == order[k + 1..];
      if totals[n] > Stock(data, n) {
        return Some(ShortageReason(n, totals[n], Stock(data, n)));
      }
      k := k + 1;
    }
    return None;
  }

  /** Lines 385-397: a bad request first, else the first name short of stock. */
  method CheckEquipment(reqs: seq<EquipmentRequest>, data: RunData) returns (reason: Option<string>)
    ensures reason == EquipmentReason(reqs, data)
  {
    var bad, order, totals := TotalRequests(reqs, data);
    if bad.Some? {
      return bad;
    }
    reason := ScanTotals(order, totals, reqs, data);
  }

  /** `_check_slot_constraints_for_reason`. */
  method CheckSlot(e: Event, venueId: string, start: int, end: int, data: RunData) returns (reason: Option<string>)
    ensures reason == SlotReason(e, venueId, start, end, data)
  {
    var d := LocalDate(start);
    if !(data.weekStart <= d < data.weekEnd) {
      return Some(OutsideWeekReason(d));
    }
    var general := ScanGeneral(data.week.general, start, end);
    if general.Some? {
      return Some(general.value.reason);
    }
    if !data.week.isHectic {
      var venue := FindVenue(data.venues, venueId);
      if venue.None? {
        return Some(VenueNotFoundReason(venueId));
      }
      var key := BlockageKey(venue.value, start);
      if key.Some? && key.value in data.week.blockages {
        var rule := ScanRules(data.week.blockages[key.value], start, end);
        if rule.Some? {
          return Some(BlockageReason(key.value, rule.value));
        }
      }
    }
    var equipment := CheckEquipment(RequestsOf(data, e.id), data);
    if equipment.Some? {
      return equipment;
    }
    return CapacityReason(e, venueId, data);
  }

  // ---------------------------------------------------------------------
  // Properties of the checker
  // ---------------------------------------------------------------------

  /**
   * The checker finds nothing exactly when the slot is in the target week,
   * clear of the general slots, (on a non-hectic week) at a known venue clear
   * of its blockages, every request resolves to stocked equipment in
   * sufficient number, and the venue exists with room for the attendees.
   */
  lemma NoReasonIffFeasible(e: Event, venueId: string, start: int, end: int, data: RunData)
    ensures SlotReason(e, venueId, start, end, data).None? <==>
              && InTargetWeek(start, data)
              && (forall k :: 0 <= k < |data.week.general|
                              ==> !Overlap(start, end, data.week.general[k].start, data.week.general[k].end))
              && (!data.week.isHectic ==>
                    && FindVenue(data.venues, venueId).Some?
                    && forall k :: 0 <= k < |RulesFor(data.week, FindVenue(data.venues, venueId).value, start)|
                                   ==> !RuleHits(RulesFor(data.week, FindVenue(data.venues, venueId).value, start)[k], start, end))
              && (forall k :: 0 <= k < |RequestsOf(data, e.id)| ==> RequestProblem(RequestsOf(data, e.id)[k], data).None?)
              && (forall n :: n in OwnNames(RequestsOf(data, e.id), data.equipmentNames)
                              ==> Demand(RequestsOf(data, e.id), data.equipmentNames, n) <= Stock(data, n))
              && FindVenue(data.venues, venueId).Some?
              && !(FindVenue(data.venues, venueId).value.occupancy.Some? && e.attendees.Some?
                   && e.attendees.value > FindVenue(data.venues, venueId).value.occupancy.value)
  {
    var v := FindVenue(data.venues, venueId);
    if !data.week.isHectic && v.Some? {
      VenueBlockageAgrees(v.value, start, end, data.week);
    }
    var ns := OwnNames(RequestsOf(data, e.id), data.equipmentNames);
    assert (forall k :: 0 <= k < |ns| ==> Demand(RequestsOf(data, e.id), data.equipmentNames, ns[k]) <= Stock(data, ns[k]))
       <==> (forall n :: n in ns ==> Demand(RequestsOf(data, e.id), data.equipmentNames, n) <= Stock(data, n));
  }

  /**
   * When the earlier checks pass and every request resolves, requesting more
   * of some item than the inventory holds is always reported as equipment
   * unavailable.
   */
  lemma OverDemandReported(e: Event, venueId: string, start: int, end: int, data: RunData, name: string)
    requires InTargetWeek(start, data)
    requires FirstOverlapping(data.week.general, start, end).None?
    requires !data.week.isHectic ==> FindVenue(data.venues, venueId).Some?
                                     && VenueBlockage(FindVenue(data.venues, venueId).value, start, end, data.week).None?
    requires forall k :: 0 <= k < |RequestsOf(data, e.id)| ==> RequestProblem(RequestsOf(data, e.id)[k], data).None?
    requires Demand(RequestsOf(data, e.id), data.equipmentNames, name) > Stock(data, name)
    requires exists r :: r in RequestsOf(data, e.id) && r.equipment in data.equipmentNames && data.equipmentNames[r.equipment] == name
    ensures SlotReason(e, venueId, start, end, data).Some?
    ensures StartsWith(SlotReason(e, venueId, start, end, data).value, "Equipment Unavailable: '")
  {
    var reqs := RequestsOf(data, e.id);
    var ns := OwnNames(reqs, data.equipmentNames);
    OwnNamesMembers(reqs, data.equipmentNames);
    assert name in ns;
    var k :| 0 <= k < |ns| && ns[k] == name;
    assert FirstBadRequest(reqs, data).None?;
    assert FirstShortage(ns, reqs, data).Some?;
  }

  /** Text that cannot start with "Venue Blockage". */
  predicate NotBlockageText(s: string) {
    |s| > 6 && (s[0] != 'V' || s[6] != 'B')
  }

  lemma NotBlockageTextMeans(s: string)
    requires NotBlockageText(s)
    ensures !StartsWith(s, "Venue Blockage")
  {
  }

  lemma OutsideWeekNotBlockage(d: int)
    ensures NotBlockageText(OutsideWeekReason(d))
  {
    var lit := "Slot Outside Target PHT Week (";
    assert OutsideWeekReason(d) == lit + (IsoDate(d) + ")");
    assert (lit + (IsoDate(d) + ")"))[0] == lit[0];
  }

  lemma RequestProblemNotBlockage(r: EquipmentRequest, data: RunData)
    requires RequestProblem(r, data).Some?
    ensures NotBlockageText(RequestProblem(r, data).value)
  {
    if r.equipment !in data.equipmentNames {
      var lit := "Requested Equipment ID '";
      assert RequestProblem(r, data).value == lit + (r.equipment + "' Not Found");
      assert (lit + (r.equipment + "' Not Found"))[0] == lit[0];
    } else {
      var lit := "Equipment '";
      var n := data.equipmentNames[r.equipment];
      assert RequestProblem(r, data).value == lit + (n + "' Not Found in Inventory");
      assert (lit + (n + "' Not Found in Inventory"))[0] == lit[0];
    }
  }

  lemma CapacityNotBlockage(e: Event, venueId: string, data: RunData)
    requires CapacityReason(e, venueId, data).Some?
    ensures NotBlockageText(CapacityReason(e, venueId, data).value)
  {
    var s := CapacityReason(e, venueId, data).value;
    if FindVenue(data.venues, venueId).None? {
      var lit := "Venue Data Error For Capacity Check (";
      assert s == lit + (venueId + ")");
      assert (lit + (venueId + ")"))[6] == lit[6];
    } else {
      var v := FindVenue(data.venues, venueId).value;
      var lit := "Capacity Exceeded (Needs ";
      var rest := IntToString(e.attendees.value) + ", Venue Has " + IntToString(v.occupancy.value) + ")";
      assert s == lit + rest;
      assert (lit + rest)[0] == lit[0];
    }
  }

  /**
   * On a hectic week no venue-type blockage is reported: provided no general
   * slot's own reason reads like one, no reason starts with "Venue Blockage".
   */
  lemma HecticNoBlockage(e: Event, venueId: string, start: int, end: int, data: RunData)
    requires data.week.isHectic
    requires forall k :: 0 <= k < |data.week.general| ==> !StartsWith(data.week.general[k].reason, "Venue Blockage")
    ensures SlotReason(e, venueId, start, end, data).None?
            || !StartsWith(SlotReason(e, venueId, start, end, data).value, "Venue Blockage")
  {
    var reqs := RequestsOf(data, e.id);
    if !InTargetWeek(start, data) {
      OutsideWeekNotBlockage(LocalDate(start));
      NotBlockageTextMeans(OutsideWeekReason(LocalDate(start)));
    } else if FirstOverlapping(data.week.general, start, end).Some? {
    } else if FirstBadRequest(reqs, data).Some? {
      var k :| 0 <= k < |reqs| && FirstBadRequest(reqs, data) == RequestProblem(reqs[k], data);
      RequestProblemNotBlockage(reqs[k], data);
      NotBlockageTextMeans(RequestProblem(reqs[k], data).value);
    } else if EquipmentReason(reqs, data).Some? {
      var s := EquipmentReason(reqs, data).value;
      assert s[..24] == "Equipment Unavailable: '";
      assert s[0] == s[..24][0];
      NotBlockageTextMeans(s);
    } else if CapacityReason(e, venueId, data).Some? {
      CapacityNotBlockage(e, venueId, data);
      NotBlockageTextMeans(CapacityReason(e, venueId, data).value);
    }
  }

  // ---------------------------------------------------------------------
  // Post-mortem
  // ---------------------------------------------------------------------

  /** The PHT times of day the post-mortem tries: 09:00, 10:30, 13:00, 14:30 and 16:00. */
  const SampleTimes: seq<int> := [540, 630, 780, 870, 960]

  datatype Analysis =
    | NoVenues          // no venue exists at all
    | NothingChecked    // no sampled slot passed the time filters
    | NoConflicts       // every sampled slot passed the checker
    | Conflicts(groups: map<string, set<string>>)  // the reasons found, by category

  /** A sampled time outside the curfew whose slot does not spill into the night. */
  predicate TimeOk(e: Event, d: int, t: int) {
    !InCurfew(t) && !SpillsIntoNight(LocalToUtc(d, t), LocalToUtc(d, t) + Duration(e))
  }

  /** The checker's verdict on event `e` at venue `v` from PHT time `t` of date `d`. */
  function ReasonAt(e: Event, v: Venue, d: int, t: int, data: RunData): Option<string> {
    SlotReason(e, v.id, LocalToUtc(d, t), LocalToUtc(d, t) + Duration(e), data)
  }

  /** What sampling time `ts[k]` at venue `v` on date `d` yields: nothing when the time is filtered out. */
  function Outcomes(e: Event, v: Venue, d: int, ts: seq<int>, data: RunData): seq<Option<string>> {
    seq(|ts|, k requires 0 <= k < |ts| => if TimeOk(e, d, ts[k]) then ReasonAt(e, v, d, ts[k], data) else None)
  }

  /** The set the reasons of `os` are added to (`if reason: conflict_reasons.add(reason)`). */
  function Collected(os: seq<Option<string>>): set<string>
    decreases |os|
  {
    if os == [] then {}
    else
      var o := os[|os| - 1];
      Collected(os[..|os| - 1]) + (if o.Some? && o.value != "" then {o.value} else {})
  }

  lemma {:induction false} CollectedMembers(os: seq<Option<string>>, r: string)
    ensures r in Collected(os) <==> r != "" && Some(r) in os
    decreases |os|
  {
    if os != [] {
      var init := os[..|os| - 1];
      assert os == init + [os[|os| - 1]];
      CollectedMembers(init, r);
    }
  }

  /** Some time of `ts` passes the filters on date `d`. */
  predicate AnyTimeOk(e: Event, d: int, ts: seq<int>) {
    exists k :: 0 <= k < |ts| && TimeOk(e, d, ts[k])
  }

  /** The union of `sets`. */
  function Union(sets: seq<set<string>>): set<string>
    decreases |sets|
  {
    if sets == [] then {} else Union(sets[..|sets| - 1]) + sets[|sets| - 1]
  }

  lemma {:induction false} UnionMembers(sets: seq<set<string>>, r: string)
    ensures r in Union(sets) <==> exists j :: 0 <= j < |sets| && r in sets[j]
    decreases |sets|
  {
    if sets != [] {
      var init := sets[..|sets| - 1];
      UnionMembers(init, r);
      assert forall j :: 0 <= j < |init| ==> init[j] == sets[j];
    }
  }

  /** The reasons found at each of the venues `vs` on date `d`. */
  function PerVenue(e: Event, d: int, vs: seq<Venue>, data: RunData): seq<set<string>> {
    seq(|vs|, j requires 0 <= j < |vs| => Collected(Outcomes(e, vs[j], d, SampleTimes, data)))
  }

  /** The reasons found at the venues `vs` on date `d`. */
  function VenuesReasons(e: Event, d: int, vs: seq<Venue>, data: RunData): set<string> {
    Union(PerVenue(e, d, vs, data))
  }

  /** The reasons found on the non-Sunday dates of the week before `upTo`. */
  function WeekReasons(e: Event, upTo: int, data: RunData): set<string>
    decreases upTo - data.weekStart
  {
    if upTo <= data.weekStart then {}
    else
      WeekReasons(e, upTo - 1, data)
        + (if Weekday(upTo - 1) != Sunday then VenuesReasons(e, upTo - 1, data.venues, data) else {})
  }

  /** A non-Sunday date of the week before `upTo` has a sampled time passing the filters. */
  predicate AnyChecked(e: Event, upTo: int, data: RunData) {
    exists d :: data.weekStart <= d < upTo && Weekday(d) != Sunday && AnyTimeOk(e, d, SampleTimes)
  }

  /**
   * A reason is collected for the week exactly when it is non-empty and some
   * non-Sunday date of the week and some venue yield it at a sampled time.
   */
  lemma {:induction false} WeekReasonsMembers(e: Event, upTo: int, data: RunData, r: string)
    ensures r in WeekReasons(e, upTo, data)
            <==> exists d :: data.weekStart <= d < upTo && Weekday(d) != Sunday && r in VenuesReasons(e, d, data.venues, data)
    decreases upTo - data.weekStart
  {
    if upTo > data.weekStart {
      var last := upTo - 1;
      WeekReasonsMembers(e, last, data, r);
      if r in WeekReasons(e, upTo, data) && r !in WeekReasons(e, last, data) {
        assert Weekday(last) != Sunday && r in VenuesReasons(e, last, data.venues, data);
      }
      if exists d :: data.weekStart <= d < upTo && Weekday(d) != Sunday && r in VenuesReasons(e, d, data.venues, data) {
        var d :| data.weekStart <= d < upTo && Weekday(d) != Sunday && r in VenuesReasons(e, d, data.venues, data);
        if d == last {
          assert r in WeekReasons(e, upTo, data);
        }
      }
    }
  }

  /** A sampled outcome is the checker's reason at a time that passes the filters. */
  lemma OutcomeMeans(e: Event, v: Venue, d: int, data: RunData, r: string)
    ensures Some(r) in Outcomes(e, v, d, SampleTimes, data)
            <==> exists k :: 0 <= k < |SampleTimes| && TimeOk(e, d, SampleTimes[k])
                             && ReasonAt(e, v, d, SampleTimes[k], data) == Some(r)
  {
    var os := Outcomes(e, v, d, SampleTimes, data);
    if Some(r) in os {
      var k :| 0 <= k < |os| && os[k] == Some(r);
    }
    if exists k :: 0 <= k < |SampleTimes| && TimeOk(e, d, SampleTimes[k]) && ReasonAt(e, v, d, SampleTimes[k], data) == Some(r) {
      var k :| 0 <= k < |SampleTimes| && TimeOk(e, d, SampleTimes[k]) && ReasonAt(e, v, d, SampleTimes[k], data) == Some(r);
      assert os[k] == Some(r);
    }
  }

  /**
   * Reason `r` is found for event `e`: at some non-Sunday date of the week,
   * some venue and some sampled time that passes the filters, the checker
   * reports it.
   */
  ghost predicate Reported(e: Event, data: RunData, r: string) {
    r != "" && exists d, j, k :: data.weekStart <= d < data.weekEnd && Weekday(d) != Sunday
                                 && 0 <= j < |data.venues| && 0 <= k < |SampleTimes|
                                 && TimeOk(e, d, SampleTimes[k])
                                 && ReasonAt(e, data.venues[j], d, SampleTimes[k], data) == Some(r)
  }

  lemma WeekReasonsMeans(e: Event, data: RunData, r: string)
    ensures r in WeekReasons(e, data.weekEnd, data) <==> Reported(e, data, r)
  {
    if r in WeekReasons(e, data.weekEnd, data) {
      WeekReasonsSound(e, data, r);
    }
    if Reported(e, data, r) {
      WeekReasonsComplete(e, data, r);
    }
  }

  /** A collected reason was met at some date, venue and sampled time. */
  lemma WeekReasonsSound(e: Event, data: RunData, r: string)
    requires r in WeekReasons(e, data.weekEnd, data)
    ensures Reported(e, data, r)
  {
    WeekReasonsMembers(e, data.weekEnd, data, r);
    var d :| data.weekStart <= d < data.weekEnd && Weekday(d) != Sunday && r in VenuesReasons(e, d, data.venues, data);
    var per := PerVenue(e, d, data.venues, data);
    UnionMembers(per, r);
    var j :| 0 <= j < |per| && r in per[j];
    CollectedMembers(Outcomes(e, data.venues[j], d, SampleTimes, data), r);
    OutcomeMeans(e, data.venues[j], d, data, r);
  }

  /** A reason met at some date, venue and sampled time is collected. */
  lemma WeekReasonsComplete(e: Event, data: RunData, r: string)
    requires Reported(e, data, r)
    ensures r in WeekReasons(e, data.weekEnd, data)
  {
    WeekReasonsMembers(e, data.weekEnd, data, r);
    var d, j, k :| data.weekStart <= d < data.weekEnd && Weekday(d) != Sunday
                   && 0 <= j < |data.venues| && 0 <= k < |SampleTimes|
                   && TimeOk(e, d, SampleTimes[k])
                   && ReasonAt(e, data.venues[j], d, SampleTimes[k], data) == Some(r);
    OutcomeMeans(e, data.venues[j], d, data, r);
    CollectedMembers(Outcomes(e, data.venues[j], d, SampleTimes, data), r);
    var per := PerVenue(e, d, data.venues, data);
    assert r in per[j];
    UnionMembers(per, r);
  }

  /** The categories of a set of reasons. */
  function Categories(reasons: set<string>): set<string> {
    set r | r in reasons :: Category(r)
  }

  /** The reasons grouped by category. */
  function Grouped(reasons: set<string>): (g: map<string, set<string>>)
    ensures g.Keys == Categories(reasons)
    ensures forall k :: k in g ==> forall r :: r in g[k] <==> r in reasons && Category(r) == k
  {
    map k | k in Categories(reasons) :: set r | r in reasons && Category(r) == k
  }

  /** The verdict on one event, over every date, venue and sampled time of the week. */
  function Diagnosis(e: Event, data: RunData): Analysis {
    if !(data.venues != [] && AnyChecked(e, data.weekEnd, data)) then NothingChecked
    else if WeekReasons(e, data.weekEnd, data) == {} then NoConflicts
    else Conflicts(Grouped(WeekReasons(e, data.weekEnd, data)))
  }

  /**
   * The verdict on one event: conflicts list exactly the reported reasons,
   * each under its category, and "no conflicts" means none was reported.
   */
  lemma DiagnosisMeans(e: Event, data: RunData)
    ensures Diagnosis(e, data) == NothingChecked <==> data.venues == [] || !AnyChecked(e, data.weekEnd, data)
    ensures Diagnosis(e, data) == NoConflicts ==> forall r :: !Reported(e, data, r)
    ensures Diagnosis(e, data).Conflicts? ==>
              forall r :: Reported(e, data, r) <==> Category(r) in Diagnosis(e, data).groups
                                                     && r in Diagnosis(e, data).groups[Category(r)]
  {
    forall r
      ensures r in WeekReasons(e, data.weekEnd, data) <==> Reported(e, data, r)
    {
      WeekReasonsMeans(e, data, r);
    }
  }

  /** The analysis for the unscheduled ids `ids`. */
  function PostMortemOf(ids: seq<string>, data: RunData): map<string, Analysis> {
    if ids == [] then map[]
    else if data.venues == [] then map id | id in ids :: NoVenues
    else map id | id in ids && FindEvent(data.pending, id).Some? :: Diagnosis(FindEvent(data.pending, id).value, data)
  }

  /** Lines 445-458: the curfew and night-spill filters, then the checker. */
  method SampleAt(e: Event, v: Venue, d: int, t: int, data: RunData) returns (ok: bool, reason: Option<string>)
    ensures ok == TimeOk(e, d, t)
    ensures reason == if ok then ReasonAt(e, v, d, t, data) else None
  {
    if InCurfew(t) {
      return false, None;
    }
    var start := LocalToUtc(d, t);
    var end := start + Duration(e);
    if SpillsIntoNight(start, end) {
      return false, None;
    }
    reason := CheckSlot(e, v.id, start, end, data);
    ok := true;
  }

  /** Lines 444-458 for one venue and date: the five sampled times. */
  method SampleVenue(e: Event, v: Venue, d: int, data: RunData) returns (checked: nat, reasons: set<string>)
    ensures checked > 0 <==> AnyTimeOk(e, d, SampleTimes)
    ensures reasons == Collected(Outcomes(e, v, d, SampleTimes, data))
  {
    checked := 0;
    reasons := {};
    ghost var os := Outcomes(e, v, d, SampleTimes, data);
    var k := 0;
    while k < |SampleTimes|
      invariant 0 <= k <= |SampleTimes|
      invariant checked > 0 <==> exists j :: 0 <= j < k && TimeOk(e, d, SampleTimes[j])
      invariant reasons == Collected(os[..k])
    {
      assert os[..k + 1][..k] == os[..k];
      var ok, reason := SampleAt(e, v, d, SampleTimes[k], data);
      assert reason == os[k];
      assert Collected(os[..k + 1]) == Collected(os[..k]) + (if reason.Some? && reason.value != "" then {reason.value} else {});
      if ok {
        checked := checked + 1;
      }
      if reason.Some? && reason.value != "" {
        reasons := reasons + {reason.value};
      }
      k := k + 1;
    }
    assert os[..k] == os;
  }

  /** Lines 442-458 for one date: every venue in turn. */
  method SampleDay(e: Event, d: int, data: RunData) returns (checked: nat, reasons: set<string>)
    ensures checked > 0 <==> data.venues != [] && AnyTimeOk(e, d, SampleTimes)
    ensures reasons == VenuesReasons(e, d, data.venues, data)
  {
    checked := 0;
    reasons := {};
    ghost var per := PerVenue(e, d, data.venues, data);
    var k := 0;
    while k < |data.venues|
      invariant 0 <= k <= |data.venues|
      invariant checked > 0 <==> k > 0 && AnyTimeOk(e, d, SampleTimes)
      invariant reasons == Union(per[..k])
    {
      var n, found := SampleVenue(e, data.venues[k], d, data);
      assert per[..k + 1][..k] == per[..k];
      assert found == per[k];
      assert Union(per[..k + 1]) == Union(per[..k]) + found;
      checked := checked + n;
      reasons := reasons + found;
      k := k + 1;
    }
    assert per[..k] == per;
  }

  /** Sampling one more date of the week. */
  lemma WeekStep(e: Event, d: int, data: RunData)
    requires data.weekStart <= d
    ensures WeekReasons(e, d + 1, data)
            == WeekReasons(e, d, data) + (if Weekday(d) != Sunday then VenuesReasons(e, d, data.venues, data) else {})
    ensures AnyChecked(e, d + 1, data) <==> AnyChecked(e, d, data) || (Weekday(d) != Sunday && AnyTimeOk(e, d, SampleTimes))
  {
    if AnyChecked(e, d + 1, data) && !AnyChecked(e, d, data) {
      var x :| data.weekStart <= x < d + 1 && Weekday(x) != Sunday && AnyTimeOk(e, x, SampleTimes);
      assert x == d;
    }
  }

  /** Lines 426-476 for one event: every non-Sunday date of the week, then the verdict. */
  method DiagnoseEvent(e: Event, data: RunData) returns (a: Analysis)
    requires data.venues != []
    ensures a == Diagnosis(e, data)
  {
    var checked: nat := 0;
    var reasons: set<string> := {};
    var d := data.weekStart;
    while d < data.weekEnd
      invariant data.weekStart <= d
      invariant d == data.weekStart || d <= data.weekEnd
      invariant checked > 0 <==> AnyChecked(e, d, data)
      invariant reasons == WeekReasons(e, d, data)
      decreases data.weekEnd - d
    {
      WeekStep(e, d, data);
      if Weekday(d) != Sunday {
        var n, found := SampleDay(e, d, data);
        checked := checked + n;
        reasons := reasons + found;
      }
      d := d + 1;
    }
    if data.weekStart > data.weekEnd {
      assert WeekReasons(e, data.weekEnd, data) == {} == WeekReasons(e, d, data);
      assert !AnyChecked(e, data.weekEnd, data);
    }
    if checked == 0 {
      return NothingChecked;
    }
    if reasons == {} {
      return NoConflicts;
    }
    var groups := GroupReasons(reasons);
    return Conflicts(groups);
  }

  /** Lines 466-469: each reason added to the set of its category. */
  method GroupReasons(reasons: set<string>) returns (groups: map<string, set<string>>)
    ensures groups == Grouped(reasons)
  {
    groups := map[];
    var rest := reasons;
    ghost var done: set<string> := {};
    while rest != {}
      invariant rest !! done && rest + done == reasons
      invariant forall k :: k in groups <==> exists r :: r in done && Category(r) == k
      invariant forall k :: k in groups ==> forall r :: r in groups[k] <==> r in done && Category(r) == k
      decreases rest
    {
      var r :| r in rest;
      var k := Category(r);
      groups := groups[k := (if k in groups then groups[k] else {}) + {r}];
      rest := rest - {r};
      done := done + {r};
    }
    var g := Grouped(reasons);
    assert groups.Keys == g.Keys;
    assert forall k :: k in groups ==> groups[k] == g[k];
  }

  /** Lines 415-417: without venues, every id gets the same note. */
  method NoVenuesFor(ids: seq<string>) returns (analysis: map<string, Analysis>)
    ensures analysis.Keys == set id | id in ids
    ensures forall id :: id in analysis ==> analysis[id] == NoVenues
  {
    analysis := map[];
    var i := 0;
    while i < |ids|
      invariant 0 <= i <= |ids|
      invariant analysis.Keys == set id | id in ids[..i]
      invariant forall id :: id in analysis ==> analysis[id] == NoVenues
    {
      assert ids[..i + 1] == ids[..i] + [ids[i]];
      analysis := analysis[ids[i] := NoVenues];
      i := i + 1;
    }
    assert ids[..i] == ids;
  }

  /** Lines 425-477: a diagnosis for every id that names a pending event. */
  method DiagnoseAll(ids: seq<string>, data: RunData) returns (analysis: map<string, Analysis>)
    requires data.venues != []
    ensures analysis.Keys == set id | id in ids && FindEvent(data.pending, id).Some?
    ensures forall id :: id in analysis ==> analysis[id] == Diagnosis(FindEvent(data.pending, id).value, data)
  {
    analysis := map[];
    var i := 0;
    while i < |ids|
      invariant 0 <= i <= |ids|
      invariant analysis.Keys == set id | id in ids[..i] && FindEvent(data.pending, id).Some?
      invariant forall id :: id in analysis ==> FindEvent(data.pending, id).Some?
                                                && analysis[id] == Diagnosis(FindEvent(data.pending, id).value, data)
    {
      assert ids[..i + 1] == ids[..i] + [ids[i]];
      var event := FindEvent(data.pending, ids[i]);
      if event.Some? {
        var a := DiagnoseEvent(event.value, data);
        analysis := analysis[ids[i] := a];
      }
      i := i + 1;
    }
    assert ids[..i] == ids;
  }

  /** `_run_post_mortem_analysis`: one analysis per unscheduled id (per pending one, when venues exist). */
  method PostMortem(ids: seq<string>, data: RunData) returns (analysis: map<string, Analysis>)
    ensures analysis == PostMortemOf(ids, data)
  {
    if ids == [] {
      return map[];
    }
    if data.venues == [] {
      analysis := NoVenuesFor(ids);
    } else {
      analysis := DiagnoseAll(ids, data);
    }
    assert analysis.Keys == PostMortemOf(ids, data).Keys;
  }
}
