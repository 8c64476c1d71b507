/**
 * `calculate_fitness`: scores a chromosome against the week's constraints.
 *
 * Every assigned gene is judged in a fixed order: an unknown event, a general
 * unavailable slot, (on non-hectic weeks) a missing venue or a venue-type
 * blockage, another booking of the same venue, and the equipment all
 * concurrent events need against the inventory. The first failing check
 * costs one violation; a gene that passes them all earns a soft score. The
 * result is (soft score - violations * hard penalty, violations).
 *
 * The evaluator as written stops at the first venue-type blockage it meets
 * (`CalculateFitnessAsWritten`); `CalculateFitness` counts that violation and
 * goes on with the next gene, and is the one the rest of the model uses.
 */
module Fitness {
  import opened Wrappers
  import opened Clock
  import opened DateParsing
  import opened WeekConstraints
  import opened Inputs
  import opened Genome

  // ---------------------------------------------------------------------
  // Who occupies which venue (`active_slots_by_venue`)
  // ---------------------------------------------------------------------

  /** A gene of the chromosome, or an existing schedule (tagged `existing_<id>`). */
  datatype Occupant = Candidate(id: string) | Booked(id: string)
  datatype Occupancy = Occupancy(start: int, end: int, who: Occupant)
  datatype Placement = Placement(venue: string, occupancy: Occupancy)

  function GenePlacement(g: Gene): seq<Placement> {
    match g.slot
    case None => []
    case Some(s) => [Placement(s.venue, Occupancy(s.start, s.end, Candidate(g.event)))]
  }

  function BookingPlacement(b: Booking): Placement {
    Placement(b.venue, Occupancy(b.start, b.end, Booked(b.event)))
  }

  /** The assigned genes, in chromosome order. */
  function GenePlacements(c: Chromosome): seq<Placement>
    decreases |c|
  {
    if c == [] then [] else GenePlacements(c[..|c| - 1]) + GenePlacement(c[|c| - 1])
  }

  function BookingPlacements(bs: seq<Booking>): seq<Placement>
    decreases |bs|
  {
    if bs == [] then [] else BookingPlacements(bs[..|bs| - 1]) + [BookingPlacement(bs[|bs| - 1])]
  }

  /** Everything that occupies a venue: the chromosome's genes, then the existing schedules. */
  function Placements(c: Chromosome, existing: seq<Booking>): seq<Placement> {
    GenePlacements(c) + BookingPlacements(existing)
  }

  /** The occupancies of venue `v`, in the order they were added. */
  function AtVenue(ps: seq<Placement>, v: string): seq<Occupancy>
    decreases |ps|
  {
    if ps == [] then []
    else AtVenue(ps[..|ps| - 1], v) + (if ps[|ps| - 1].venue == v then [ps[|ps| - 1].occupancy] else [])
  }

  function VenuesOf(ps: seq<Placement>): set<string> {
    set p | p in ps :: p.venue
  }

  /** The dict `active_slots_by_venue` that the placements build. */
  function ActiveMap(ps: seq<Placement>): map<string, seq<Occupancy>> {
    map v | v in VenuesOf(ps) :: AtVenue(ps, v)
  }

  lemma {:induction false} AtVenueMembers(ps: seq<Placement>, v: string, o: Occupancy)
    ensures o in AtVenue(ps, v) <==> Placement(v, o) in ps
    decreases |ps|
  {
    if ps != [] {
      var init := ps[..|ps| - 1];
      AtVenueMembers(init, v, o);
      assert ps == init + [ps[|ps| - 1]];
    }
  }

  /** The map lists exactly the placements, each under its own venue. */
  lemma ActiveMembers(ps: seq<Placement>, v: string, o: Occupancy)
    ensures (v in ActiveMap(ps) && o in ActiveMap(ps)[v]) <==> Placement(v, o) in ps
  {
    AtVenueMembers(ps, v, o);
    if Placement(v, o) in ps {
      assert v in VenuesOf(ps);
    }
  }

  lemma AtVenueAbsent(ps: seq<Placement>, v: string)
    requires v !in VenuesOf(ps)
    ensures AtVenue(ps, v) == []
  {
    if AtVenue(ps, v) != [] {
      var o := AtVenue(ps, v)[0];
      AtVenueMembers(ps, v, o);
      assert false;
    }
  }

  /** `setdefault(venue, []).append(occupancy)` on the map built so far. */
  lemma ActiveStep(ps: seq<Placement>, p: Placement)
    ensures ActiveMap(ps + [p])
            == ActiveMap(ps)[p.venue := (if p.venue in ActiveMap(ps) then ActiveMap(ps)[p.venue] else []) + [p.occupancy]]
  {
    var qs := ps + [p];
    assert qs[..|qs| - 1] == ps;
    assert VenuesOf(qs) == VenuesOf(ps) + {p.venue};
    if p.venue !in VenuesOf(ps) {
      AtVenueAbsent(ps, p.venue);
    }
    forall v | v in VenuesOf(ps) && v != p.venue
      ensures AtVenue(qs, v) == AtVenue(ps, v)
    {
    }
  }

  /** Lines 495-503: groups the genes' slots, then the existing schedules, by venue. */
  method BuildActive(c: Chromosome, existing: seq<Booking>) returns (active: map<string, seq<Occupancy>>)
    ensures active == ActiveMap(Placements(c, existing))
  {
    active := AddGenes(c);
    active := AddBookings(active, GenePlacements(c), existing);
  }

  /** Lines 495-499: the genes' slots, grouped by venue. */
  method AddGenes(c: Chromosome) returns (active: map<string, seq<Occupancy>>)
    ensures active == ActiveMap(GenePlacements(c))
  {
    active := map[];
    ghost var ps: seq<Placement> := [];
    var i := 0;
    while i < |c|
      invariant 0 <= i <= |c|
      invariant ps == GenePlacements(c[..i])
      invariant active == ActiveMap(ps)
    {
      var g := c[i];
      assert c[..i + 1][..i] == c[..i];
      if g.slot.Some? {
        var s := g.slot.value;
        var p := Placement(s.venue, Occupancy(s.start, s.end, Candidate(g.event)));
        ActiveStep(ps, p);
        active := active[s.venue := (if s.venue in active then active[s.venue] else []) + [p.occupancy]];
        ps := ps + [p];
      }
      i := i + 1;
    }
    assert c[..i] == c;
  }

  /** Lines 500-503: the existing schedules added to the groups of `ps`. */
  method AddBookings(start: map<string, seq<Occupancy>>, ghost ps: seq<Placement>, existing: seq<Booking>)
    returns (active: map<string, seq<Occupancy>>)
    requires start == ActiveMap(ps)
    ensures active == ActiveMap(ps + BookingPlacements(existing))
  {
    active := start;
    ghost var qs := ps;
    var j := 0;
    while j < |existing|
      invariant 0 <= j <= |existing|
      invariant qs == ps + BookingPlacements(existing[..j])
      invariant active == ActiveMap(qs)
    {
      var b := existing[j];
      assert existing[..j + 1][..j] == existing[..j];
      var p := BookingPlacement(b);
      ActiveStep(qs, p);
      active := active[b.venue := (if b.venue in active then active[b.venue] else []) + [p.occupancy]];
      qs := qs + [p];
      j := j + 1;
    }
    assert existing[..j] == existing;
  }

  // ---------------------------------------------------------------------
  // The first general slot, and the first blockage rule, a slot runs into
  // ---------------------------------------------------------------------

  /** The first general unavailable slot overlapping [start, end). */
  function FirstOverlapping(general: seq<Blocked>, start: int, end: int): (r: Option<Blocked>)
    ensures r.None? <==> forall k :: 0 <= k < |general| ==> !Overlap(start, end, general[k].start, general[k].end)
    ensures r.Some? ==> exists k :: 0 <= k < |general| && general[k] == r.value
                                    && Overlap(start, end, general[k].start, general[k].end)
                                    && forall j :: 0 <= j < k ==> !Overlap(start, end, general[j].start, general[j].end)
  {
    if general == [] then None
    else if Overlap(start, end, general[0].start, general[0].end) then Some(general[0])
    else
      var r := FirstOverlapping(general[1..], start, end);
      if r.Some? then
        var k :| 0 <= k < |general[1..]| && general[1..][k] == r.value
                 && Overlap(start, end, general[1..][k].start, general[1..][k].end)
                 && forall j :: 0 <= j < k ==> !Overlap(start, end, general[1..][j].start, general[1..][j].end);
        assert general[k + 1] == r.value;
        r
      else r
  }

  /** The first applicable blockage rule overlapping [start, end). */
  function FirstRuleHit(rules: seq<TimeRange>, start: int, end: int): (r: Option<TimeRange>)
    ensures r.None? <==> forall k :: 0 <= k < |rules| ==> !RuleHits(rules[k], start, end)
    ensures r.Some? ==> exists k :: 0 <= k < |rules| && rules[k] == r.value && RuleHits(rules[k], start, end)
                                    && forall j :: 0 <= j < k ==> !RuleHits(rules[j], start, end)
  {
    if rules == [] then None
    else if RuleHits(rules[0], start, end) then Some(rules[0])
    else
      var r := FirstRuleHit(rules[1..], start, end);
      if r.Some? then
        var k :| 0 <= k < |rules[1..]| && rules[1..][k] == r.value && RuleHits(rules[1..][k], start, end)
                 && forall j :: 0 <= j < k ==> !RuleHits(rules[1..][j], start, end);
        assert rules[k + 1] == r.value;
        r
      else r
  }

  /** The scan of the general unavailable slots, stopping at the first overlap. */
  method ScanGeneral(general: seq<Blocked>, start: int, end: int) returns (hit: Option<Blocked>)
    ensures hit == FirstOverlapping(general, start, end)
  {
    var k := 0;
    while k < |general|
      invariant 0 <= k <= |general|
      invariant FirstOverlapping(general, start, end) == FirstOverlapping(general[k..], start, end)
    {
      if Overlap(start, end, general[k].start, general[k].end) {
        return Some(general[k]);
      }
      assert general[k..][1..] == general[k + 1..];
      k := k + 1;
    }
    return None;
  }

  /** The scan of a venue type's blockage rules, stopping at the first one hit. */
  method ScanRules(rules: seq<TimeRange>, start: int, end: int) returns (hit: Option<TimeRange>)
    ensures hit == FirstRuleHit(rules, start, end)
  {
    var k := 0;
    while k < |rules|
      invariant 0 <= k <= |rules|
      invariant FirstRuleHit(rules, start, end) == FirstRuleHit(rules[k..], start, end)
    {
      if RuleHits(rules[k], start, end) {
        return Some(rules[k]);
      }
      assert rules[k..][1..] == rules[k + 1..];
      k := k + 1;
    }
    return None;
  }

  // ---------------------------------------------------------------------
  // Same-venue conflicts and concurrent equipment demand
  // ---------------------------------------------------------------------

  /** An occupancy other than gene `id` itself that overlaps the slot. */
  predicate Concurrently(o: Occupancy, id: string, s: Slot) {
    o.who != Candidate(id) && Overlap(s.start, s.end, o.start, o.end)
  }

  /** Someone else holds the slot's venue during the slot. */
  ghost predicate VenueTaken(ps: seq<Placement>, id: string, s: Slot) {
    exists o :: Placement(s.venue, o) in ps && Concurrently(o, id, s)
  }

  /** Lines 540-545: the scan of the slot's venue for another overlapping occupancy. */
  method SameVenueClash(active: map<string, seq<Occupancy>>, ghost ps: seq<Placement>, id: string, s: Slot)
    returns (hit: bool)
    requires active == ActiveMap(ps)
    ensures hit <==> VenueTaken(ps, id, s)
  {
    if s.venue in active {
      var list := active[s.venue];
      var j := 0;
      while j < |list|
        invariant 0 <= j <= |list|
        invariant forall k :: 0 <= k < j ==> !Concurrently(list[k], id, s)
      {
        if Concurrently(list[j], id, s) {
          ActiveMembers(ps, s.venue, list[j]);
          return true;
        }
        j := j + 1;
      }
    }
    forall o | Placement(s.venue, o) in ps
      ensures !Concurrently(o, id, s)
    {
      ActiveMembers(ps, s.venue, o);
    }
    return false;
  }

  /** Event ids of the occupancies, at the venues `vs`, that run concurrently with the slot. */
  ghost function ConcurrentAt(ps: seq<Placement>, vs: set<string>, id: string, s: Slot): set<string> {
    set p | p in ps && p.venue in vs && Concurrently(p.occupancy, id, s) :: p.occupancy.who.id
  }

  /** The gene's own id and those of all events that overlap it anywhere. */
  ghost function Concurrent(ps: seq<Placement>, id: string, s: Slot): set<string> {
    {id} + ConcurrentAt(ps, VenuesOf(ps), id, s)
  }

  function ConcurrentIn(list: seq<Occupancy>, id: string, s: Slot): set<string> {
    set o | o in list && Concurrently(o, id, s) :: o.who.id
  }

  lemma ConcurrentInStep(list: seq<Occupancy>, j: int, id: string, s: Slot)
    requires 0 <= j < |list|
    ensures ConcurrentIn(list[..j + 1], id, s)
            == ConcurrentIn(list[..j], id, s) + (if Concurrently(list[j], id, s) then {list[j].who.id} else {})
  {
    assert list[..j + 1] == list[..j] + [list[j]];
  }

  lemma ConcurrentAtStep(ps: seq<Placement>, vs: set<string>, v: string, id: string, s: Slot)
    ensures ConcurrentAt(ps, vs + {v}, id, s) == ConcurrentAt(ps, vs, id, s) + ConcurrentIn(AtVenue(ps, v), id, s)
  {
    forall x | x in ConcurrentIn(AtVenue(ps, v), id, s)
      ensures x in ConcurrentAt(ps, vs + {v}, id, s)
    {
      var o :| o in AtVenue(ps, v) && Concurrently(o, id, s) && o.who.id == x;
      AtVenueMembers(ps, v, o);
      assert Placement(v, o) in ps;
    }
    forall x | x in ConcurrentAt(ps, vs + {v}, id, s)
      ensures x in ConcurrentAt(ps, vs, id, s) + ConcurrentIn(AtVenue(ps, v), id, s)
    {
      var p :| p in ps && p.venue in vs + {v} && Concurrently(p.occupancy, id, s) && p.occupancy.who.id == x;
      if p.venue !in vs {
        AtVenueMembers(ps, v, p.occupancy);
        assert p == Placement(v, p.occupancy);
      }
    }
  }

  /** Lines 548-552: collects the ids concurrent with the slot across all venues. */
  method ConcurrentIds(active: map<string, seq<Occupancy>>, ghost ps: seq<Placement>, id: string, s: Slot)
    returns (ids: set<string>)
    requires active == ActiveMap(ps)
    ensures ids == Concurrent(ps, id, s)
  {
    ids := {id};
    var rest := active.Keys;
    ghost var done: set<string> := {};
    while rest != {}
      invariant rest !! done && rest + done == VenuesOf(ps)
      invariant ids == {id} + ConcurrentAt(ps, done, id, s)
      decreases rest
    {
      var v :| v in rest;
      var list := active[v];
      ghost var before := ids;
      var j := 0;
      while j < |list|
        invariant 0 <= j <= |list|
        invariant ids == before + ConcurrentIn(list[..j], id, s)
      {
        ConcurrentInStep(list, j, id, s);
        if Concurrently(list[j], id, s) {
          ids := ids + {list[j].who.id};
        }
        j := j + 1;
      }
      assert list[..j] == list;
      ConcurrentAtStep(ps, done, v, id, s);
      rest := rest - {v};
      done := done + {v};
    }
  }

  /** Units of equipment `name` asked for by `reqs`, ids resolved through `names`. */
  function Demand(reqs: seq<EquipmentRequest>, names: map<string, string>, name: string): int
    decreases |reqs|
  {
    if reqs == [] then 0
    else
      var r := reqs[|reqs| - 1];
      Demand(reqs[..|reqs| - 1], names, name) + (if r.equipment in names && names[r.equipment] == name then Quantity(r) else 0)
  }

  /** The (non-empty) equipment names that `reqs` resolve to. */
  function NamesIn(reqs: seq<EquipmentRequest>, names: map<string, string>): set<string> {
    set r | r in reqs && r.equipment in names && names[r.equipment] != "" :: names[r.equipment]
  }

  lemma {:induction false} DemandAbsent(reqs: seq<EquipmentRequest>, names: map<string, string>, name: string)
    requires name != "" && name !in NamesIn(reqs, names)
    ensures Demand(reqs, names, name) == 0
    decreases |reqs|
  {
    if reqs != [] {
      var init := reqs[..|reqs| - 1];
      assert reqs == init + [reqs[|reqs| - 1]];
      assert NamesIn(init, names) <= NamesIn(reqs, names);
      DemandAbsent(init, names, name);
    }
  }

  ghost function Pick(ids: set<string>): string
    requires ids != {}
  {
    var x :| x in ids; x
  }

  /** Units of `name` needed by the events `ids` together. */
  ghost function Needed(ids: set<string>, data: RunData, name: string): int
    decreases ids
  {
    if ids == {} then 0
    else
      var x := Pick(ids);
      Demand(RequestsOf(data, x), data.equipmentNames, name) + Needed(ids - {x}, data, name)
  }

  ghost function NeededNames(ids: set<string>, data: RunData): set<string> {
    set x, n | x in ids && n in NamesIn(RequestsOf(data, x), data.equipmentNames) :: n
  }

  /** The sum over a set does not depend on which member is taken first. */
  lemma NeededRemove(ids: set<string>, y: string, data: RunData, name: string)
    requires y in ids
    ensures Needed(ids, data, name) == Demand(RequestsOf(data, y), data.equipmentNames, name) + Needed(ids - {y}, data, name)
    decreases ids
  {
    var x := Pick(ids);
    if x != y {
      NeededRemove(ids - {x}, y, data, name);
      NeededRemove(ids - {y}, x, data, name);
      assert ids - {x} - {y} == ids - {y} - {x};
    }
  }

  lemma NeededAbsent(ids: set<string>, data: RunData, name: string)
    requires name != "" && name !in NeededNames(ids, data)
    ensures Needed(ids, data, name) == 0
    decreases ids
  {
    if ids != {} {
      var x := Pick(ids);
      assert name !in NamesIn(RequestsOf(data, x), data.equipmentNames);
      DemandAbsent(RequestsOf(data, x), data.equipmentNames, name);
      assert NeededNames(ids - {x}, data) <= NeededNames(ids, data);
      NeededAbsent(ids - {x}, data, name);
    }
  }

  /** Some equipment the events `ids` need together exceeds the inventory. */
  ghost predicate Short(ids: set<string>, data: RunData) {
    exists n :: n in NeededNames(ids, data) && Needed(ids, data, n) > Stock(data, n)
  }

  lemma DemandStep(reqs: seq<EquipmentRequest>, j: int, names: map<string, string>)
    requires 0 <= j < |reqs|
    ensures forall n :: Demand(reqs[..j + 1], names, n)
                        == Demand(reqs[..j], names, n)
                           + (if reqs[j].equipment in names && names[reqs[j].equipment] == n then Quantity(reqs[j]) else 0)
    ensures NamesIn(reqs[..j + 1], names)
            == NamesIn(reqs[..j], names)
               + (if reqs[j].equipment in names && names[reqs[j].equipment] != "" then {names[reqs[j].equipment]} else {})
  {
    assert reqs[..j + 1][..j] == reqs[..j];
    assert reqs[..j + 1] == reqs[..j] + [reqs[j]];
  }

  /** Lines 555-558 for one event: adds its requests, per equipment name, to the running totals. */
  method AddDemand(needed: map<string, int>, reqs: seq<EquipmentRequest>, names: map<string, string>)
    returns (total: map<string, int>)
    requires "" !in needed
    ensures total.Keys == needed.Keys + NamesIn(reqs, names)
    ensures forall n :: n in total ==> total[n] == (if n in needed then needed[n] else 0) + Demand(reqs, names, n)
  {
    total := needed;
    var j := 0;
    while j < |reqs|
      invariant 0 <= j <= |reqs|
      invariant DemandSoFar(needed, total, reqs[..j], names)
    {
      var r := reqs[j];
      var total' := total;
      if r.equipment in names && names[r.equipment] != "" {
        var n := names[r.equipment];
        total' := total[n := (if n in total then total[n] else 0) + Quantity(r)];
      }
      AddDemandStep(needed, total, total', reqs, j, names);
      total := total';
      j := j + 1;
    }
    assert reqs[..j] == reqs;
  }

  /** The running totals hold `needed` plus the demand of `reqs`, under non-empty names. */
  ghost predicate DemandSoFar(needed: map<string, int>, total: map<string, int>, reqs: seq<EquipmentRequest>, names: map<string, string>) {
    && total.Keys == needed.Keys + NamesIn(reqs, names)
    && "" !in total
    && forall n :: n in total ==> total[n] == (if n in needed then needed[n] else 0) + Demand(reqs, names, n)
  }

  lemma AddDemandStep(needed: map<string, int>, total: map<string, int>, total': map<string, int>,
                      reqs: seq<EquipmentRequest>, j: int, names: map<string, string>)
    requires 0 <= j < |reqs| && DemandSoFar(needed, total, reqs[..j], names)
    requires var r := reqs[j];
             total' == if r.equipment in names && names[r.equipment] != "" then
                         var n := names[r.equipment];
                         total[n := (if n in total then total[n] else 0) + Quantity(r)]
                       else total
    ensures DemandSoFar(needed, total', reqs[..j + 1], names)
  {
    var r := reqs[j];
    DemandStep(reqs, j, names);
    if r.equipment in names && names[r.equipment] != "" {
      var n := names[r.equipment];
      if n !in total {
        DemandAbsent(reqs[..j], names, n);
      }
    }
    assert DemandSoFar(needed, total', reqs[..j + 1], names);
  }

  /** Adding one more event's requests to the totals of the events `done`. */
  lemma NeededStep(done: set<string>, x: string, data: RunData, needed: map<string, int>, total: map<string, int>)
    requires x !in done
    requires needed.Keys == NeededNames(done, data)
    requires forall n :: n in needed ==> needed[n] == Needed(done, data, n)
    requires total.Keys == needed.Keys + NamesIn(RequestsOf(data, x), data.equipmentNames)
    requires forall n :: n in total ==> total[n] == (if n in needed then needed[n] else 0)
                                                   + Demand(RequestsOf(data, x), data.equipmentNames, n)
    ensures total.Keys == NeededNames(done + {x}, data)
    ensures forall n :: n in total ==> total[n] == Needed(done + {x}, data, n)
  {
    assert NeededNames(done + {x}, data) == NeededNames(done, data) + NamesIn(RequestsOf(data, x), data.equipmentNames);
    forall n | n in total
      ensures total[n] == Needed(done + {x}, data, n)
    {
      NeededRemove(done + {x}, x, data, n);
      assert done + {x} - {x} == done;
      if n !in needed {
        assert n != "";
        NeededAbsent(done, data, n);
      }
    }
  }

  /** Lines 554-563: totals the concurrent requests per equipment name and compares them with the stock. */
  method EquipmentShortage(ids: set<string>, data: RunData) returns (short: bool)
    ensures short <==> Short(ids, data)
  {
    var needed: map<string, int> := map[];
    var rest := ids;
    ghost var done: set<string> := {};
    while rest != {}
      invariant rest !! done && rest + done == ids
      invariant needed.Keys == NeededNames(done, data)
      invariant forall n :: n in needed ==> needed[n] == Needed(done, data, n)
      decreases rest
    {
      var x :| x in rest;
      assert "" !in NeededNames(done, data);
      var total := AddDemand(needed, RequestsOf(data, x), data.equipmentNames);
      NeededStep(done, x, data, needed, total);
      needed := total;
      rest := rest - {x};
      done := done + {x};
    }
    var names := needed.Keys;
    while names != {}
      invariant names <= needed.Keys
      invariant forall n :: n in needed.Keys - names ==> needed[n] <= Stock(data, n)
      decreases names
    {
      var n :| n in names;
      if needed[n] > Stock(data, n) {
        return true;
      }
      names := names - {n};
    }
    return false;
  }

  // ---------------------------------------------------------------------
  // Soft score
  // ---------------------------------------------------------------------

  /** Full weight for the requested venue, 0.8 of it for a preferred one. */
  ghost function VenueScore(e: Event, s: Slot, prefs: seq<Preference>, w: Weights): real {
    if s.venue == e.requestedVenue then w.venueMatch
    else if exists k :: 0 <= k < |prefs| && prefs[k].venue == s.venue then w.venueMatch * 0.8
    else 0.0
  }

  /** What one preference is worth for the slot, before the 0.8 factor. */
  function PreferenceScore(p: Preference, s: Slot, w: Weights): real {
    if p.date.Some? && LocalDate(p.date.value) == LocalDate(s.start) then
      w.dateMatch * 0.5
      + (if p.slotStart.Some? && p.slotEnd.Some? && Overlap(s.start, s.end, p.slotStart.value, p.slotEnd.value)
         then w.timeslotMatch * 0.5 else 0.0)
    else 0.0
  }

  function Max(a: real, b: real): real {
    if a >= b then a else b
  }

  /** The best of 0 and 0.8 times each preference's score. */
  function BestPreference(prefs: seq<Preference>, s: Slot, w: Weights): (r: real)
    ensures r >= 0.0
    ensures forall k :: 0 <= k < |prefs| ==> r >= PreferenceScore(prefs[k], s, w) * 0.8
    ensures r == 0.0 || exists k :: 0 <= k < |prefs| && r == PreferenceScore(prefs[k], s, w) * 0.8
    decreases |prefs|
  {
    if prefs == [] then 0.0
    else
      var init := prefs[..|prefs| - 1];
      var best := BestPreference(init, s, w);
      var r := Max(best, PreferenceScore(prefs[|prefs| - 1], s, w) * 0.8);
      assert forall k :: 0 <= k < |init| ==> prefs[k] == init[k];
      r
  }

  /** Half the date weight for the requested date, plus half the timeslot weight on an overlap; else the best preference. */
  function DateTimeScore(e: Event, s: Slot, prefs: seq<Preference>, w: Weights): real {
    if LocalDate(e.requestedDate) == LocalDate(s.start) then
      w.dateMatch * 0.5 + (if Overlap(s.start, s.end, e.requestedStart, e.requestedEnd) then w.timeslotMatch * 0.5 else 0.0)
    else BestPreference(prefs, s, w)
  }

  /** Date `d` lies between the earliest and the latest of the dates. */
  ghost predicate Spans(dates: set<int>, d: int) {
    exists a, b :: a in dates && b in dates && a <= d <= b
  }

  /** On a hectic week, the bonus for an event requested inside a hectic period. */
  ghost function HecticBonus(e: Event, data: RunData, w: Weights): real {
    if data.week.isHectic
       && exists k :: 0 <= k < |data.hecticReference|
                      && Spans(Denoted(data.hecticReference[k], data.yearStart, data.yearEnd), LocalDate(e.requestedDate))
    then w.hecticBonus
    else 0.0
  }

  /** The capacity penalty, scaled by the relative excess of attendees over seats. */
  function CapacityAdjust(e: Event, venue: Option<Venue>, w: Weights): real {
    if venue.Some? && venue.value.occupancy.Some? && e.attendees.Some? && e.attendees.value > venue.value.occupancy.value then
      var cap := venue.value.occupancy.value;
      w.capacityPenalty * (1.0 + (e.attendees.value - cap) as real / (if cap > 1 then cap else 1) as real)
    else 0.0
  }

  ghost function SoftScore(e: Event, s: Slot, data: RunData, w: Weights): real {
    var prefs := PreferencesOf(data, e.id);
    w.baseScore + VenueScore(e, s, prefs, w) + DateTimeScore(e, s, prefs, w) + HecticBonus(e, data, w)
      + CapacityAdjust(e, FindVenue(data.venues, s.venue), w)
  }

  /** A parsed, increasing date list spans `d` exactly when its first and last dates bracket it. */
  lemma SpansBounds(dates: seq<int>, denoted: set<int>, d: int)
    requires StrictlyIncreasing(dates) && Elems(dates) == denoted
    ensures Spans(denoted, d) <==> |dates| > 0 && dates[0] <= d <= dates[|dates| - 1]
  {
    if |dates| > 0 {
      IncreasingBounds(dates);
      if dates[0] <= d <= dates[|dates| - 1] {
        assert dates[0] in denoted && dates[|dates| - 1] in denoted;
      }
    }
  }

  /** Lines 569-574: the venue part of the soft score. */
  method VenuePart(e: Event, s: Slot, prefs: seq<Preference>, w: Weights) returns (score: real)
    ensures score == VenueScore(e, s, prefs, w)
  {
    score := 0.0;
    if s.venue == e.requestedVenue {
      return w.venueMatch;
    }
    var k := 0;
    while k < |prefs|
      invariant 0 <= k <= |prefs|
      invariant forall j :: 0 <= j < k ==> prefs[j].venue != s.venue
    {
      if prefs[k].venue == s.venue {
        return w.venueMatch * 0.8;
      }
      k := k + 1;
    }
  }

  /** Lines 576-590: the date and time part of the soft score. */
  method DateTimePart(e: Event, s: Slot, prefs: seq<Preference>, w: Weights) returns (score: real)
    ensures score == DateTimeScore(e, s, prefs, w)
  {
    score := 0.0;
    if LocalDate(e.requestedDate) == LocalDate(s.start) {
      score := w.dateMatch * 0.5;
      if Overlap(s.start, s.end, e.requestedStart, e.requestedEnd) {
        score := score + w.timeslotMatch * 0.5;
      }
      return;
    }
    var k := 0;
    while k < |prefs|
      invariant 0 <= k <= |prefs|
      invariant score == BestPreference(prefs[..k], s, w)
    {
      var p := prefs[k];
      var current := 0.0;
      if p.date.Some? && LocalDate(p.date.value) == LocalDate(s.start) {
        current := current + w.dateMatch * 0.5;
        if p.slotStart.Some? && p.slotEnd.Some? && Overlap(s.start, s.end, p.slotStart.value, p.slotEnd.value) {
          current := current + w.timeslotMatch * 0.5;
        }
      }
      assert prefs[..k + 1][..k] == prefs[..k];
      score := Max(score, current * 0.8);
      k := k + 1;
    }
    assert prefs[..k] == prefs;
  }

  /** Lines 592-597: the hectic-period bonus, re-parsing each period's dates. */
  method HecticPart(e: Event, data: RunData, w: Weights) returns (bonus: real)
    ensures bonus == HecticBonus(e, data, w)
  {
    bonus := 0.0;
    if !data.week.isHectic {
      return;
    }
    var requested := LocalDate(e.requestedDate);
    var k := 0;
    while k < |data.hecticReference|
      invariant 0 <= k <= |data.hecticReference|
      invariant forall j :: 0 <= j < k ==> !Spans(Denoted(data.hecticReference[j], data.yearStart, data.yearEnd), requested)
    {
      var dates := ParseDateString(data.hecticReference[k], data.yearStart, data.yearEnd);
      SpansBounds(dates, Denoted(data.hecticReference[k], data.yearStart, data.yearEnd), requested);
      if |dates| > 0 && dates[0] <= requested <= dates[|dates| - 1] {
        return w.hecticBonus;
      }
      k := k + 1;
    }
  }

  /** Lines 566-604: the soft score of a slot that passed every hard check. */
  method ScoreSlot(e: Event, s: Slot, data: RunData, w: Weights) returns (score: real)
    ensures score == SoftScore(e, s, data, w)
  {
    var prefs := PreferencesOf(data, e.id);
    var venueScore := VenuePart(e, s, prefs, w);
    var dateTime := DateTimePart(e, s, prefs, w);
    var bonus := HecticPart(e, data, w);
    score := w.baseScore + venueScore + dateTime + bonus + CapacityAdjust(e, FindVenue(data.venues, s.venue), w);
  }

  // ---------------------------------------------------------------------
  // Judging one gene, and the whole chromosome
  // ---------------------------------------------------------------------

  datatype Verdict =
    | Unassigned
    | UnknownEvent
    | GeneralClash
    | VenueMissing
    | VenueClash
    | DoubleBooking
    | EquipmentShort
    | Accepted(score: real)

  predicate IsViolation(v: Verdict) {
    !v.Unassigned? && !v.Accepted?
  }

  /** The checks of lines 505-563, in order, for gene `g` among the placements `ps`. */
  ghost function Judge(g: Gene, ps: seq<Placement>, data: RunData, w: Weights): Verdict {
    match g.slot
    case None => Unassigned
    case Some(s) =>
      match FindEvent(data.pending, g.event)
      case None => UnknownEvent
      case Some(e) =>
        if FirstOverlapping(data.week.general, s.start, s.end).Some? then GeneralClash
        else if !data.week.isHectic && FindVenue(data.venues, s.venue).None? then VenueMissing
        else if !data.week.isHectic
                && FirstRuleHit(RulesFor(data.week, FindVenue(data.venues, s.venue).value, s.start), s.start, s.end).Some?
        then VenueClash
        else if VenueTaken(ps, g.event, s) then DoubleBooking
        else if Short(Concurrent(ps, g.event, s), data) then EquipmentShort
        else Accepted(SoftScore(e, s, data, w))
  }

  /** The body of the loop of lines 504-604, for one gene. */
  method JudgeGene(g: Gene, active: map<string, seq<Occupancy>>, ghost ps: seq<Placement>, data: RunData, w: Weights)
    returns (v: Verdict)
    requires active == ActiveMap(ps)
    ensures v == Judge(g, ps, data, w)
  {
    if g.slot.None? {
      return Unassigned;
    }
    var s := g.slot.value;
    var found := FindEvent(data.pending, g.event);
    if found.None? {
      return UnknownEvent;
    }
    var general := ScanGeneral(data.week.general, s.start, s.end);
    if general.Some? {
      return GeneralClash;
    }
    if !data.week.isHectic {
      var venue := FindVenue(data.venues, s.venue);
      if venue.None? {
        return VenueMissing;
      }
      var rule := ScanRules(RulesFor(data.week, venue.value, s.start), s.start, s.end);
      if rule.Some? {
        return VenueClash;
      }
    }
    var taken := SameVenueClash(active, ps, g.event, s);
    if taken {
      return DoubleBooking;
    }
    var ids := ConcurrentIds(active, ps, g.event, s);
    var short := EquipmentShortage(ids, data);
    if short {
      return EquipmentShort;
    }
    var score := ScoreSlot(found.value, s, data, w);
    return Accepted(score);
  }

  /** The verdict on every gene of the chromosome. */
  ghost function Verdicts(c: Chromosome, data: RunData, w: Weights): seq<Verdict> {
    seq(|c|, k requires 0 <= k < |c| => Judge(c[k], Placements(c, data.existing), data, w))
  }

  function Violations(vs: seq<Verdict>): nat
    decreases |vs|
  {
    if vs == [] then 0 else Violations(vs[..|vs| - 1]) + (if IsViolation(vs[|vs| - 1]) then 1 else 0)
  }

  function Soft(vs: seq<Verdict>): real
    decreases |vs|
  {
    if vs == [] then 0.0
    else Soft(vs[..|vs| - 1]) + (if vs[|vs| - 1].Accepted? then vs[|vs| - 1].score else 0.0)
  }

  lemma TotalsStep(vs: seq<Verdict>, i: int)
    requires 0 <= i < |vs|
    ensures Violations(vs[..i + 1]) == Violations(vs[..i]) + (if IsViolation(vs[i]) then 1 else 0)
    ensures Soft(vs[..i + 1]) == Soft(vs[..i]) + (if vs[i].Accepted? then vs[i].score else 0.0)
  {
    assert vs[..i + 1][..i] == vs[..i];
  }

  /** Lines 495-604: builds the venue map once, then judges the genes in chromosome order. */
  method JudgeAll(c: Chromosome, data: RunData, w: Weights) returns (vs: seq<Verdict>)
    ensures vs == Verdicts(c, data, w)
  {
    ghost var ps := Placements(c, data.existing);
    var active := BuildActive(c, data.existing);
    vs := [];
    var i := 0;
    while i < |c|
      invariant 0 <= i <= |c|
      invariant |vs| == i
      invariant forall k :: 0 <= k < i ==> vs[k] == Judge(c[k], ps, data, w)
    {
      var v := JudgeGene(c[i], active, ps, data, w);
      vs := vs + [v];
      i := i + 1;
    }
  }

  /** The running totals of lines 504-606: one violation per failed gene, the score of each accepted one. */
  method Tally(vs: seq<Verdict>) returns (soft: real, violations: int)
    ensures violations == Violations(vs) && soft == Soft(vs)
  {
    soft := 0.0;
    violations := 0;
    var i := 0;
    while i < |vs|
      invariant 0 <= i <= |vs|
      invariant violations == Violations(vs[..i]) && soft == Soft(vs[..i])
    {
      TotalsStep(vs, i);
      if vs[i].Accepted? {
        soft := soft + vs[i].score;
      } else if vs[i] != Unassigned {
        violations := violations + 1;
      }
      i := i + 1;
    }
    assert vs[..i] == vs;
  }

  /** The running totals as written: the loop ends at the first venue-type blockage, uncounted. */
  method TallyAsWritten(vs: seq<Verdict>) returns (soft: real, violations: int)
    ensures violations == Violations(UntilVenueClash(vs)) && soft == Soft(UntilVenueClash(vs))
  {
    soft := 0.0;
    violations := 0;
    var i := 0;
    while i < |vs|
      invariant 0 <= i <= |vs|
      invariant forall j :: 0 <= j < i ==> vs[j] != VenueClash
      invariant violations == Violations(vs[..i]) && soft == Soft(vs[..i])
    {
      if vs[i] == VenueClash {
        break;
      }
      TotalsStep(vs, i);
      if vs[i].Accepted? {
        soft := soft + vs[i].score;
      } else if vs[i] != Unassigned {
        violations := violations + 1;
      }
      i := i + 1;
    }
    UntilVenueClashAt(vs, i);
  }

  /** The score with the hard penalty taken off for every violation. */
  function Penalised(soft: real, violations: int, w: Weights): real {
    soft - violations as real * w.hardPenalty
  }

  /** `calculate_fitness`, counting every violation (the corrected evaluator). */
  method CalculateFitness(c: Chromosome, data: RunData, w: Weights) returns (fitness: real, violations: int)
    ensures violations == Violations(Verdicts(c, data, w))
    ensures fitness == Penalised(Soft(Verdicts(c, data, w)), violations, w)
  {
    var vs := JudgeAll(c, data, w);
    var soft;
    soft, violations := Tally(vs);
    fitness := Penalised(soft, violations, w);
  }

  /** The verdicts the evaluator as written gets through: those before the first venue-type blockage. */
  function UntilVenueClash(vs: seq<Verdict>): (r: seq<Verdict>)
    ensures |r| <= |vs| && r == vs[..|r|]
    ensures VenueClash !in r
    ensures |r| < |vs| ==> vs[|r|] == VenueClash
  {
    if vs == [] then []
    else if vs[0] == VenueClash then []
    else [vs[0]] + UntilVenueClash(vs[1..])
  }

  /**
   * `calculate_fitness` as written: the `break` at line 536 leaves the loop
   * over the whole chromosome, so the venue-type blockage is not counted and
   * no later gene is judged.
   */
  method CalculateFitnessAsWritten(c: Chromosome, data: RunData, w: Weights) returns (fitness: real, violations: int)
    ensures violations == Violations(UntilVenueClash(Verdicts(c, data, w)))
    ensures fitness == Penalised(Soft(UntilVenueClash(Verdicts(c, data, w))), violations, w)
  {
    var vs := JudgeAll(c, data, w);
    var soft;
    soft, violations := TallyAsWritten(vs);
    fitness := Penalised(soft, violations, w);
  }

  lemma UntilVenueClashAt(vs: seq<Verdict>, i: int)
    requires 0 <= i <= |vs| && forall j :: 0 <= j < i ==> vs[j] != VenueClash
    requires i < |vs| ==> vs[i] == VenueClash
    ensures UntilVenueClash(vs) == vs[..i]
  {
  }

  // ---------------------------------------------------------------------
  // Properties
  // ---------------------------------------------------------------------

  /** A gene without a slot is neither a violation nor scored; every assigned gene is one or the other. */
  lemma UnassignedNeutral(g: Gene, ps: seq<Placement>, data: RunData, w: Weights)
    ensures Judge(g, ps, data, w) == Unassigned <==> g.slot.None?
    ensures g.slot.Some? ==> IsViolation(Judge(g, ps, data, w)) || Judge(g, ps, data, w).Accepted?
  {
  }

  /** An assigned gene whose id is not a pending event always costs a violation. */
  lemma UnknownEventCosts(g: Gene, ps: seq<Placement>, data: RunData, w: Weights)
    requires g.slot.Some? && forall k :: 0 <= k < |data.pending| ==> data.pending[k].id != g.event
    ensures Judge(g, ps, data, w) == UnknownEvent
  {
  }

  function Assigned(c: Chromosome): nat
    decreases |c|
  {
    if c == [] then 0 else Assigned(c[..|c| - 1]) + (if c[|c| - 1].slot.Some? then 1 else 0)
  }

  lemma {:induction false} ViolationsAtMostAssigned(vs: seq<Verdict>, c: Chromosome)
    requires |vs| == |c|
    requires forall k :: 0 <= k < |c| ==> (vs[k] == Unassigned <==> c[k].slot.None?)
    ensures Violations(vs) <= Assigned(c)
    decreases |c|
  {
    if c != [] {
      var n := |c| - 1;
      ViolationsAtMostAssigned(vs[..n], c[..n]);
    }
  }

  /** Each assigned gene costs at most one violation. */
  lemma ViolationsBound(c: Chromosome, data: RunData, w: Weights)
    ensures Violations(Verdicts(c, data, w)) <= Assigned(c)
  {
    var vs := Verdicts(c, data, w);
    forall k | 0 <= k < |c|
      ensures vs[k] == Unassigned <==> c[k].slot.None?
    {
      UnassignedNeutral(c[k], Placements(c, data.existing), data, w);
    }
    ViolationsAtMostAssigned(vs, c);
  }

  lemma {:induction false} NoViolationAt(vs: seq<Verdict>, k: int)
    requires Violations(vs) == 0 && 0 <= k < |vs|
    ensures !IsViolation(vs[k])
    decreases |vs|
  {
    if k < |vs| - 1 {
      NoViolationAt(vs[..|vs| - 1], k);
    }
  }

  /**
   * A chromosome with no violation places every assigned gene on a pending
   * event, clear of every general slot and of every other occupant of its
   * venue, within the equipment inventory and, on a non-hectic week, at an
   * existing venue clear of its venue-type blockages.
   */
  lemma ZeroViolationsMeansFeasible(c: Chromosome, data: RunData, w: Weights, k: int)
    requires Violations(Verdicts(c, data, w)) == 0
    requires 0 <= k < |c| && c[k].slot.Some?
    ensures FindEvent(data.pending, c[k].event).Some?
    ensures forall j :: 0 <= j < |data.week.general|
                        ==> !Overlap(c[k].slot.value.start, c[k].slot.value.end, data.week.general[j].start, data.week.general[j].end)
    ensures !VenueTaken(Placements(c, data.existing), c[k].event, c[k].slot.value)
    ensures !Short(Concurrent(Placements(c, data.existing), c[k].event, c[k].slot.value), data)
    ensures !data.week.isHectic ==> FindVenue(data.venues, c[k].slot.value.venue).Some?
    ensures !data.week.isHectic ==>
              var s := c[k].slot.value;
              forall j :: 0 <= j < |RulesFor(data.week, FindVenue(data.venues, s.venue).value, s.start)|
                          ==> !RuleHits(RulesFor(data.week, FindVenue(data.venues, s.venue).value, s.start)[j], s.start, s.end)
  {
    var vs := Verdicts(c, data, w);
    NoViolationAt(vs, k);
    UnassignedNeutral(c[k], Placements(c, data.existing), data, w);
  }

  lemma {:induction false} ViolationsPrefix(vs: seq<Verdict>, n: int)
    requires 0 <= n <= |vs|
    ensures Violations(vs[..n]) <= Violations(vs)
    decreases |vs|
  {
    if n < |vs| {
      assert vs[..|vs| - 1][..n] == vs[..n];
      ViolationsPrefix(vs[..|vs| - 1], n);
    } else {
      assert vs[..n] == vs;
    }
  }

  lemma {:induction false} ViolationsSplit(vs: seq<Verdict>, n: int)
    requires 0 <= n < |vs|
    ensures Violations(vs[..n + 1]) == Violations(vs[..n]) + (if IsViolation(vs[n]) then 1 else 0)
  {
    assert vs[..n + 1][..n] == vs[..n];
  }

  /**
   * The evaluator as written reports strictly fewer violations than there
   * are whenever some gene meets a venue-type blockage.
   */
  lemma VenueClashGoesUncounted(vs: seq<Verdict>)
    requires VenueClash in vs
    ensures Violations(UntilVenueClash(vs)) < Violations(vs)
  {
    var r := UntilVenueClash(vs);
    var n := |r|;
    assert n < |vs|;
    ViolationsSplit(vs, n);
    ViolationsPrefix(vs, n + 1);
  }

  /** The corrected evaluator never reports fewer violations than the evaluator as written. */
  lemma AsWrittenUndercounts(vs: seq<Verdict>)
    ensures Violations(UntilVenueClash(vs)) <= Violations(vs)
  {
    ViolationsPrefix(vs, |UntilVenueClash(vs)|);
  }
}
