/**
 * The genetic operators: `initialize_population`, `selection`, `crossover`
 * and `mutate`. Chromosomes are values, so an operator never changes the
 * chromosome it is given (the source's `.copy()` calls); the random draws
 * come from a `Random.Draws` oracle and a position that each operator
 * advances and returns.
 */
module Operators {
  import opened Wrappers
  import opened Clock
  import opened Inputs
  import opened Genome
  import opened Random

  /** Chance that initialisation places an event at all. */
  const PlaceRate: real := 0.9
  /** Chance that initialisation first tries the requested time. */
  const RequestedRate: real := 0.5
  /** Chance that crossover takes an event's slot from the first parent. */
  const SwapRate: real := 0.5
  /** Random slots tried before giving up on an event. */
  const Attempts: nat := 20
  const FirstHour: int := 6
  const LastHour: int := 21
  const QuarterHours: seq<int> := [0, 15, 30, 45]

  // ---------------------------------------------------------------------
  // Slots the operators can produce
  // ---------------------------------------------------------------------

  /** A PHT date of the target week other than Sunday. */
  predicate UsableDate(d: int, data: RunData) {
    data.weekStart <= d < data.weekEnd && Weekday(d) != Sunday
  }

  /** The requested time is kept when it starts on a usable date, outside the curfew. */
  predicate RequestedOk(e: Event, data: RunData) {
    UsableDate(LocalDate(e.requestedStart), data) && !InCurfew(LocalTime(e.requestedStart))
  }

  /**
   * A slot the random generator can produce for `e`: a usable date, a start on
   * a quarter hour from 06:00 to 21:45 PHT, the event's duration, and an end
   * that does not spill into the night.
   */
  predicate Drawn(e: Event, data: RunData, start: int, end: int) {
    && UsableDate(LocalDate(start), data)
    && FirstHour * 60 <= LocalTime(start) <= LastHour * 60 + 45
    && LocalTime(start) % 15 == 0
    && end == start + Duration(e)
    && !SpillsIntoNight(start, end)
  }

  predicate KnownVenue(data: RunData, id: string) {
    exists j :: 0 <= j < |data.venues| && data.venues[j].id == id
  }

  /** A slot initialisation can give `e`: a known venue at the requested time or at a drawn one. */
  predicate Placeable(e: Event, data: RunData, s: Slot) {
    && KnownVenue(data, s.venue)
    && ((s.start == e.requestedStart && s.end == e.requestedEnd && RequestedOk(e, data))
        || Drawn(e, data, s.start, s.end))
  }

  /** A value mutation can give `e`: none, or a known venue at a drawn time. */
  predicate Remade(e: Event, data: RunData, s: Option<Slot>) {
    s.None? || (KnownVenue(data, s.value.venue) && Drawn(e, data, s.value.start, s.value.end))
  }

  /** The chromosome is keyed by exactly the pending ids. */
  ghost predicate KeyedByPending(c: Chromosome, data: RunData) {
    WellFormed(c) && forall id :: id in Keys(c) <==> id in EventIds(data.pending)
  }

  /** What initialisation produces: keyed by the pending ids, every slot placeable for its event. */
  ghost predicate Initial(c: Chromosome, data: RunData) {
    && KeyedByPending(c, data)
    && forall g :: g in c && g.slot.Some? ==> exists e :: e in data.pending && e.id == g.event && Placeable(e, data, g.slot.value)
  }

  // ---------------------------------------------------------------------
  // Random slots
  // ---------------------------------------------------------------------

  /** One attempt of the retry loops (lines 633-652 and 692-713): a day, an hour and a quarter. */
  method DrawTime(e: Event, data: RunData, draws: Draws, pos: nat) returns (slot: Option<(int, int)>, next: nat)
    requires data.weekStart < data.weekEnd
    ensures slot.Some? ==> Drawn(e, data, slot.value.0, slot.value.1)
    ensures next > pos
  {
    var offset := RandInt(draws, pos, 0, data.weekEnd - data.weekStart - 1);
    var d := data.weekStart + offset;
    if Weekday(d) == Sunday {
      return None, pos + 1;
    }
    var hour := RandInt(draws, pos + 1, FirstHour, LastHour);
    var minute := Choice(draws, pos + 2, QuarterHours);
    var t := 60 * hour + minute;
    next := pos + 3;
    if InCurfew(t) {
      return None, next;
    }
    var start := LocalToUtc(d, t);
    var end := start + Duration(e);
    if SpillsIntoNight(start, end) {
      return None, next;
    }
    LocalRoundTrip(d, t);
    slot := Some((start, end));
  }

  /** Lines 633-653: up to 20 attempts, keeping the first that succeeds. */
  method DrawSlot(e: Event, data: RunData, draws: Draws, pos: nat) returns (slot: Option<(int, int)>, next: nat)
    requires data.weekStart < data.weekEnd
    ensures slot.Some? ==> Drawn(e, data, slot.value.0, slot.value.1)
    ensures next >= pos
  {
    next := pos;
    var n := 0;
    while n < Attempts
      invariant next >= pos
    {
      slot, next := DrawTime(e, data, draws, next);
      if slot.Some? {
        return;
      }
      n := n + 1;
    }
    slot := None;
  }

  // ---------------------------------------------------------------------
  // initialize_population
  // ---------------------------------------------------------------------

  /** Lines 620-655 for one event: a venue and the requested or a drawn time, or nothing. */
  method InitialSlot(e: Event, data: RunData, draws: Draws, pos: nat) returns (slot: Option<Slot>, next: nat)
    requires data.venues != [] && data.weekStart < data.weekEnd
    ensures slot.Some? ==> Placeable(e, data, slot.value)
    ensures draws.units(pos) >= PlaceRate ==> slot.None?
    ensures next > pos
  {
    if draws.units(pos) >= PlaceRate {
      return None, pos + 1;
    }
    var venue := Choice(draws, pos + 1, data.venues);
    var requested := draws.units(pos + 2) < RequestedRate && RequestedOk(e, data);
    next := pos + 3;
    if requested {
      return Some(Slot(venue.id, e.requestedStart, e.requestedEnd)), next;
    }
    var drawn;
    drawn, next := DrawSlot(e, data, draws, next);
    if drawn.None? {
      return None, next;
    }
    slot := Some(Slot(venue.id, drawn.value.0, drawn.value.1));
  }

  /** Lines 617-656: one chromosome, every pending event in turn. */
  method InitialChromosome(data: RunData, draws: Draws, pos: nat) returns (c: Chromosome, next: nat)
    requires data.venues != [] && data.weekStart < data.weekEnd
    ensures Initial(c, data)
    ensures next >= pos
  {
    c := [];
    next := pos;
    var i := 0;
    while i < |data.pending|
      invariant 0 <= i <= |data.pending| && next >= pos
      invariant WellFormed(c)
      invariant forall id :: id in Keys(c) <==> id in EventIds(data.pending[..i])
      invariant forall g :: g in c && g.slot.Some? ==> exists e :: e in data.pending && e.id == g.event && Placeable(e, data, g.slot.value)
    {
      var e := data.pending[i];
      var slot;
      slot, next := InitialSlot(e, data, draws, next);
      PutWellFormed(c, e.id, slot);
      PutGenes(c, e.id, slot);
      assert EventIds(data.pending[..i + 1]) == EventIds(data.pending[..i]) + [e.id];
      c := Put(c, e.id, slot);
      i := i + 1;
    }
    assert data.pending[..i] == data.pending;
  }

  /** `initialize_population`: `size` chromosomes, all empty when there is no venue or no event. */
  method Initialize(size: nat, data: RunData, draws: Draws, pos: nat) returns (population: seq<Chromosome>, next: nat)
    requires data.weekStart < data.weekEnd
    ensures |population| == size
    ensures data.venues == [] || data.pending == [] ==> forall i :: 0 <= i < size ==> population[i] == []
    ensures data.venues != [] && data.pending != [] ==> forall i :: 0 <= i < size ==> Initial(population[i], data)
    ensures next >= pos
  {
    if data.venues == [] || data.pending == [] {
      return seq(size, i => []), pos;
    }
    population := [];
    next := pos;
    while |population| < size
      invariant |population| <= size && next >= pos
      invariant forall i :: 0 <= i < |population| ==> Initial(population[i], data)
    {
      var c;
      c, next := InitialChromosome(data, draws, next);
      population := population + [c];
    }
  }

  // ---------------------------------------------------------------------
  // selection
  // ---------------------------------------------------------------------

  /** A fitness result: the score and the number of hard violations. */
  datatype Fit = Fit(fitness: real, violations: int)

  function Min(a: int, b: int): int {
    if a <= b then a else b
  }

  /** The position in `idx` of the first contender with the highest score (Python's `max`). */
  method FirstBest(idx: seq<nat>, results: seq<Fit>) returns (m: nat)
    requires |idx| > 0 && forall i :: 0 <= i < |idx| ==> idx[i] < |results|
    ensures m < |idx|
    ensures forall j :: 0 <= j < |idx| ==> results[idx[j]].fitness <= results[idx[m]].fitness
    ensures forall j :: 0 <= j < m ==> results[idx[j]].fitness < results[idx[m]].fitness
  {
    m := 0;
    var j := 1;
    while j < |idx|
      invariant 1 <= j <= |idx| && m < j
      invariant forall i :: 0 <= i < j ==> results[idx[i]].fitness <= results[idx[m]].fitness
      invariant forall i :: 0 <= i < m ==> results[idx[i]].fitness < results[idx[m]].fitness
    {
      if results[idx[j]].fitness > results[idx[m]].fitness {
        m := j;
      }
      j := j + 1;
    }
  }

  /**
   * `selection`: a tournament among `min(k, n)` distinct members, won by the
   * first highest score (violations are not consulted). Without results of
   * matching length a random member is returned, and with a non-positive
   * tournament size the first one.
   */
  method Selection(population: seq<Chromosome>, results: seq<Fit>, k: int, draws: Draws, pos: nat)
    returns (winner: Chromosome, next: nat, ghost contenders: seq<nat>)
    ensures population == [] ==> winner == []
    ensures population != [] ==> winner in population
    ensures population != [] && |results| == |population| && k <= 0 ==> winner == population[0]
    ensures population != [] && |results| == |population| && k > 0 ==>
              && |contenders| == Min(k, |population|) && NoRepeats(contenders)
              && (forall j :: 0 <= j < |contenders| ==> contenders[j] < |population|)
              && exists m :: 0 <= m < |contenders| && winner == population[contenders[m]]
                             && (forall j :: 0 <= j < |contenders| ==> results[contenders[j]].fitness <= results[contenders[m]].fitness)
                             && (forall j :: 0 <= j < m ==> results[contenders[j]].fitness < results[contenders[m]].fitness)
    ensures next >= pos
  {
    contenders := [];
    if population == [] {
      return [], pos, contenders;
    }
    if |results| != |population| {
      return Choice(draws, pos, population), pos + 1, contenders;
    }
    var size := Min(k, |population|);
    if size <= 0 {
      return population[0], pos, contenders;
    }
    var picked;
    picked, next := Sample(draws, pos, |population|, size);
    contenders := picked;
    var m := FirstBest(picked, results);
    winner := population[picked[m]];
  }

  // ---------------------------------------------------------------------
  // crossover
  // ---------------------------------------------------------------------

  /** The children hold, for each pending id, the parents' two values, one each. */
  ghost predicate Recombined(c1: Chromosome, c2: Chromosome, p1: Chromosome, p2: Chromosome, ids: seq<string>) {
    forall id :: id in ids ==>
      || (Get(c1, id) == Get(p1, id) && Get(c2, id) == Get(p2, id))
      || (Get(c1, id) == Get(p2, id) && Get(c2, id) == Get(p1, id))
  }

  /**
   * `crossover`: at or above the rate the parents are returned as they are;
   * below it, each pending id's two values are dealt to the children, in
   * order or swapped.
   */
  method Crossover(p1: Chromosome, p2: Chromosome, data: RunData, rate: real, draws: Draws, pos: nat)
    returns (c1: Chromosome, c2: Chromosome, next: nat)
    ensures draws.units(pos) >= rate ==> c1 == p1 && c2 == p2
    ensures draws.units(pos) < rate ==>
              && KeyedByPending(c1, data) && KeyedByPending(c2, data)
              && Recombined(c1, c2, p1, p2, EventIds(data.pending))
              && forall id :: id !in EventIds(data.pending) ==> Get(c1, id).None? && Get(c2, id).None?
    ensures next > pos
  {
    if draws.units(pos) >= rate {
      return p1, p2, pos + 1;
    }
    var ids := EventIds(data.pending);
    c1, c2, next := Deal(p1, p2, ids, draws, pos + 1);
    forall id | id !in ids
      ensures Get(c1, id).None? && Get(c2, id).None?
    {
      assert id !in Keys(c1) && id !in Keys(c2);
    }
  }

  /** Lines 674-677: each id's two values dealt to the children, in order or swapped. */
  method Deal(p1: Chromosome, p2: Chromosome, ids: seq<string>, draws: Draws, pos: nat)
    returns (c1: Chromosome, c2: Chromosome, next: nat)
    ensures Dealt(c1, c2, p1, p2, ids)
    ensures next >= pos
  {
    c1, c2 := [], [];
    next := pos;
    var i := 0;
    while i < |ids|
      invariant 0 <= i <= |ids| && next >= pos
      invariant Dealt(c1, c2, p1, p2, ids[..i])
    {
      var id := ids[i];
      var s1, s2 := Get(p1, id), Get(p2, id);
      if draws.units(next) >= SwapRate {
        s1, s2 := s2, s1;
      }
      DealStep(c1, c2, p1, p2, ids, i, s1, s2);
      c1, c2 := Put(c1, id, s1), Put(c2, id, s2);
      next := next + 1;
      i := i + 1;
    }
    assert ids[..i] == ids;
  }

  /** The children built so far hold exactly the ids `done`, each dealt from the parents. */
  ghost predicate Dealt(c1: Chromosome, c2: Chromosome, p1: Chromosome, p2: Chromosome, done: seq<string>) {
    && WellFormed(c1) && WellFormed(c2)
    && (forall id :: id in Keys(c1) <==> id in done)
    && (forall id :: id in Keys(c2) <==> id in done)
    && Recombined(c1, c2, p1, p2, done)
  }

  lemma DealStep(c1: Chromosome, c2: Chromosome, p1: Chromosome, p2: Chromosome, ids: seq<string>, i: int,
                 s1: Option<Slot>, s2: Option<Slot>)
    requires 0 <= i < |ids| && Dealt(c1, c2, p1, p2, ids[..i])
    requires (s1 == Get(p1, ids[i]) && s2 == Get(p2, ids[i])) || (s1 == Get(p2, ids[i]) && s2 == Get(p1, ids[i]))
    ensures Dealt(Put(c1, ids[i], s1), Put(c2, ids[i], s2), p1, p2, ids[..i + 1])
  {
    var id := ids[i];
    var done, done' := ids[..i], ids[..i + 1];
    assert done' == done + [id];
    var d1, d2 := Put(c1, id, s1), Put(c2, id, s2);
    PutWellFormed(c1, id, s1);
    PutWellFormed(c2, id, s2);
    DealKeys(c1, done, id, s1);
    DealKeys(c2, done, id, s2);
    DealValues(c1, c2, p1, p2, done, id, s1, s2);
    assert Dealt(d1, d2, p1, p2, done');
  }

  /** A `Put` of the next id extends the keys by it. */
  lemma DealKeys(c: Chromosome, done: seq<string>, id: string, s: Option<Slot>)
    requires forall x :: x in Keys(c) <==> x in done
    ensures forall x :: x in Keys(Put(c, id, s)) <==> x in done + [id]
  {
  }

  /** `Put`s of the next id's two values keep the children recombined. */
  lemma DealValues(c1: Chromosome, c2: Chromosome, p1: Chromosome, p2: Chromosome, done: seq<string>, id: string,
                   s1: Option<Slot>, s2: Option<Slot>)
    requires Recombined(c1, c2, p1, p2, done)
    requires (s1 == Get(p1, id) && s2 == Get(p2, id)) || (s1 == Get(p2, id) && s2 == Get(p1, id))
    ensures Recombined(Put(c1, id, s1), Put(c2, id, s2), p1, p2, done + [id])
  {
    forall x | x in done + [id]
      ensures || (Get(Put(c1, id, s1), x) == Get(p1, x) && Get(Put(c2, id, s2), x) == Get(p2, x))
              || (Get(Put(c1, id, s1), x) == Get(p2, x) && Get(Put(c2, id, s2), x) == Get(p1, x))
    {
      if x != id {
        assert x in done;
      }
      DealValueAt(c1, c2, p1, p2, id, s1, s2, x);
    }
  }

  lemma DealValueAt(c1: Chromosome, c2: Chromosome, p1: Chromosome, p2: Chromosome, id: string,
                    s1: Option<Slot>, s2: Option<Slot>, x: string)
    requires (s1 == Get(p1, id) && s2 == Get(p2, id)) || (s1 == Get(p2, id) && s2 == Get(p1, id))
    requires x != id ==> || (Get(c1, x) == Get(p1, x) && Get(c2, x) == Get(p2, x))
                         || (Get(c1, x) == Get(p2, x) && Get(c2, x) == Get(p1, x))
    ensures || (Get(Put(c1, id, s1), x) == Get(p1, x) && Get(Put(c2, id, s2), x) == Get(p2, x))
            || (Get(Put(c1, id, s1), x) == Get(p2, x) && Get(Put(c2, id, s2), x) == Get(p1, x))
  {
    GetPut(c1, id, s1, x);
    GetPut(c2, id, s2, x);
    var g1, g2 := Get(Put(c1, id, s1), x), Get(Put(c2, id, s2), x);
    if x == id {
      assert g1 == s1 && g2 == s2;
    } else {
      assert g1 == Get(c1, x) && g2 == Get(c2, x);
    }
  }

  // ---------------------------------------------------------------------
  // mutate
  // ---------------------------------------------------------------------

  /** Lines 691-713: up to 20 attempts, each at a freshly chosen venue. */
  method MutantSlot(e: Event, data: RunData, draws: Draws, pos: nat) returns (slot: Option<Slot>, next: nat)
    requires data.venues != [] && data.weekStart < data.weekEnd
    ensures Remade(e, data, slot)
    ensures next >= pos
  {
    next := pos;
    var n := 0;
    while n < Attempts
      invariant next >= pos
    {
      var venue := Choice(draws, next, data.venues);
      var drawn;
      drawn, next := DrawTime(e, data, draws, next + 1);
      if drawn.Some? {
        return Some(Slot(venue.id, drawn.value.0, drawn.value.1)), next;
      }
      n := n + 1;
    }
    slot := None;
  }

  /**
   * `mutate`: with no venue nothing changes; otherwise each pending event, in
   * order, draws at position `gates[i]` and, when that draw is below the
   * mutation rate, gets a freshly drawn slot or none. An id whose draws are
   * all at or above the rate keeps its value, so a rate of zero changes
   * nothing; the last event of an id whose draw is below the rate decides
   * its new value. Other ids keep their values, and no key is lost.
   */
  method Mutate(c: Chromosome, data: RunData, rate: real, draws: Draws, pos: nat)
    returns (m: Chromosome, next: nat, ghost gates: seq<nat>)
    requires data.weekStart < data.weekEnd
    ensures data.venues == [] ==> m == c
    ensures |gates| == if data.venues == [] then 0 else |data.pending|
    ensures forall i, j :: 0 <= i < j < |gates| ==> pos <= gates[i] < gates[j] < next
    ensures (forall i :: 0 <= i < |gates| ==> draws.units(gates[i]) >= rate) ==> m == c
    ensures rate <= 0.0 ==> m == c
    ensures Gated(c, m, data, rate, draws, gates)
    ensures Mutated(c, m, data)
    ensures WellFormed(c) ==> WellFormed(m)
    ensures forall id :: id in Keys(c) ==> id in Keys(m)
    ensures forall id :: id in Keys(m) ==> id in Keys(c) || id in EventIds(data.pending)
    ensures forall id :: id !in EventIds(data.pending) ==> Get(m, id) == Get(c, id)
    ensures forall id :: Get(m, id) == Get(c, id) || exists e :: e in data.pending && e.id == id && Remade(e, data, Get(m, id))
    ensures next >= pos
  {
    if data.venues == [] {
      return c, pos, [];
    }
    m := c;
    next := pos;
    gates := [];
    var i := 0;
    while i < |data.pending|
      invariant 0 <= i <= |data.pending| && next >= pos
      invariant |gates| == i
      invariant forall a, b :: 0 <= a < b < i ==> pos <= gates[a] < gates[b] < next
      invariant forall a :: 0 <= a < i ==> pos <= gates[a] < next
      invariant (forall a :: 0 <= a < i ==> draws.units(gates[a]) >= rate) ==> m == c
      invariant Gated(c, m, data, rate, draws, gates)
      invariant Mutated(c, m, data)
    {
      var e := data.pending[i];
      ghost var before := m;
      gates := gates + [next];
      m, next := MutateEvent(m, e, data, rate, draws, next);
      MutatedStep(c, before, m, data, e);
      GatedStep(c, before, m, data, rate, draws, gates[..i], gates[i]);
      i := i + 1;
    }
    assert data.pending[..|gates|] == data.pending;
  }

  /**
   * One step of `mutate`'s loop: the event draws at `pos` and, below the
   * rate, its id is put to a freshly drawn slot or none.
   */
  method MutateEvent(m: Chromosome, e: Event, data: RunData, rate: real, draws: Draws, pos: nat)
    returns (m': Chromosome, next: nat)
    requires data.venues != [] && data.weekStart < data.weekEnd
    ensures draws.units(pos) >= rate ==> m' == m
    ensures draws.units(pos) < rate ==> Remade(e, data, Get(m', e.id))
    ensures forall id :: id != e.id ==> Get(m', id) == Get(m, id)
    ensures WellFormed(m) ==> WellFormed(m')
    ensures forall id :: id in Keys(m) ==> id in Keys(m')
    ensures forall id :: id in Keys(m') ==> id in Keys(m) || id == e.id
    ensures Get(m', e.id) == Get(m, e.id) || Remade(e, data, Get(m', e.id))
    ensures next > pos
  {
    m', next := m, pos + 1;
    if draws.units(pos) < rate {
      var slot;
      slot, next := MutantSlot(e, data, draws, next);
      if WellFormed(m) {
        PutWellFormed(m, e.id, slot);
      }
      GetPutAll(m, e.id, slot);
      m' := Put(m, e.id, slot);
    }
  }

  /**
   * `m` came from `c` by mutations of pending events: no key is lost, no
   * key is invented, and every changed value was drawn for an event of its id.
   */
  ghost predicate Mutated(c: Chromosome, m: Chromosome, data: RunData) {
    && (WellFormed(c) ==> WellFormed(m))
    && (forall id :: id in Keys(c) ==> id in Keys(m))
    && (forall id :: id in Keys(m) ==> id in Keys(c) || id in EventIds(data.pending))
    && (forall id :: id !in EventIds(data.pending) ==> Get(m, id) == Get(c, id))
    && (forall id :: Get(m, id) == Get(c, id) || exists e :: e in data.pending && e.id == id && Remade(e, data, Get(m, id)))
  }

  /** Mutating one more pending event keeps `Mutated`. */
  lemma MutatedStep(c: Chromosome, m: Chromosome, m': Chromosome, data: RunData, e: Event)
    requires Mutated(c, m, data) && e in data.pending
    requires WellFormed(m) ==> WellFormed(m')
    requires forall id :: id in Keys(m) ==> id in Keys(m')
    requires forall id :: id in Keys(m') ==> id in Keys(m) || id == e.id
    requires forall id :: id != e.id ==> Get(m', id) == Get(m, id)
    requires Get(m', e.id) == Get(m, e.id) || Remade(e, data, Get(m', e.id))
    ensures Mutated(c, m', data)
  {
    assert e.id in EventIds(data.pending);
  }

  /** Every draw of the first `|gates|` pending events with this id is at or above the rate. */
  ghost predicate Spared(id: string, data: RunData, rate: real, draws: Draws, gates: seq<nat>) {
    forall a :: 0 <= a < |gates| && a < |data.pending| && data.pending[a].id == id ==> draws.units(gates[a]) >= rate
  }

  /** No pending event after the `a`-th among the first `n` shares its id. */
  ghost predicate LastOfId(a: nat, data: RunData, n: nat)
    requires a < |data.pending|
  {
    forall b :: a < b < n && b < |data.pending| ==> data.pending[b].id != data.pending[a].id
  }

  /**
   * The first `|gates|` pending events have drawn at `gates`: an id none of
   * whose draws is below the rate keeps its value, and an event whose draw
   * is below the rate, with no later event of its id drawn yet, has
   * its id remade.
   */
  ghost predicate Gated(c: Chromosome, m: Chromosome, data: RunData, rate: real, draws: Draws, gates: seq<nat>) {
    && |gates| <= |data.pending|
    && Kept(c, m, data, rate, draws, gates)
    && Latest(m, data, rate, draws, gates)
  }

  /** Ids whose draws all stay at or above the rate keep their values. */
  ghost predicate Kept(c: Chromosome, m: Chromosome, data: RunData, rate: real, draws: Draws, gates: seq<nat>) {
    forall id :: Spared(id, data, rate, draws, gates) ==> Get(m, id) == Get(c, id)
  }

  /** The last event of an id drawn below the rate has its id remade. */
  ghost predicate Latest(m: Chromosome, data: RunData, rate: real, draws: Draws, gates: seq<nat>)
    requires |gates| <= |data.pending|
  {
    forall a :: 0 <= a < |gates| && draws.units(gates[a]) < rate && LastOfId(a, data, |gates|)
                ==> Remade(data.pending[a], data, Get(m, data.pending[a].id))
  }

  /** One more pending event's draw keeps `Gated`. */
  lemma GatedStep(c: Chromosome, m: Chromosome, m': Chromosome, data: RunData, rate: real, draws: Draws,
                  gates: seq<nat>, gate: nat)
    requires Gated(c, m, data, rate, draws, gates) && |gates| < |data.pending|
    requires draws.units(gate) >= rate ==> m' == m
    requires draws.units(gate) < rate ==>
               && Remade(data.pending[|gates|], data, Get(m', data.pending[|gates|].id))
               && forall id :: id != data.pending[|gates|].id ==> Get(m', id) == Get(m, id)
    ensures Gated(c, m', data, rate, draws, gates + [gate])
  {
    KeptStep(c, m, m', data, rate, draws, gates, gate);
    LatestStep(m, m', data, rate, draws, gates, gate);
  }

  lemma KeptStep(c: Chromosome, m: Chromosome, m': Chromosome, data: RunData, rate: real, draws: Draws,
                 gates: seq<nat>, gate: nat)
    requires Kept(c, m, data, rate, draws, gates) && |gates| < |data.pending|
    requires draws.units(gate) >= rate ==> m' == m
    requires draws.units(gate) < rate ==> forall id :: id != data.pending[|gates|].id ==> Get(m', id) == Get(m, id)
    ensures Kept(c, m', data, rate, draws, gates + [gate])
  {
    var i := |gates|;
    var g := gates + [gate];
    forall id | Spared(id, data, rate, draws, g)
      ensures Get(m', id) == Get(c, id)
    {
      assert g[i] == gate;
      forall a | 0 <= a < i && data.pending[a].id == id
        ensures draws.units(gates[a]) >= rate
      {
        assert g[a] == gates[a];
      }
    }
  }

  lemma LatestStep(m: Chromosome, m': Chromosome, data: RunData, rate: real, draws: Draws,
                   gates: seq<nat>, gate: nat)
    requires |gates| < |data.pending| && Latest(m, data, rate, draws, gates)
    requires draws.units(gate) >= rate ==> m' == m
    requires draws.units(gate) < rate ==>
               && Remade(data.pending[|gates|], data, Get(m', data.pending[|gates|].id))
               && forall id :: id != data.pending[|gates|].id ==> Get(m', id) == Get(m, id)
    ensures Latest(m', data, rate, draws, gates + [gate])
  {
    var i := |gates|;
    var g := gates + [gate];
    forall a | 0 <= a < |g| && draws.units(g[a]) < rate && LastOfId(a, data, |g|)
      ensures Remade(data.pending[a], data, Get(m', data.pending[a].id))
    {
      if a < i {
        assert g[a] == gates[a];
        assert LastOfId(a, data, i);
        assert draws.units(gate) < rate ==> data.pending[i].id != data.pending[a].id;
      }
    }
  }

  // ---------------------------------------------------------------------
  // What every population member satisfies
  // ---------------------------------------------------------------------

  /**
   * A chromosome the operators can produce: keys are pending ids, once each,
   * and every slot is placeable for a pending event with that id.
   */
  ghost predicate Sound(c: Chromosome, data: RunData) {
    && WellFormed(c)
    && (forall id :: id in Keys(c) ==> id in EventIds(data.pending))
    && forall g :: g in c && g.slot.Some? ==> exists e :: e in data.pending && e.id == g.event && Placeable(e, data, g.slot.value)
  }

  /** A placeable slot starts on a non-Sunday date of the week, outside the curfew. */
  lemma PlaceableStart(e: Event, data: RunData, s: Slot)
    requires Placeable(e, data, s)
    ensures UsableDate(LocalDate(s.start), data) && !InCurfew(LocalTime(s.start))
  {
  }

  lemma InitialSound(c: Chromosome, data: RunData)
    requires Initial(c, data)
    ensures Sound(c, data)
  {
  }

  /** Every slot of a sound chromosome is one of its genes' slots, read back by `Get`. */
  lemma SoundGet(c: Chromosome, data: RunData, id: string)
    requires Sound(c, data) && Get(c, id).Some?
    ensures exists e :: e in data.pending && e.id == id && Placeable(e, data, Get(c, id).value)
  {
    assert Gene(id, Get(c, id)) in c;
  }

  /** Crossover of sound parents gives sound children. */
  lemma RecombinedSound(c1: Chromosome, c2: Chromosome, p1: Chromosome, p2: Chromosome, data: RunData)
    requires Sound(p1, data) && Sound(p2, data)
    requires KeyedByPending(c1, data) && KeyedByPending(c2, data)
    requires Recombined(c1, c2, p1, p2, EventIds(data.pending))
    ensures Sound(c1, data) && Sound(c2, data)
  {
    forall g | g in c1 && g.slot.Some?
      ensures exists e :: e in data.pending && e.id == g.event && Placeable(e, data, g.slot.value)
    {
      var k :| 0 <= k < |c1| && c1[k] == g;
      GetAt(c1, k);
      if Get(c1, g.event) == Get(p1, g.event) {
        SoundGet(p1, data, g.event);
      } else {
        SoundGet(p2, data, g.event);
      }
    }
    forall g | g in c2 && g.slot.Some?
      ensures exists e :: e in data.pending && e.id == g.event && Placeable(e, data, g.slot.value)
    {
      var k :| 0 <= k < |c2| && c2[k] == g;
      GetAt(c2, k);
      if Get(c2, g.event) == Get(p2, g.event) {
        SoundGet(p2, data, g.event);
      } else {
        SoundGet(p1, data, g.event);
      }
    }
  }

  /** Mutation of a sound chromosome gives a sound one. */
  lemma MutantSound(c: Chromosome, m: Chromosome, data: RunData)
    requires Sound(c, data)
    requires WellFormed(m)
    requires forall id :: id in Keys(m) ==> id in Keys(c) || id in EventIds(data.pending)
    requires forall id :: Get(m, id) == Get(c, id) || exists e :: e in data.pending && e.id == id && Remade(e, data, Get(m, id))
    ensures Sound(m, data)
  {
    forall g | g in m && g.slot.Some?
      ensures exists e :: e in data.pending && e.id == g.event && Placeable(e, data, g.slot.value)
    {
      var k :| 0 <= k < |m| && m[k] == g;
      GetAt(m, k);
      if Get(m, g.event) == Get(c, g.event) {
        SoundGet(c, data, g.event);
      }
    }
  }
}
