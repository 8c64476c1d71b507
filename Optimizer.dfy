/**
 * `optimize_weekly_schedule`: the generation loop and the final schedule.
 *
 * Each generation scores the population, keeps the best chromosome seen so
 * far (fewer violations first, then the higher score), carries it over as
 * the first member of the next population and fills the rest with mutated
 * crossover children of tournament winners. The best chromosome is scored
 * once more at the end: with any violation left, every pending event is
 * unscheduled; otherwise its assigned genes become the schedule and the
 * pending events it leaves out are unscheduled. Unscheduled events get the
 * post-mortem analysis.
 */
module Optimizer {
  import opened Wrappers
  import opened Clock
  import opened Inputs
  import opened Genome
  import opened Random
  import opened Fitness
  import opened SlotCheck
  import opened Operators

  /** The algorithm's parameters and their defaults. */
  datatype Params = Params(populationSize: nat, maxGenerations: nat, mutationRate: real, crossoverRate: real, tournamentSize: int)

  const Defaults: Params := Params(50, 50, 0.15, 0.8, 5)

  /** What `calculate_fitness` returns for `c`. */
  ghost function FitOf(c: Chromosome, data: RunData, w: Weights): Fit {
    var vs := Verdicts(c, data, w);
    Fit(Penalised(Soft(vs), Violations(vs), w), Violations(vs))
  }

  /** A chromosome together with its score. */
  datatype Best = Best(chromosome: Chromosome, fit: Fit)

  // ---------------------------------------------------------------------
  // The best chromosome so far
  // ---------------------------------------------------------------------

  /** `a` ranks at least as high as `b`: fewer violations, or as many and a score no lower. */
  predicate NoWorse(a: Fit, b: Fit) {
    a.violations < b.violations || (a.violations == b.violations && a.fitness >= b.fitness)
  }

  /** `a` displaces `b`: fewer violations, or as many and a strictly higher score. */
  predicate Beats(a: Fit, b: Fit) {
    a.violations < b.violations || (a.violations == b.violations && a.fitness > b.fitness)
  }

  lemma NoWorseTransitive(a: Fit, b: Fit, c: Fit)
    requires NoWorse(a, b) && NoWorse(b, c)
    ensures NoWorse(a, c)
  {
  }

  /**
   * Lines 781-783: the generation's leader replaces the best so far when it
   * has fewer violations, or as many and a strictly higher score; before the
   * first generation there is nothing to beat.
   */
  function Track(best: Option<Best>, cur: Best): (r: Best)
    ensures r == cur || Some(r) == best
    ensures NoWorse(r.fit, cur.fit)
    ensures best.Some? ==> NoWorse(r.fit, best.value.fit)
    ensures best.Some? && r != best.value ==> r.fit.violations < best.value.fit.violations || r.fit.fitness > best.value.fit.fitness
  {
    if best.None? || Beats(cur.fit, best.value.fit) then cur
    else best.value
  }

  /** Line 776: `calculate_fitness` of every member, in order. */
  method Evaluate(population: seq<Chromosome>, data: RunData, w: Weights) returns (results: seq<Fit>)
    ensures |results| == |population|
    ensures forall i :: 0 <= i < |population| ==> results[i] == FitOf(population[i], data, w)
  {
    results := [];
    var i := 0;
    while i < |population|
      invariant 0 <= i <= |population| && |results| == i
      invariant forall j :: 0 <= j < i ==> results[j] == FitOf(population[j], data, w)
    {
      var fit := Score(population[i], data, w);
      results := results + [fit];
      i := i + 1;
    }
  }

  /** One call of `calculate_fitness`, as a score. */
  method Score(c: Chromosome, data: RunData, w: Weights) returns (fit: Fit)
    ensures fit == FitOf(c, data, w)
  {
    var fitness, violations := CalculateFitness(c, data, w);
    fit := Fit(fitness, violations);
  }

  /** Line 777: the first member with the highest score (violations are not consulted). */
  method Leader(results: seq<Fit>) returns (m: nat)
    requires |results| > 0
    ensures m < |results|
    ensures forall j :: 0 <= j < |results| ==> results[j].fitness <= results[m].fitness
    ensures forall j :: 0 <= j < m ==> results[j].fitness < results[m].fitness
  {
    var idx: seq<nat> := seq(|results|, i requires 0 <= i => i as nat);
    m := FirstBest(idx, results);
    assert idx[m] == m;
    forall j | 0 <= j < |results|
      ensures results[j].fitness <= results[m].fitness
      ensures j < m ==> results[j].fitness < results[m].fitness
    {
      assert idx[j] == j;
    }
  }

  // ---------------------------------------------------------------------
  // One generation
  // ---------------------------------------------------------------------

  /** Python's truth value of the best chromosome: present and not an empty dict. */
  predicate Present(best: Option<Best>) {
    best.Some? && best.value.chromosome != []
  }

  ghost predicate AllSound(population: seq<Chromosome>, data: RunData) {
    forall c :: c in population ==> Sound(c, data)
  }

  /** What `selection` can return: a member, or `{}` from an empty population (line 661). */
  ghost predicate Parent(p: Chromosome, population: seq<Chromosome>) {
    (population == [] && p == []) || p in population
  }

  /** What `crossover` can make of `p1` and `p2`: the parents as they are, or their ids dealt. */
  ghost predicate Crossed(c1: Chromosome, c2: Chromosome, p1: Chromosome, p2: Chromosome, data: RunData) {
    || (c1 == p1 && c2 == p2)
    || (&& KeyedByPending(c1, data) && KeyedByPending(c2, data)
        && Recombined(c1, c2, p1, p2, EventIds(data.pending))
        && forall id :: id !in EventIds(data.pending) ==> Get(c1, id).None? && Get(c2, id).None?)
  }

  /**
   * One refill round that yields `m`: parents `p1` and `p2` selected from
   * `population`, crossed into `c1` and `c2`, and `m` a mutant of one child.
   */
  ghost predicate Breeding(population: seq<Chromosome>, data: RunData,
                           p1: Chromosome, p2: Chromosome, c1: Chromosome, c2: Chromosome, m: Chromosome) {
    && Parent(p1, population) && Parent(p2, population)
    && Crossed(c1, c2, p1, p2, data)
    && (Mutated(c1, m, data) || Mutated(c2, m, data))
  }

  /** `m` comes from `population` by selection, crossover and mutation (lines 790-792). */
  ghost predicate Offspring(population: seq<Chromosome>, data: RunData, m: Chromosome) {
    exists p1, p2, c1, c2 :: Breeding(population, data, p1, p2, c1, c2, m)
  }

  /**
   * `next` is a generation made from `prev` with elite `elite` (`{}` when
   * there is none): the elite first when it is non-empty, every other
   * member an offspring of `prev`.
   */
  ghost predicate Descends(prev: seq<Chromosome>, elite: Chromosome, next: seq<Chromosome>, data: RunData) {
    && (elite != [] && |next| > 0 ==> next[0] == elite)
    && forall i :: (if elite != [] then 1 else 0) <= i < |next| ==> Offspring(prev, data, next[i])
  }

  /** The elite of a generation: the best so far's chromosome, or `{}`. */
  function Elite(best: Option<Best>): Chromosome {
    if best.Some? then best.value.chromosome else []
  }

  /**
   * Lines 788-792: the best so far first (when present and the size allows),
   * then pairs of mutated children of two tournament winners, the last pair
   * cut to the room left. Every member after the elite is an offspring of
   * the population. Sound parents and a sound best give sound children.
   */
  method NextGeneration(population: seq<Chromosome>, results: seq<Fit>, best: Option<Best>, p: Params,
                        data: RunData, draws: Draws, pos: nat)
    returns (offspring: seq<Chromosome>, next: nat)
    requires data.weekStart < data.weekEnd
    ensures |offspring| == p.populationSize
    ensures Present(best) && p.populationSize > 0 ==> offspring[0] == best.value.chromosome
    ensures Descends(population, Elite(best), offspring, data)
    ensures AllSound(population, data) && (best.Some? ==> Sound(best.value.chromosome, data)) ==> AllSound(offspring, data)
    ensures next >= pos
  {
    ghost var sound := AllSound(population, data) && (best.Some? ==> Sound(best.value.chromosome, data));
    offspring := if Present(best) && p.populationSize > 0 then [best.value.chromosome] else [];
    next := pos;
    while |offspring| < p.populationSize
      invariant next >= pos
      invariant Rearing(population, best, p.populationSize, offspring, data, sound)
      decreases p.populationSize - |offspring|
    {
      var m1, m2, n5 := Breed(population, results, p, data, draws, next);
      if sound {
        OffspringSound(population, data, m1);
        OffspringSound(population, data, m2);
      }
      Brood(population, best, p.populationSize, offspring, data, sound, m1, m2);
      offspring := offspring + [m1, m2][..Min(2, p.populationSize - |offspring|)];
      next := n5;
    }
  }

  /**
   * One round of lines 790-792: two tournaments pick the parents, crossover
   * recombines them, and each child is mutated; both mutants are offspring of
   * the population.
   */
  method Breed(population: seq<Chromosome>, results: seq<Fit>, p: Params, data: RunData, draws: Draws, pos: nat)
    returns (m1: Chromosome, m2: Chromosome, next: nat)
    requires data.weekStart < data.weekEnd
    ensures Offspring(population, data, m1) && Offspring(population, data, m2)
    ensures next >= pos
  {
    ghost var g1, g2;
    var p1, n1, p2, n2;
    p1, n1, g1 := Selection(population, results, p.tournamentSize, draws, pos);
    p2, n2, g2 := Selection(population, results, p.tournamentSize, draws, n1);
    var c1, c2, n3 := Crossover(p1, p2, data, p.crossoverRate, draws, n2);
    ghost var gates1, gates2;
    var n4;
    m1, n4, gates1 := Mutate(c1, data, p.mutationRate, draws, n3);
    m2, next, gates2 := Mutate(c2, data, p.mutationRate, draws, n4);
    assert Breeding(population, data, p1, p2, c1, c2, m1);
    assert Breeding(population, data, p1, p2, c1, c2, m2);
  }

  /** Every offspring of a sound population is sound: the operators keep `Sound`. */
  lemma OffspringSound(population: seq<Chromosome>, data: RunData, m: Chromosome)
    requires AllSound(population, data) && Offspring(population, data, m)
    ensures Sound(m, data)
  {
    var p1, p2, c1, c2 :| Breeding(population, data, p1, p2, c1, c2, m);
    EmptySound(data);
    if !(c1 == p1 && c2 == p2) {
      RecombinedSound(c1, c2, p1, p2, data);
    }
    if Mutated(c1, m, data) {
      MutantSound(c1, m, data);
    } else {
      MutantSound(c2, m, data);
    }
  }

  /** What the refill loop of lines 788-792 keeps: the elite first, then offspring, sound when the parents are. */
  ghost predicate Rearing(population: seq<Chromosome>, best: Option<Best>, size: nat, offspring: seq<Chromosome>,
                          data: RunData, sound: bool) {
    && |offspring| <= size
    && (Present(best) && size > 0 ==> |offspring| > 0 && offspring[0] == best.value.chromosome)
    && Descends(population, Elite(best), offspring, data)
    && (sound ==> AllSound(offspring, data))
  }

  /** Appending the next one or two mutants, up to `size`, keeps `Rearing`. */
  lemma Brood(population: seq<Chromosome>, best: Option<Best>, size: nat, offspring: seq<Chromosome>,
              data: RunData, sound: bool, m1: Chromosome, m2: Chromosome)
    requires Rearing(population, best, size, offspring, data, sound) && |offspring| < size
    requires Offspring(population, data, m1) && Offspring(population, data, m2)
    requires sound ==> Sound(m1, data) && Sound(m2, data)
    ensures Rearing(population, best, size, offspring + [m1, m2][..Min(2, size - |offspring|)], data, sound)
  {
    var r := offspring + [m1, m2][..Min(2, size - |offspring|)];
    forall i | |offspring| <= i < |r|
      ensures r[i] == m1 || r[i] == m2
    {
      assert r[i] == [m1, m2][i - |offspring|];
    }
    forall i | (if Elite(best) != [] then 1 else 0) <= i < |r|
      ensures Offspring(population, data, r[i])
    {
      if i < |offspring| {
        assert r[i] == offspring[i];
      }
    }
    if sound {
      forall c | c in r
        ensures Sound(c, data)
      {
        var i :| 0 <= i < |r| && r[i] == c;
        if i < |offspring| {
          assert r[i] == offspring[i];
        }
      }
    }
    if |offspring| > 0 {
      assert r[0] == offspring[0];
    }
  }

  lemma EmptySound(data: RunData)
    ensures Sound([], data)
  {
    assert Keys([]) == [];
  }

  // ---------------------------------------------------------------------
  // The generation loop
  // ---------------------------------------------------------------------

  /** Member `m` is the first of `pop` with the highest score. */
  ghost predicate FirstTop(pop: seq<Chromosome>, m: nat, data: RunData, w: Weights) {
    && m < |pop|
    && (forall j :: 0 <= j < |pop| ==> FitOf(pop[j], data, w).fitness <= FitOf(pop[m], data, w).fitness)
    && (forall j :: 0 <= j < m ==> FitOf(pop[j], data, w).fitness < FitOf(pop[m], data, w).fitness)
  }

  /** Lines 777-778: the scores of a generation and the index of its leader. */
  method Rank(population: seq<Chromosome>, data: RunData, w: Weights) returns (results: seq<Fit>, m: nat)
    requires |population| > 0
    ensures |results| == |population|
    ensures forall i :: 0 <= i < |population| ==> results[i] == FitOf(population[i], data, w)
    ensures FirstTop(population, m, data, w)
  {
    results := Evaluate(population, data, w);
    m := Leader(results);
  }

  /**
   * Lines 774-793. `pops` holds the population of each generation, starting
   * with `initial`; `picks` the index of each generation's leader, the first
   * member with the highest score, and `leaders` its score; `trail` the
   * best-so-far score after each generation, which a leader replaces only
   * when it beats it. The trail never gets worse, the final best is no
   * worse than any leader, and it is the leader of generation `origin`.
   * `elites` holds the best-so-far chromosome after each generation: the
   * leader when it beats the previous best, the previous best otherwise.
   * Each later generation starts with the previous elite, when it is not
   * `{}`, and is otherwise made of offspring of the previous generation.
   */
  method Evolve(initial: seq<Chromosome>, p: Params, data: RunData, w: Weights, draws: Draws, pos: nat)
    returns (best: Option<Best>, next: nat, ghost trail: seq<Fit>, ghost leaders: seq<Fit>,
             ghost pops: seq<seq<Chromosome>>, ghost picks: seq<nat>, ghost origin: nat, ghost elites: seq<Chromosome>)
    requires data.weekStart < data.weekEnd
    requires |initial| == p.populationSize > 0
    ensures |trail| == |leaders| == |pops| == |picks| == p.maxGenerations
    ensures p.maxGenerations > 0 ==> pops[0] == initial
    ensures forall g :: 0 <= g < |pops| ==> |pops[g]| == p.populationSize
    ensures forall g :: 0 <= g < |pops| ==>
              FirstTop(pops[g], picks[g], data, w) && leaders[g] == FitOf(pops[g][picks[g]], data, w)
    ensures p.maxGenerations > 0 ==> trail[0] == leaders[0]
    ensures forall g :: 0 < g < |trail| ==> trail[g] == if Beats(leaders[g], trail[g - 1]) then leaders[g] else trail[g - 1]
    ensures best.Some? ==> origin < |pops| && picks[origin] < |pops[origin]| && best.value == Best(pops[origin][picks[origin]], leaders[origin])
    ensures best.None? <==> p.maxGenerations == 0
    ensures best.Some? ==> best.value.fit == FitOf(best.value.chromosome, data, w) && trail[|trail| - 1] == best.value.fit
    ensures forall i, j :: 0 <= i <= j < |trail| ==> NoWorse(trail[j], trail[i])
    ensures best.Some? ==> forall j :: 0 <= j < |leaders| ==> NoWorse(best.value.fit, leaders[j])
    ensures AllSound(initial, data) && best.Some? ==> Sound(best.value.chromosome, data)
    ensures |elites| == p.maxGenerations
    ensures forall g :: 0 <= g < |elites| ==> picks[g] < |pops[g]| && FitOf(elites[g], data, w) == trail[g]
    ensures p.maxGenerations > 0 ==> elites[0] == pops[0][picks[0]]
    ensures forall g :: 0 < g < |elites| ==>
              elites[g] == if Beats(leaders[g], trail[g - 1]) then pops[g][picks[g]] else elites[g - 1]
    ensures forall g :: 0 < g < |pops| ==> Descends(pops[g - 1], elites[g - 1], pops[g], data)
    ensures best.Some? ==> best.value.chromosome == elites[|elites| - 1]
  {
    best, next, trail, leaders, pops, picks, origin, elites := Generations(initial, p, data, w, draws, pos);
  }

  /** The loop of lines 774-793, with the run so far as its invariant. */
  method Generations(initial: seq<Chromosome>, p: Params, data: RunData, w: Weights, draws: Draws, pos: nat)
    returns (best: Option<Best>, next: nat, ghost trail: seq<Fit>, ghost leaders: seq<Fit>,
             ghost pops: seq<seq<Chromosome>>, ghost picks: seq<nat>, ghost origin: nat, ghost elites: seq<Chromosome>)
    requires data.weekStart < data.weekEnd
    requires |initial| == p.populationSize > 0
    ensures |pops| == p.maxGenerations
    ensures Progress(initial, p.populationSize, data, w, best, trail, leaders, pops, picks, origin, elites)
    ensures Descended(pops, elites, data)
    ensures AllSound(initial, data) && best.Some? ==> Sound(best.value.chromosome, data)
  {
    ghost var sound := AllSound(initial, data);
    var population := initial;
    best, next, trail, leaders, pops, picks, origin, elites := None, pos, [], [], [], [], 0, [];
    var gen := 0;
    while gen < p.maxGenerations
      invariant 0 <= gen <= p.maxGenerations
      invariant |population| == p.populationSize
      invariant |pops| == gen && (gen == 0 ==> population == initial)
      invariant Progress(initial, p.populationSize, data, w, best, trail, leaders, pops, picks, origin, elites)
      invariant sound ==> AllSound(population, data) && (best.Some? ==> Sound(best.value.chromosome, data))
      invariant Lineal(pops, elites, population, data)
    {
      var results, m, cur, after := Lead(population, best, data, w);
      ghost var origin' := if after == cur then gen else origin;
      Advance(initial, p.populationSize, data, w, best, trail, leaders, pops, picks, origin, elites,
              population, m, cur, after, origin');
      ghost var pops0, elites0, parents := pops, elites, population;
      best := Some(after);
      elites := elites + [after.chromosome];
      trail := trail + [after.fit];
      leaders := leaders + [cur.fit];
      pops := pops + [population];
      picks := picks + [m];
      origin := origin';
      population, next := NextGeneration(population, results, best, p, data, draws, next);
      Descent(pops0, elites0, data, parents, after.chromosome, population);
      gen := gen + 1;
    }
  }

  /** Lines 777-783: score the generation, find its leader `cur` and track the best so far into `after`. */
  method Lead(population: seq<Chromosome>, best: Option<Best>, data: RunData, w: Weights)
    returns (results: seq<Fit>, m: nat, cur: Best, after: Best)
    requires |population| > 0
    ensures |results| == |population|
    ensures forall i :: 0 <= i < |population| ==> results[i] == FitOf(population[i], data, w)
    ensures FirstTop(population, m, data, w)
    ensures cur == Best(population[m], FitOf(population[m], data, w))
    ensures after == Track(best, cur)
  {
    results, m := Rank(population, data, w);
    cur := Best(population[m], results[m]);
    after := Track(best, cur);
  }

  /**
   * The run so far: its history (`Run`), its elites (`Elected`), the best
   * so far being the leader of generation `origin` and the last elite, no
   * worse than any leader and scored as the trail's last entry, and a
   * trail that never gets worse.
   */
  ghost predicate Progress(initial: seq<Chromosome>, size: nat, data: RunData, w: Weights, best: Option<Best>,
                           trail: seq<Fit>, leaders: seq<Fit>, pops: seq<seq<Chromosome>>, picks: seq<nat>,
                           origin: nat, elites: seq<Chromosome>) {
    && Run(initial, size, data, w, trail, leaders, pops, picks)
    && Elected(pops, picks, leaders, trail, elites, data, w)
    && (best.None? <==> pops == [])
    && (best.Some? ==> origin < |pops| && picks[origin] < |pops[origin]| && best.value == Best(pops[origin][picks[origin]], leaders[origin]))
    && (best.Some? ==> best.value.fit == FitOf(best.value.chromosome, data, w) && trail[|trail| - 1] == best.value.fit)
    && (best.Some? ==> best.value.chromosome == elites[|elites| - 1])
    && (forall i, j :: 0 <= i <= j < |trail| ==> NoWorse(trail[j], trail[i]))
    && (best.Some? ==> forall j :: 0 <= j < |leaders| ==> NoWorse(best.value.fit, leaders[j]))
  }

  /** One generation: the leader `cur` is tracked into the best so far `after`. */
  lemma Advance(initial: seq<Chromosome>, size: nat, data: RunData, w: Weights, best: Option<Best>,
                trail: seq<Fit>, leaders: seq<Fit>, pops: seq<seq<Chromosome>>, picks: seq<nat>,
                origin: nat, elites: seq<Chromosome>,
                population: seq<Chromosome>, m: nat, cur: Best, after: Best, origin': nat)
    requires Progress(initial, size, data, w, best, trail, leaders, pops, picks, origin, elites)
    requires |population| == size && (pops == [] ==> population == initial) && FirstTop(population, m, data, w)
    requires cur == Best(population[m], FitOf(population[m], data, w))
    requires after == Track(best, cur) && origin' == if after == cur then |pops| else origin
    ensures Progress(initial, size, data, w, Some(after), trail + [after.fit], leaders + [cur.fit],
                     pops + [population], picks + [m], origin', elites + [after.chromosome])
  {
    Climb(trail, leaders, best, cur, after);
    Record(initial, size, data, w, trail, leaders, pops, picks, population, m, after.fit);
    Elect(pops, picks, leaders, trail, elites, data, w, population, m, cur.fit, after.chromosome, after.fit);
    var pops', picks', leaders' := pops + [population], picks + [m], leaders + [cur.fit];
    if after != cur {
      assert pops'[origin] == pops[origin] && picks'[origin] == picks[origin] && leaders'[origin] == leaders[origin];
    }
  }

  /**
   * The history of a run: one population, leader index, leader score and
   * best-so-far score per generation, the populations of the given size
   * starting with `initial`, each leader the first top-scoring member, and
   * the best so far replaced by a leader only when the leader beats it.
   */
  ghost predicate Run(initial: seq<Chromosome>, size: nat, data: RunData, w: Weights,
                      trail: seq<Fit>, leaders: seq<Fit>, pops: seq<seq<Chromosome>>, picks: seq<nat>) {
    && |trail| == |leaders| == |pops| == |picks|
    && (|pops| > 0 ==> pops[0] == initial)
    && (forall g :: 0 <= g < |pops| ==> |pops[g]| == size)
    && (forall g :: 0 <= g < |pops| ==> FirstTop(pops[g], picks[g], data, w) && leaders[g] == FitOf(pops[g][picks[g]], data, w))
    && (|trail| > 0 ==> trail[0] == leaders[0])
    && (forall g :: 0 < g < |trail| ==> trail[g] == if Beats(leaders[g], trail[g - 1]) then leaders[g] else trail[g - 1])
  }

  /**
   * The elites of a run: each the leader when it beats the best so far,
   * the previous elite otherwise, and scored as the trail says.
   */
  ghost predicate Elected(pops: seq<seq<Chromosome>>, picks: seq<nat>, leaders: seq<Fit>, trail: seq<Fit>,
                          elites: seq<Chromosome>, data: RunData, w: Weights) {
    && |elites| == |pops| == |picks| == |leaders| == |trail|
    && (forall g :: 0 <= g < |elites| ==> picks[g] < |pops[g]| && FitOf(elites[g], data, w) == trail[g])
    && (|elites| > 0 ==> elites[0] == pops[0][picks[0]])
    && (forall g :: 0 < g < |elites| ==>
          elites[g] == if Beats(leaders[g], trail[g - 1]) then pops[g][picks[g]] else elites[g - 1])
  }

  /** Each generation after the first descends from the one before, with that one's elite. */
  ghost predicate Descended(pops: seq<seq<Chromosome>>, elites: seq<Chromosome>, data: RunData) {
    && |elites| == |pops|
    && forall g :: 0 < g < |pops| ==> Descends(pops[g - 1], elites[g - 1], pops[g], data)
  }

  /** The elites grow by one generation. */
  lemma Elect(pops: seq<seq<Chromosome>>, picks: seq<nat>, leaders: seq<Fit>, trail: seq<Fit>,
              elites: seq<Chromosome>, data: RunData, w: Weights,
              population: seq<Chromosome>, m: nat, lead: Fit, elite: Chromosome, after: Fit)
    requires Elected(pops, picks, leaders, trail, elites, data, w)
    requires m < |population| && FitOf(elite, data, w) == after
    requires elite == if trail == [] || Beats(lead, trail[|trail| - 1]) then population[m] else elites[|elites| - 1]
    ensures Elected(pops + [population], picks + [m], leaders + [lead], trail + [after], elites + [elite], data, w)
  {
    var n := |elites|;
    var pops', picks', leaders', trail', elites' := pops + [population], picks + [m], leaders + [lead], trail + [after], elites + [elite];
    forall g | 0 <= g <= n
      ensures picks'[g] < |pops'[g]| && FitOf(elites'[g], data, w) == trail'[g]
    {
      if g < n {
        assert pops'[g] == pops[g] && picks'[g] == picks[g] && elites'[g] == elites[g] && trail'[g] == trail[g];
      }
    }
    forall g | 0 < g <= n
      ensures elites'[g] == if Beats(leaders'[g], trail'[g - 1]) then pops'[g][picks'[g]] else elites'[g - 1]
    {
      assert elites'[g - 1] == elites[g - 1] && trail'[g - 1] == trail[g - 1];
      if g < n {
        assert pops'[g] == pops[g] && picks'[g] == picks[g] && elites'[g] == elites[g] && leaders'[g] == leaders[g];
      }
    }
  }

  /** The generations so far descend from each other, and `population` from the last of them. */
  ghost predicate Lineal(pops: seq<seq<Chromosome>>, elites: seq<Chromosome>, population: seq<Chromosome>, data: RunData) {
    && Descended(pops, elites, data)
    && (|pops| > 0 ==> Descends(pops[|pops| - 1], elites[|elites| - 1], population, data))
  }

  /** The descent grows by one generation. */
  lemma Descent(pops: seq<seq<Chromosome>>, elites: seq<Chromosome>, data: RunData,
                population: seq<Chromosome>, elite: Chromosome, offspring: seq<Chromosome>)
    requires Lineal(pops, elites, population, data)
    requires Descends(population, elite, offspring, data)
    ensures Lineal(pops + [population], elites + [elite], offspring, data)
  {
    var pops', elites' := pops + [population], elites + [elite];
    forall g | 0 < g < |pops'|
      ensures Descends(pops'[g - 1], elites'[g - 1], pops'[g], data)
    {
      if g < |pops| {
        assert pops'[g - 1] == pops[g - 1] && pops'[g] == pops[g] && elites'[g - 1] == elites[g - 1];
      }
    }
  }

  /** The history of a run grows by one generation. */
  lemma Record(initial: seq<Chromosome>, size: nat, data: RunData, w: Weights,
               trail: seq<Fit>, leaders: seq<Fit>, pops: seq<seq<Chromosome>>, picks: seq<nat>,
               population: seq<Chromosome>, m: nat, after: Fit)
    requires Run(initial, size, data, w, trail, leaders, pops, picks)
    requires |population| == size && (pops == [] ==> population == initial) && FirstTop(population, m, data, w)
    requires after == if trail == [] || Beats(FitOf(population[m], data, w), trail[|trail| - 1])
                      then FitOf(population[m], data, w) else trail[|trail| - 1]
    ensures Run(initial, size, data, w, trail + [after], leaders + [FitOf(population[m], data, w)], pops + [population], picks + [m])
  {
    var n := |pops|;
    var trail', leaders', pops', picks' := trail + [after], leaders + [FitOf(population[m], data, w)], pops + [population], picks + [m];
    forall g | 0 <= g < |pops'|
      ensures |pops'[g]| == size
      ensures FirstTop(pops'[g], picks'[g], data, w) && leaders'[g] == FitOf(pops'[g][picks'[g]], data, w)
    {
      if g < n {
        assert pops'[g] == pops[g] && picks'[g] == picks[g] && leaders'[g] == leaders[g];
      }
    }
    forall g | 0 < g < |trail'|
      ensures trail'[g] == if Beats(leaders'[g], trail'[g - 1]) then leaders'[g] else trail'[g - 1]
    {
      assert trail'[g - 1] == trail[g - 1];
      if g < n {
        assert trail'[g] == trail[g] && leaders'[g] == leaders[g];
      }
    }
    if n > 0 {
      assert pops'[0] == pops[0] && trail'[0] == trail[0] && leaders'[0] == leaders[0];
    }
  }

  /** The trail and leader facts carry over one generation. */
  lemma Climb(trail: seq<Fit>, leaders: seq<Fit>, before: Option<Best>, cur: Best, after: Best)
    requires |trail| == |leaders| && (before.None? <==> trail == [])
    requires before.Some? ==> trail[|trail| - 1] == before.value.fit
    requires forall i, j :: 0 <= i <= j < |trail| ==> NoWorse(trail[j], trail[i])
    requires before.Some? ==> forall j :: 0 <= j < |leaders| ==> NoWorse(before.value.fit, leaders[j])
    requires NoWorse(after.fit, cur.fit) && (before.Some? ==> NoWorse(after.fit, before.value.fit))
    ensures forall i, j :: 0 <= i <= j < |trail| + 1 ==> NoWorse((trail + [after.fit])[j], (trail + [after.fit])[i])
    ensures forall j :: 0 <= j < |leaders| + 1 ==> NoWorse(after.fit, (leaders + [cur.fit])[j])
  {
    var t := trail + [after.fit];
    forall i, j | 0 <= i <= j < |t|
      ensures NoWorse(t[j], t[i])
    {
      if j == |trail| && i < |trail| {
        NoWorseTransitive(after.fit, before.value.fit, trail[i]);
      }
    }
    var l := leaders + [cur.fit];
    forall j | 0 <= j < |l|
      ensures NoWorse(after.fit, l[j])
    {
      if j < |leaders| {
        NoWorseTransitive(after.fit, before.value.fit, leaders[j]);
      }
    }
  }

  // ---------------------------------------------------------------------
  // The final schedule
  // ---------------------------------------------------------------------

  /** A schedule entry: event, venue, organisation, UTC start and end. */
  datatype Entry = Entry(event: string, venue: string, org: string, start: int, end: int)

  /** `en` is the entry gene `g` gives: an assigned slot of a pending event. */
  predicate Proposed(g: Gene, data: RunData, en: Entry) {
    && g.slot.Some? && FindEvent(data.pending, g.event).Some?
    && en == Entry(g.event, g.slot.value.venue, FindEvent(data.pending, g.event).value.org, g.slot.value.start, g.slot.value.end)
  }

  /**
   * Lines 812-824: one entry per gene with a slot whose event is pending, in
   * the chromosome's order, and the ids they schedule.
   */
  method Entries(best: Chromosome, data: RunData) returns (entries: seq<Entry>, scheduled: set<string>, ghost ks: seq<nat>)
    ensures |ks| == |entries|
    ensures forall i, j :: 0 <= i < j < |ks| ==> ks[i] < ks[j]
    ensures forall i :: 0 <= i < |ks| ==> ks[i] < |best| && Proposed(best[ks[i]], data, entries[i])
    ensures forall k :: 0 <= k < |best| && best[k].slot.Some? && FindEvent(data.pending, best[k].event).Some? ==> k in ks
    ensures forall en :: en in entries ==> exists k :: 0 <= k < |best| && Proposed(best[k], data, en)
    ensures forall k :: 0 <= k < |best| && best[k].slot.Some? && FindEvent(data.pending, best[k].event).Some?
                        ==> exists en :: en in entries && Proposed(best[k], data, en)
    ensures forall id :: id in scheduled <==> exists en :: en in entries && en.event == id
  {
    entries, scheduled, ks := [], {}, [];
    var i := 0;
    while i < |best|
      invariant 0 <= i <= |best|
      invariant Indexed(best, data, entries, ks, i)
      invariant Named(scheduled, entries)
    {
      var g := best[i];
      if g.slot.Some? {
        var found := FindEvent(data.pending, g.event);
        if found.Some? {
          var en := Entry(g.event, g.slot.value.venue, found.value.org, g.slot.value.start, g.slot.value.end);
          assert Proposed(best[i], data, en);
          IndexedStep(best, data, entries, ks, i, en);
          NamedStep(scheduled, entries, en);
          entries := entries + [en];
          scheduled := scheduled + {g.event};
          ks := ks + [i];
        }
      }
      i := i + 1;
    }
    Listed(best, data, entries, ks);
  }

  /**
   * `entries` are proposed by the genes at the increasing indices `ks`, all
   * below `i`, and every gene below `i` that proposes an entry is listed.
   */
  ghost predicate Indexed(best: Chromosome, data: RunData, entries: seq<Entry>, ks: seq<nat>, i: nat) {
    && i <= |best|
    && |ks| == |entries|
    && (forall a, b :: 0 <= a < b < |ks| ==> ks[a] < ks[b])
    && (forall a :: 0 <= a < |ks| ==> ks[a] < i && Proposed(best[ks[a]], data, entries[a]))
    && (forall k :: 0 <= k < i && best[k].slot.Some? && FindEvent(data.pending, best[k].event).Some? ==> k in ks)
  }

  /** Listing the entry proposed by gene `i` keeps `Indexed`. */
  lemma IndexedStep(best: Chromosome, data: RunData, entries: seq<Entry>, ks: seq<nat>, i: nat, en: Entry)
    requires Indexed(best, data, entries, ks, i) && i < |best| && Proposed(best[i], data, en)
    ensures Indexed(best, data, entries + [en], ks + [i], i + 1)
  {
    var ks' := ks + [i];
    assert forall a :: 0 <= a < |ks| ==> ks'[a] == ks[a];
    assert forall k :: k in ks ==> k in ks';
  }

  /** `scheduled` holds exactly the events of `entries`. */
  ghost predicate Named(scheduled: set<string>, entries: seq<Entry>) {
    forall id :: id in scheduled <==> exists en :: en in entries && en.event == id
  }

  /** Adding an entry and its event keeps `Named`. */
  lemma NamedStep(scheduled: set<string>, entries: seq<Entry>, en: Entry)
    requires Named(scheduled, entries)
    ensures Named(scheduled + {en.event}, entries + [en])
  {
    forall id | id in scheduled + {en.event}
      ensures exists x :: x in entries + [en] && x.event == id
    {
      if id != en.event {
        var x :| x in entries && x.event == id;
        assert x in entries + [en];
      } else {
        assert en in entries + [en];
      }
    }
  }

  /** Entries indexed by the genes that propose them are exactly the proposed entries. */
  lemma Listed(best: Chromosome, data: RunData, entries: seq<Entry>, ks: seq<nat>)
    requires Indexed(best, data, entries, ks, |best|)
    ensures |ks| == |entries|
    ensures forall i, j :: 0 <= i < j < |ks| ==> ks[i] < ks[j]
    ensures forall i :: 0 <= i < |ks| ==> ks[i] < |best| && Proposed(best[ks[i]], data, entries[i])
    ensures forall k :: 0 <= k < |best| && best[k].slot.Some? && FindEvent(data.pending, best[k].event).Some? ==> k in ks
    ensures forall en :: en in entries ==> exists k :: 0 <= k < |best| && Proposed(best[k], data, en)
    ensures forall k :: 0 <= k < |best| && best[k].slot.Some? && FindEvent(data.pending, best[k].event).Some?
                        ==> exists en :: en in entries && Proposed(best[k], data, en)
  {
    forall en | en in entries
      ensures exists k :: 0 <= k < |best| && Proposed(best[k], data, en)
    {
      var a :| 0 <= a < |entries| && entries[a] == en;
      assert Proposed(best[ks[a]], data, en);
    }
    forall k | 0 <= k < |best| && best[k].slot.Some? && FindEvent(data.pending, best[k].event).Some?
      ensures exists en :: en in entries && Proposed(best[k], data, en)
    {
      var a :| 0 <= a < |ks| && ks[a] == k;
      assert entries[a] in entries;
    }
  }

  /** Line 825: the input ids not scheduled, each once. */
  method Unscheduled(ids: seq<string>, scheduled: set<string>) returns (rest: seq<string>)
    ensures Distinct(rest)
    ensures forall id :: id in rest <==> id in ids && id !in scheduled
  {
    rest := [];
    var i := 0;
    while i < |ids|
      invariant 0 <= i <= |ids|
      invariant Distinct(rest)
      invariant forall id :: id in rest <==> id in ids[..i] && id !in scheduled
    {
      if ids[i] !in scheduled && ids[i] !in rest {
        rest := rest + [ids[i]];
      }
      i := i + 1;
    }
    assert ids[..i] == ids;
  }

  /**
   * The result: the entries, the unscheduled ids, their analysis, the best
   * chromosome of the run and its verified score.
   */
  datatype Outcome = Outcome(entries: seq<Entry>, unscheduled: seq<string>, analysis: map<string, Analysis>,
                             chosen: Option<Best>, verified: Option<Fit>)

  /**
   * `optimize_weekly_schedule` from the point the week's data is gathered
   * (lines 759-829).
   */
  method Optimize(data: RunData, w: Weights, p: Params, draws: Draws, pos: nat) returns (out: Outcome)
    requires data.weekStart < data.weekEnd
    ensures data.pending == [] ==> out == Outcome([], [], map[], None, None)
    ensures out.analysis == PostMortemOf(out.unscheduled, data)
    ensures data.pending != [] && out.verified.None? ==> out.entries == [] && out.unscheduled == EventIds(data.pending)
    ensures out.verified.Some? ==> && out.chosen.Some? && out.chosen.value.chromosome != []
                                   && out.verified.value == FitOf(out.chosen.value.chromosome, data, w)
    ensures out.verified.Some? && out.verified.value.violations > 0 ==> out.entries == [] && out.unscheduled == EventIds(data.pending)
    ensures out.verified.Some? && out.verified.value.violations == 0 ==>
              && (forall en :: en in out.entries ==> exists k :: 0 <= k < |out.chosen.value.chromosome| && Proposed(out.chosen.value.chromosome[k], data, en))
              && (forall k :: (&& 0 <= k < |out.chosen.value.chromosome| && out.chosen.value.chromosome[k].slot.Some?
                               && FindEvent(data.pending, out.chosen.value.chromosome[k].event).Some?)
                              ==> exists en :: en in out.entries && Proposed(out.chosen.value.chromosome[k], data, en))
              && (forall id :: id in out.unscheduled <==> id in EventIds(data.pending) && forall en :: en in out.entries ==> en.event != id)
    ensures out.chosen.Some? ==> Sound(out.chosen.value.chromosome, data)
    ensures forall en :: en in out.entries ==> KnownVenue(data, en.venue) && UsableDate(LocalDate(en.start), data) && !InCurfew(LocalTime(en.start))
  {
    if data.pending == [] {
      return Outcome([], [], map[], None, None);
    }
    var ids := EventIds(data.pending);
    var population, n1 := Initialize(p.populationSize, data, draws, pos);
    InitialAllSound(population, data);
    if population == [] {
      var analysis := PostMortem(ids, data);
      return Outcome([], ids, analysis, None, None);
    }
    var best, n2, trail, leaders, pops, picks, origin, elites := Evolve(population, p, data, w, draws, n1);
    if !Present(best) {
      var analysis := PostMortem(ids, data);
      return Outcome([], ids, analysis, best, None);
    }
    var entries, rest, verified := Settle(best.value.chromosome, data, w);
    var analysis := PostMortem(rest, data);
    return Outcome(entries, rest, analysis, best, Some(verified));
  }

  /**
   * Lines 803-825: the best chromosome scored again; with a violation left
   * every pending event is unscheduled, otherwise its entries and the
   * pending ids it leaves out.
   */
  method Settle(chosen: Chromosome, data: RunData, w: Weights) returns (entries: seq<Entry>, rest: seq<string>, verified: Fit)
    ensures verified == FitOf(chosen, data, w)
    ensures verified.violations > 0 ==> entries == [] && rest == EventIds(data.pending)
    ensures verified.violations == 0 ==>
              && (forall en :: en in entries ==> exists k :: 0 <= k < |chosen| && Proposed(chosen[k], data, en))
              && (forall k :: (0 <= k < |chosen| && chosen[k].slot.Some? && FindEvent(data.pending, chosen[k].event).Some?)
                              ==> exists en :: en in entries && Proposed(chosen[k], data, en))
              && (forall id :: id in rest <==> id in EventIds(data.pending) && forall en :: en in entries ==> en.event != id)
    ensures Sound(chosen, data) ==>
              forall en :: en in entries ==> KnownVenue(data, en.venue) && UsableDate(LocalDate(en.start), data) && !InCurfew(LocalTime(en.start))
  {
    verified := Score(chosen, data, w);
    var ids := EventIds(data.pending);
    if verified.violations > 0 {
      return [], ids, verified;
    }
    var scheduled;
    ghost var ks;
    entries, scheduled, ks := Entries(chosen, data);
    rest := Unscheduled(ids, scheduled);
    if Sound(chosen, data) {
      forall en | en in entries
        ensures KnownVenue(data, en.venue) && UsableDate(LocalDate(en.start), data) && !InCurfew(LocalTime(en.start))
      {
        var k :| 0 <= k < |chosen| && Proposed(chosen[k], data, en);
        EntrySound(chosen, data, k, en);
      }
    }
  }

  /** What `Initialize` returns is sound. */
  lemma InitialAllSound(population: seq<Chromosome>, data: RunData)
    requires data.venues == [] || data.pending == [] ==> forall i :: 0 <= i < |population| ==> population[i] == []
    requires data.venues != [] && data.pending != [] ==> forall i :: 0 <= i < |population| ==> Initial(population[i], data)
    ensures AllSound(population, data)
  {
    EmptySound(data);
    forall c | c in population
      ensures Sound(c, data)
    {
      if data.venues != [] && data.pending != [] {
        InitialSound(c, data);
      }
    }
  }

  /** An entry proposed by a gene of a sound chromosome has a placeable slot. */
  lemma EntrySound(c: Chromosome, data: RunData, k: int, en: Entry)
    requires Sound(c, data) && 0 <= k < |c| && Proposed(c[k], data, en)
    ensures KnownVenue(data, en.venue) && UsableDate(LocalDate(en.start), data) && !InCurfew(LocalTime(en.start))
  {
    assert c[k] in c;
    var e :| e in data.pending && e.id == c[k].event && Placeable(e, data, c[k].slot.value);
    PlaceableStart(e, data, c[k].slot.value);
  }

  /**
   * Every entry of a schedule whose best chromosome is free of violations
   * avoids the week's general unavailable slots, does not clash with
   * another booking of its venue and, on a non-hectic week, is at a known
   * venue.
   */
  lemma ScheduleFeasible(c: Chromosome, data: RunData, w: Weights, k: int, en: Entry)
    requires FitOf(c, data, w).violations == 0
    requires 0 <= k < |c| && Proposed(c[k], data, en)
    ensures forall j :: 0 <= j < |data.week.general| ==> !Overlap(en.start, en.end, data.week.general[j].start, data.week.general[j].end)
    ensures !VenueTaken(Placements(c, data.existing), en.event, Slot(en.venue, en.start, en.end))
    ensures !data.week.isHectic ==> FindVenue(data.venues, en.venue).Some?
  {
    ZeroViolationsMeansFeasible(c, data, w, k);
  }
}
