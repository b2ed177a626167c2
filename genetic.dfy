/**
 * The genetic algorithm of `genetic.rs`. A chromosome is a sequence of process
 * ids; simulating it fires each affordable known process once, in order, until
 * the accumulated time reaches the delay; its fitness is the final quantity of
 * `client_content`. Each generation evaluates the population, keeps the fitter
 * half, refills it by one-point crossover of random survivors, and mutates
 * single genes. The random draws are parameters.
 */
module Genetic {

  import opened Wrappers
  import opened Resources

  const PopulationSize: nat := 150
  const GenerationCount: nat := 200
  /** The stock whose final quantity is the fitness, whatever the objectives are. */
  const ClientContent: string := "client_content"
  const U32: nat := 0x1_0000_0000

  // ---------------------------------------------------------------------
  // Simulation and fitness

  /**
   * `simulate`: the stocks and the accumulated time after walking the ids in
   * order. An unknown id or an unaffordable process (absent stock counting as
   * 0) is skipped; once the time reaches `delay` nothing more happens. Each
   * duration is cast to 32 bits before it is added.
   */
  function Simulate(ps: seq<Process>, s0: Stocks, chromosome: seq<string>, delay: nat): (Stocks, nat)
  {
    if |chromosome| == 0 then (s0, 0)
    else
      var prev := Simulate(ps, s0, chromosome[..|chromosome| - 1], delay);
      if prev.1 >= delay then prev
      else
        match Find(ps, chromosome[|chromosome| - 1])
        case None => prev
        case Some(p) => if Covers(prev.0, p.input, 1) then (Fire(prev.0, p, 1), prev.1 + p.time % U32) else prev
  }

  /** `evaluate_fitness`: the final quantity of `client_content`, 0 when absent. */
  function Fitness(ps: seq<Process>, s0: Stocks, chromosome: seq<string>, delay: nat): nat
  {
    Get(Simulate(ps, s0, chromosome, delay).0, ClientContent)
  }

  /** Once the time has reached the delay, the rest of the chromosome is ignored. */
  lemma {:induction false} SimulateStops(ps: seq<Process>, s0: Stocks, chromosome: seq<string>, delay: nat, j: nat)
    requires j <= |chromosome| && Simulate(ps, s0, chromosome[..j], delay).1 >= delay
    ensures Simulate(ps, s0, chromosome, delay) == Simulate(ps, s0, chromosome[..j], delay)
    decreases |chromosome| - j
  {
    if j == |chromosome| {
      assert chromosome[..j] == chromosome;
    } else {
      assert chromosome[..j + 1][..j] == chromosome[..j];
      SimulateStops(ps, s0, chromosome, delay, j + 1);
    }
  }

  /** The time never decreases along a chromosome, and a gene changes the stocks only by one run of its process. */
  lemma {:induction false} SimulateGene(ps: seq<Process>, s0: Stocks, chromosome: seq<string>, delay: nat)
    requires |chromosome| > 0
    ensures var prev := Simulate(ps, s0, chromosome[..|chromosome| - 1], delay);
            var next := Simulate(ps, s0, chromosome, delay);
            && prev.1 <= next.1
            && (next == prev || exists p :: p in ps && p.id == chromosome[|chromosome| - 1] && prev.1 < delay
                                  && Covers(prev.0, p.input, 1) && next == (Fire(prev.0, p, 1), prev.1 + p.time % U32))
  {
  }

  /** The precondition check `all(|(item, qty)| stock >= qty)`, absent counting as 0. */
  method Affordable(s: Stocks, items: seq<(string, nat)>) returns (ok: bool)
    ensures ok == Covers(s, items, 1)
  {
    for i := 0 to |items|
      invariant forall k :: 0 <= k < i ==> Get(s, items[k].0) >= items[k].1 * 1
    {
      var (name, amount) := items[i];
      if (if name in s then s[name] else 0) < amount {
        return false;
      }
    }
    return true;
  }

  method SimulateChromosome(data: Data, chromosome: seq<string>, delay: nat) returns (stocks: Stocks, time: nat)
    requires ValidProcesses(data.processes)
    ensures (stocks, time) == Simulate(data.processes, data.stocks, chromosome, delay)
  {
    stocks, time := data.stocks, 0;
    for j := 0 to |chromosome|
      invariant (stocks, time) == Simulate(data.processes, data.stocks, chromosome[..j], delay)
    {
      assert chromosome[..j + 1][..j] == chromosome[..j];
      if time >= delay {
        SimulateStops(data.processes, data.stocks, chromosome, delay, j);
        return;
      }
      match Find(data.processes, chromosome[j])
      case None =>
      case Some(p) =>
        assert ValidProcess(p);
        var ok := Affordable(stocks, p.input);
        if ok {
          stocks := ApplyFiring(stocks, p, 1);
          time := time + p.time % U32;
        }
    }
    assert chromosome[..|chromosome|] == chromosome;
  }

  method EvaluateFitness(data: Data, chromosome: seq<string>, delay: nat) returns (fitness: nat)
    requires ValidProcesses(data.processes)
    ensures fitness == Fitness(data.processes, data.stocks, chromosome, delay)
  {
    var stocks, _ := SimulateChromosome(data, chromosome, delay);
    fitness := if ClientContent in stocks then stocks[ClientContent] else 0;
  }

  // ---------------------------------------------------------------------
  // Populations

  datatype Individual = Individual(chromosome: seq<string>, fitness: nat)

  /** The process ids, in list order. */
  function Ids(ps: seq<Process>): (r: seq<string>)
    ensures |r| == |ps| && forall i :: 0 <= i < |ps| ==> r[i] == ps[i].id
  {
    if |ps| == 0 then [] else Ids(ps[..|ps| - 1]) + [ps[|ps| - 1].id]
  }

  /** `population_size` copies of the id list, each with fitness 0. */
  function InitialPopulation(ps: seq<Process>): (r: seq<Individual>)
    ensures |r| == PopulationSize && forall i :: 0 <= i < |r| ==> r[i] == Individual(Ids(ps), 0)
  {
    seq(PopulationSize, _ => Individual(Ids(ps), 0))
  }

  /** Every chromosome has length `len`. */
  predicate Uniform(pop: seq<Individual>, len: nat)
  {
    forall i :: 0 <= i < |pop| ==> |pop[i].chromosome| == len
  }

  /** The fitness loop: every individual re-scored from its own chromosome. */
  function Evaluated(ps: seq<Process>, s0: Stocks, delay: nat, pop: seq<Individual>): (r: seq<Individual>)
    ensures |r| == |pop|
    ensures forall i :: 0 <= i < |pop| ==> r[i] == pop[i].(fitness := Fitness(ps, s0, pop[i].chromosome, delay))
  {
    if |pop| == 0 then []
    else
      var last := pop[|pop| - 1];
      Evaluated(ps, s0, delay, pop[..|pop| - 1]) + [last.(fitness := Fitness(ps, s0, last.chromosome, delay))]
  }

  /** Place `x` before the first element that is no fitter, so that it stays ahead of its equals. */
  function Insert(x: Individual, sorted: seq<Individual>): seq<Individual>
  {
    if |sorted| == 0 then [x]
    else if sorted[0].fitness <= x.fitness then [x] + sorted
    else [sorted[0]] + Insert(x, sorted[1..])
  }

  /** The stable sort on `Reverse(fitness)`: fittest first, ties in their original order. */
  function SortByFitness(pop: seq<Individual>): seq<Individual>
  {
    if |pop| == 0 then [] else Insert(pop[0], SortByFitness(pop[1..]))
  }

  predicate Descending(pop: seq<Individual>)
  {
    forall i, j :: 0 <= i < j < |pop| ==> pop[i].fitness >= pop[j].fitness
  }

  /** Inserting adds `x` and keeps every element. */
  lemma {:induction false} InsertPerm(x: Individual, sorted: seq<Individual>)
    ensures multiset(Insert(x, sorted)) == multiset(sorted) + multiset{x}
    decreases |sorted|
  {
    if |sorted| > 0 && sorted[0].fitness > x.fitness {
      var rest := sorted[1..];
      assert sorted == [sorted[0]] + rest;
      InsertPerm(x, rest);
    }
  }

  /** Inserting into a population sorted fittest first keeps it sorted. */
  lemma {:induction false} InsertSorted(x: Individual, sorted: seq<Individual>)
    requires Descending(sorted)
    ensures Descending(Insert(x, sorted))
    decreases |sorted|
  {
    if |sorted| > 0 && sorted[0].fitness > x.fitness {
      var rest := sorted[1..];
      InsertSorted(x, rest);
      InsertBelow(x, rest, sorted[0].fitness);
      var tail := Insert(x, rest);
      var r := [sorted[0]] + tail;
      forall i, j | 0 <= i < j < |r| ensures r[i].fitness >= r[j].fitness {
        assert r[j] == tail[j - 1];
        if i > 0 {
          assert r[i] == tail[i - 1];
        }
      }
    }
  }

  /** Inserting below a bound stays below it. */
  lemma {:induction false} InsertBelow(x: Individual, s: seq<Individual>, bound: nat)
    requires x.fitness <= bound && forall i :: 0 <= i < |s| ==> s[i].fitness <= bound
    ensures forall i :: 0 <= i < |Insert(x, s)| ==> Insert(x, s)[i].fitness <= bound
    decreases |s|
  {
    if |s| > 0 && s[0].fitness > x.fitness {
      InsertBelow(x, s[1..], bound);
    }
  }

  /** The sorted population is a permutation of the population, fittest first. */
  lemma {:induction false} SortByFitnessFacts(pop: seq<Individual>)
    ensures multiset(SortByFitness(pop)) == multiset(pop)
    ensures Descending(SortByFitness(pop))
  {
    if |pop| > 0 {
      SortByFitnessFacts(pop[1..]);
      InsertPerm(pop[0], SortByFitness(pop[1..]));
      InsertSorted(pop[0], SortByFitness(pop[1..]));
      assert pop == [pop[0]] + pop[1..];
    }
  }

  /** `truncate(population_size / 2)`: the first half of the sorted population. */
  function Survivors(sorted: seq<Individual>): seq<Individual>
  {
    if |sorted| <= PopulationSize / 2 then sorted else sorted[..PopulationSize / 2]
  }

  /** No survivor is less fit than any individual that was dropped. */
  lemma SurvivorsFittest(pop: seq<Individual>)
    ensures var sorted := SortByFitness(pop);
            var kept := Survivors(sorted);
            && kept == sorted[..|kept|]
            && forall i, j :: 0 <= i < |kept| <= j < |sorted| ==> kept[i].fitness >= sorted[j].fitness
  {
    SortByFitnessFacts(pop);
  }

  /** One-point crossover: the head of the first parent and the tail of the second. */
  function Crossover(first: seq<string>, second: seq<string>, k: nat): seq<string>
    requires k <= |first| && k <= |second|
  {
    first[..k] + second[k..]
  }

  lemma CrossoverParts(first: seq<string>, second: seq<string>, k: nat)
    requires k <= |first| && k <= |second|
    ensures var child := Crossover(first, second, k);
            && |child| == |second|
            && (forall i :: 0 <= i < k ==> child[i] == first[i])
            && (forall i :: k <= i < |second| ==> child[i] == second[i])
  {
  }

  /**
   * One refill draw: `draw.0` and `draw.1` stand for the two parents and
   * `draw.2` for the crossover point in `0..len`, where `len` is the
   * common chromosome length.
   */
  function Offspring(parents: seq<Individual>, len: nat, draw: (nat, nat, nat)): Individual
    requires |parents| > 0 && len > 0 && Uniform(parents, len)
  {
    var first := parents[draw.0 % |parents|].chromosome;
    var second := parents[draw.1 % |parents|].chromosome;
    Individual(Crossover(first, second, draw.2 % len), 0)
  }

  /** The `while new_population.len() < population_size` loop: `n` offspring, in draw order. */
  function Children(parents: seq<Individual>, len: nat, draws: nat -> (nat, nat, nat), n: nat): (r: seq<Individual>)
    requires |parents| > 0 && len > 0 && Uniform(parents, len)
    ensures |r| == n && Uniform(r, len)
  {
    if n == 0 then [] else Children(parents, len, draws, n - 1) + [Offspring(parents, len, draws(n - 1))]
  }

  /** One mutation draw: `None` when the coin says no, else the gene and the process standing for the two ranges. */
  function Mutate(ps: seq<Process>, ind: Individual, m: Option<(nat, nat)>): (r: Individual)
    requires |ps| > 0 && |ind.chromosome| > 0
  {
    match m
    case None => ind
    case Some((point, pick)) =>
      ind.(chromosome := ind.chromosome[point % |ind.chromosome| := ps[pick % |ps|].id])
  }

  /** A mutation keeps the length and the fitness, and changes at most one gene, to some process id. */
  lemma MutateOneGene(ps: seq<Process>, ind: Individual, m: Option<(nat, nat)>)
    requires |ps| > 0 && |ind.chromosome| > 0
    ensures var r := Mutate(ps, ind, m);
            && |r.chromosome| == |ind.chromosome| && r.fitness == ind.fitness
            && exists g :: 0 <= g < |ind.chromosome|
                 && (forall i :: 0 <= i < |ind.chromosome| && i != g ==> r.chromosome[i] == ind.chromosome[i])
                 && (r.chromosome[g] == ind.chromosome[g] || exists p :: p in ps && r.chromosome[g] == p.id)
  {
    var r := Mutate(ps, ind, m);
    match m
    case None =>
      assert r.chromosome[0] == ind.chromosome[0];
    case Some((point, pick)) =>
      var g := point % |ind.chromosome|;
      assert ps[pick % |ps|] in ps;
      assert r.chromosome[g] == ps[pick % |ps|].id;
  }

  /** The mutation loop over the whole new population, `draws(i)` for individual `i`. */
  function Mutated(ps: seq<Process>, pop: seq<Individual>, len: nat, draws: nat -> Option<(nat, nat)>): (r: seq<Individual>)
    requires |ps| > 0 && len > 0 && Uniform(pop, len)
    ensures |r| == |pop| && Uniform(r, len)
    ensures forall i :: 0 <= i < |pop| ==> r[i] == Mutate(ps, pop[i], draws(i))
  {
    if |pop| == 0 then []
    else Mutated(ps, pop[..|pop| - 1], len, draws) + [Mutate(ps, pop[|pop| - 1], draws(|pop| - 1))]
  }

  /** Sorting keeps every chromosome length. */
  lemma SortedUniform(pop: seq<Individual>, len: nat)
    requires Uniform(pop, len)
    ensures Uniform(SortByFitness(pop), len)
  {
    SortByFitnessFacts(pop);
    var sorted := SortByFitness(pop);
    forall i | 0 <= i < |sorted| ensures |sorted[i].chromosome| == len {
      assert sorted[i] in multiset(pop);
    }
  }

  /** The survivors of an evaluated population: at least one, at most half of `population_size`. */
  function Parents(evaluated: seq<Individual>, len: nat): (r: seq<Individual>)
    requires |evaluated| > 0 && Uniform(evaluated, len)
    ensures 0 < |r| <= PopulationSize / 2 && |r| <= |evaluated| && Uniform(r, len)
  {
    SortedUniform(evaluated, len);
    SortByFitnessFacts(evaluated);
    var sorted := SortByFitness(evaluated);
    assert |sorted| == |multiset(sorted)| == |evaluated|;
    Survivors(sorted)
  }

  /** Refill the survivors to `population_size` with offspring, then mutate everyone. */
  function NextPopulation(ps: seq<Process>, parents: seq<Individual>, len: nat,
                          cross: nat -> (nat, nat, nat), mutation: nat -> Option<(nat, nat)>): (r: seq<Individual>)
    requires |ps| > 0 && len > 0 && 0 < |parents| <= PopulationSize && Uniform(parents, len)
    ensures |r| == PopulationSize && Uniform(r, len)
  {
    Mutated(ps, parents + Children(parents, len, cross, PopulationSize - |parents|), len, mutation)
  }

  /**
   * The next population begins with the survivors, each mutated at most once
   * and keeping the fitness it had before the mutation; the rest are offspring
   * scored 0.
   */
  lemma NextPopulationParts(ps: seq<Process>, parents: seq<Individual>, len: nat,
                            cross: nat -> (nat, nat, nat), mutation: nat -> Option<(nat, nat)>)
    requires |ps| > 0 && len > 0 && 0 < |parents| <= PopulationSize && Uniform(parents, len)
    ensures var r := NextPopulation(ps, parents, len, cross, mutation);
            && (forall i :: 0 <= i < |parents| ==> r[i] == Mutate(ps, parents[i], mutation(i)))
            && (forall i :: 0 <= i < |parents| ==> r[i].fitness == parents[i].fitness)
            && (forall i :: |parents| <= i < PopulationSize ==> r[i].fitness == 0)
  {
    var children := Children(parents, len, cross, PopulationSize - |parents|);
    var next := parents + children;
    var r := NextPopulation(ps, parents, len, cross, mutation);
    ChildrenUnscored(parents, len, cross, PopulationSize - |parents|);
    forall i | 0 <= i < PopulationSize
      ensures i < |parents| ==> r[i] == Mutate(ps, parents[i], mutation(i)) && r[i].fitness == parents[i].fitness
      ensures |parents| <= i ==> r[i].fitness == 0
    {
      if i < |parents| {
        assert next[i] == parents[i];
      } else {
        assert next[i] == children[i - |parents|];
      }
      MutateOneGene(ps, next[i], mutation(i));
    }
  }

  /**
   * One generation: evaluate, sort, keep the fitter half, refill to
   * `population_size` with offspring, mutate.
   */
  function Generation(ps: seq<Process>, s0: Stocks, delay: nat, pop: seq<Individual>, len: nat,
                      cross: nat -> (nat, nat, nat), mutation: nat -> Option<(nat, nat)>): (r: seq<Individual>)
    requires |ps| > 0 && len > 0 && |pop| > 0 && Uniform(pop, len)
    ensures |r| == PopulationSize && Uniform(r, len)
  {
    NextPopulation(ps, Parents(Evaluated(ps, s0, delay, pop), len), len, cross, mutation)
  }

  lemma {:induction false} ChildrenUnscored(parents: seq<Individual>, len: nat, draws: nat -> (nat, nat, nat), n: nat)
    requires |parents| > 0 && len > 0 && Uniform(parents, len)
    ensures forall i :: 0 <= i < n ==> Children(parents, len, draws, n)[i].fitness == 0
  {
    if n > 0 {
      ChildrenUnscored(parents, len, draws, n - 1);
    }
  }

  /** `max_by_key` on the fitness: the last individual of greatest fitness. */
  function LastFittest(pop: seq<Individual>): (r: nat)
    requires |pop| > 0
    ensures r < |pop|
    ensures forall j :: 0 <= j < |pop| ==> pop[j].fitness <= pop[r].fitness
    ensures forall j :: r < j < |pop| ==> pop[j].fitness < pop[r].fitness
  {
    if |pop| == 1 then 0
    else
      var b := LastFittest(pop[..|pop| - 1]);
      assert forall j :: 0 <= j < |pop| - 1 ==> pop[..|pop| - 1][j] == pop[j];
      if pop[|pop| - 1].fitness >= pop[b].fitness then |pop| - 1 else b
  }

  /** The draws of generation `g`. */
  function Draws<T>(draws: (nat, nat) -> T, g: nat): nat -> T
  {
    (i: nat) => draws(g, i)
  }

  /** `rounds` turns of the generations loop; `cross(g, i)` and `mutation(g, i)` are the draws of generation `g`. */
  function Evolve(ps: seq<Process>, s0: Stocks, delay: nat, pop: seq<Individual>, len: nat, rounds: nat,
                  cross: (nat, nat) -> (nat, nat, nat), mutation: (nat, nat) -> Option<(nat, nat)>): (r: seq<Individual>)
    requires |ps| > 0 && len > 0 && |pop| > 0 && Uniform(pop, len)
    ensures |r| > 0 && Uniform(r, len)
    ensures rounds > 0 ==> |r| == PopulationSize
  {
    if rounds == 0 then pop
    else
      var before := Evolve(ps, s0, delay, pop, len, rounds - 1, cross, mutation);
      Generation(ps, s0, delay, before, len, Draws(cross, rounds - 1), Draws(mutation, rounds - 1))
  }

  /** The result of `genetic_algorithm`: the kept fitness of the last fittest individual, and its simulated stocks. */
  function Outcome(ps: seq<Process>, s0: Stocks, delay: nat, pop: seq<Individual>): (nat, Stocks)
    requires |pop| > 0
  {
    var best := pop[LastFittest(pop)];
    (best.fitness, Simulate(ps, s0, best.chromosome, delay).0)
  }

  // ---------------------------------------------------------------------
  // The loops

  method EvaluatePopulation(data: Data, delay: nat, pop: seq<Individual>) returns (r: seq<Individual>)
    requires ValidProcesses(data.processes)
    ensures r == Evaluated(data.processes, data.stocks, delay, pop)
  {
    r := pop;
    for i := 0 to |pop|
      invariant |r| == |pop|
      invariant forall k :: 0 <= k < i ==> r[k] == pop[k].(fitness := Fitness(data.processes, data.stocks, pop[k].chromosome, delay))
      invariant forall k :: i <= k < |pop| ==> r[k] == pop[k]
    {
      var f := EvaluateFitness(data, r[i].chromosome, delay);
      r := r[i := r[i].(fitness := f)];
    }
  }

  method Refill(parents: seq<Individual>, len: nat, draws: nat -> (nat, nat, nat)) returns (r: seq<Individual>)
    requires |parents| > 0 && len > 0 && Uniform(parents, len) && |parents| <= PopulationSize
    ensures r == parents + Children(parents, len, draws, PopulationSize - |parents|)
  {
    r := parents;
    while |r| < PopulationSize
      invariant |parents| <= |r| <= PopulationSize
      invariant r == parents + Children(parents, len, draws, |r| - |parents|)
      decreases PopulationSize - |r|
    {
      var d := draws(|r| - |parents|);
      var first := parents[d.0 % |parents|];
      var second := parents[d.1 % |parents|];
      var point := d.2 % |first.chromosome|;
      r := r + [Individual(first.chromosome[..point] + second.chromosome[point..], 0)];
    }
  }

  method MutatePopulation(ps: seq<Process>, pop: seq<Individual>, len: nat, draws: nat -> Option<(nat, nat)>)
    returns (r: seq<Individual>)
    requires |ps| > 0 && len > 0 && Uniform(pop, len)
    ensures r == Mutated(ps, pop, len, draws)
  {
    r := pop;
    for i := 0 to |pop|
      invariant |r| == |pop|
      invariant forall k :: 0 <= k < i ==> r[k] == Mutate(ps, pop[k], draws(k))
      invariant forall k :: i <= k < |pop| ==> r[k] == pop[k]
    {
      match draws(i)
      case None =>
      case Some((point, pick)) =>
        var chromosome := r[i].chromosome;
        r := r[i := r[i].(chromosome := chromosome[point % |chromosome| := ps[pick % |ps|].id])];
    }
    MutatedEquals(ps, pop, len, draws, r);
  }

  lemma MutatedEquals(ps: seq<Process>, pop: seq<Individual>, len: nat, draws: nat -> Option<(nat, nat)>, r: seq<Individual>)
    requires |ps| > 0 && len > 0 && Uniform(pop, len)
    requires |r| == |pop| && forall k :: 0 <= k < |pop| ==> r[k] == Mutate(ps, pop[k], draws(k))
    ensures r == Mutated(ps, pop, len, draws)
  {
  }

  /** `genetic_algorithm`: the fitness and the final stocks of the chosen individual. */
  method GeneticAlgorithm(data: Data, delay: nat, cross: (nat, nat) -> (nat, nat, nat),
                          mutation: (nat, nat) -> Option<(nat, nat)>) returns (result: Option<(nat, Stocks)>)
    requires ValidProcesses(data.processes) && |data.processes| > 0
    ensures var last := Evolve(data.processes, data.stocks, delay, InitialPopulation(data.processes),
                               |data.processes|, GenerationCount, cross, mutation);
            result == Some(Outcome(data.processes, data.stocks, delay, last))
  {
    var ps, len := data.processes, |data.processes|;
    var population := InitialPopulation(ps);
    for g := 0 to GenerationCount
      invariant population == Evolve(ps, data.stocks, delay, InitialPopulation(ps), len, g, cross, mutation)
    {
      population := RunGeneration(data, delay, population, len, Draws(cross, g), Draws(mutation, g));
    }
    var best := LastFittestOf(population);
    var stocks, _ := SimulateChromosome(data, population[best].chromosome, delay);
    result := Some((population[best].fitness, stocks));
  }

  method RunGeneration(data: Data, delay: nat, pop: seq<Individual>, len: nat,
                       cross: nat -> (nat, nat, nat), mutation: nat -> Option<(nat, nat)>) returns (r: seq<Individual>)
    requires ValidProcesses(data.processes) && |data.processes| > 0 && len > 0 && |pop| > 0 && Uniform(pop, len)
    ensures r == Generation(data.processes, data.stocks, delay, pop, len, cross, mutation)
  {
    var parents := SelectSurvivors(data, delay, pop, len);
    r := Breed(data.processes, parents, len, cross, mutation);
  }

  /** Evaluate, sort and truncate. */
  method SelectSurvivors(data: Data, delay: nat, pop: seq<Individual>, len: nat) returns (parents: seq<Individual>)
    requires ValidProcesses(data.processes) && |pop| > 0 && Uniform(pop, len)
    ensures Uniform(Evaluated(data.processes, data.stocks, delay, pop), len)
    ensures parents == Parents(Evaluated(data.processes, data.stocks, delay, pop), len)
  {
    var evaluated := EvaluatePopulation(data, delay, pop);
    parents := Parents(evaluated, len);
  }

  /** Refill and mutate. */
  method Breed(ps: seq<Process>, parents: seq<Individual>, len: nat,
               cross: nat -> (nat, nat, nat), mutation: nat -> Option<(nat, nat)>) returns (r: seq<Individual>)
    requires |ps| > 0 && len > 0 && 0 < |parents| <= PopulationSize && Uniform(parents, len)
    ensures r == NextPopulation(ps, parents, len, cross, mutation)
  {
    var next := Refill(parents, len, cross);
    r := MutatePopulation(ps, next, len, mutation);
  }

  method LastFittestOf(pop: seq<Individual>) returns (best: nat)
    requires |pop| > 0
    ensures best == LastFittest(pop)
  {
    best := 0;
    for i := 1 to |pop|
      invariant best == LastFittest(pop[..i])
    {
      assert pop[..i + 1][..i] == pop[..i];
      if pop[i].fitness >= pop[best].fitness {
        best := i;
      }
    }
    assert pop[..|pop|] == pop;
  }
}
