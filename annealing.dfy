/**
 * The simulated annealing of `simmulated_annealing.rs`. A solution is a
 * sequence of process ids; its fitness is the negated weight of the stocks
 * left after simulating it, where each stock weighs its backward-BFS level
 * times its quantity, computed in 64 bits and cast to `i32`. Each round
 * perturbs one position; the perturbed solution replaces the current one when
 * it is at least as fit (the acceptance probability is then 1, above every
 * draw in [0, 1)) or when the coin of that round says so, and the best
 * solution is replaced on strictly greater fitness. The temperature schedule,
 * the exponential and the random draws are parameters: `draws(i)` is the
 * perturbation of round `i` and `lucky(i)` the outcome of its coin.
 */
module Annealing {

  import opened Wrappers
  import opened Resources
  import StockScores
  import Genetic

  const I32Half: int := 0x8000_0000
  const I32Span: int := 0x1_0000_0000

  datatype Solution = Solution(sequence: seq<string>, fitness: int, time: nat)

  // ---------------------------------------------------------------------
  // Simulation

  /**
   * `simulate`: walk the ids in order; an unknown id or an unaffordable
   * process (absent stock counting as 0) is skipped, an affordable one fires
   * once and adds its duration.
   */
  function Simulate(ps: seq<Process>, s0: Stocks, sequence: seq<string>): (Stocks, nat)
  {
    if |sequence| == 0 then (s0, 0)
    else
      var prev := Simulate(ps, s0, sequence[..|sequence| - 1]);
      match Find(ps, sequence[|sequence| - 1])
      case None => prev
      case Some(p) => if Covers(prev.0, p.input, 1) then (Fire(prev.0, p, 1), prev.1 + p.time) else prev
  }

  /**
   * This walk is the genetic algorithm's without its deadline: while the
   * total time stays below the delay, and no duration needs the 32-bit cast,
   * both give the same stocks and time.
   */
  lemma {:induction false} SimulateAgrees(ps: seq<Process>, s0: Stocks, sequence: seq<string>, delay: nat)
    requires forall p :: p in ps ==> p.time < Genetic.U32
    requires Simulate(ps, s0, sequence).1 < delay
    ensures Genetic.Simulate(ps, s0, sequence, delay) == Simulate(ps, s0, sequence)
  {
    if |sequence| > 0 {
      var front := sequence[..|sequence| - 1];
      assert Simulate(ps, s0, front).1 <= Simulate(ps, s0, sequence).1;
      SimulateAgrees(ps, s0, front, delay);
    }
  }

  method SimulateSequence(data: Data, sequence: seq<string>) returns (stocks: Stocks, time: nat)
    requires ValidProcesses(data.processes)
    ensures (stocks, time) == Simulate(data.processes, data.stocks, sequence)
  {
    stocks, time := data.stocks, 0;
    for j := 0 to |sequence|
      invariant (stocks, time) == Simulate(data.processes, data.stocks, sequence[..j])
    {
      assert sequence[..j + 1][..j] == sequence[..j];
      match Find(data.processes, sequence[j])
      case None =>
      case Some(p) =>
        assert ValidProcess(p);
        var ok := Genetic.Affordable(stocks, p.input);
        if ok {
          stocks := ApplyFiring(stocks, p, 1);
          time := time + p.time;
        }
    }
    assert sequence[..|sequence|] == sequence;
  }

  // ---------------------------------------------------------------------
  // Fitness

  /** What one stock adds to the weight. */
  function Contribution(scores: map<string, nat>, stock: Stocks, k: string): nat
    requires k in stock
  {
    Get(scores, k) * stock[k]
  }

  /** Some stock of a non-empty map: the entry the sum below takes out first. */
  ghost function Pick(stock: Stocks): (k: string)
    requires |stock.Keys| > 0
    ensures k in stock
  {
    var k :| k in stock; k
  }

  /** The sum over the stocks of score × quantity, a missing score counting as 0; the order of the sum does not matter. */
  ghost function Weight(scores: map<string, nat>, stock: Stocks): nat
    decreases |stock.Keys|
  {
    if |stock.Keys| == 0 then 0
    else
      var k := Pick(stock);
      assert (stock - {k}).Keys == stock.Keys - {k};
      Contribution(scores, stock, k) + Weight(scores, stock - {k})
  }

  /** Any stock can be taken out of the sum first. */
  lemma {:induction false} WeightRemove(scores: map<string, nat>, stock: Stocks, k: string)
    requires k in stock
    ensures Weight(scores, stock) == Contribution(scores, stock, k) + Weight(scores, stock - {k})
    decreases |stock.Keys|, 1
  {
    var j := Pick(stock);
    if j != k {
      WeightExchange(scores, stock, j, k);
    }
  }

  /** Taking out `j` first or `k` first gives the same sum. */
  lemma {:induction false} WeightExchange(scores: map<string, nat>, stock: Stocks, j: string, k: string)
    requires j in stock && k in stock && j != k
    ensures Contribution(scores, stock, j) + Weight(scores, stock - {j})
         == Contribution(scores, stock, k) + Weight(scores, stock - {k})
    decreases |stock.Keys|, 0
  {
    var withoutJ, withoutK := stock - {j}, stock - {k};
    assert withoutJ.Keys == stock.Keys - {j} && withoutK.Keys == stock.Keys - {k};
    assert k in withoutJ && Contribution(scores, withoutJ, k) == Contribution(scores, stock, k);
    assert j in withoutK && Contribution(scores, withoutK, j) == Contribution(scores, stock, j);
    WeightRemove(scores, withoutJ, k);
    WeightRemove(scores, withoutK, j);
    assert withoutJ - {k} == withoutK - {j};
  }

  /** Objectives score 0 in the table, so their quantities never count. */
  lemma WeightIgnoresObjectives(ps: seq<Process>, objectives: seq<string>, scores: map<string, nat>,
                                stock: Stocks, o: string)
    requires StockScores.Levels(ps, objectives, scores) && o in objectives && o in stock
    ensures Weight(scores, stock) == Weight(scores, stock - {o})
  {
    assert Get(scores, o) == 0;
    assert Contribution(scores, stock, o) == 0;
    WeightRemove(scores, stock, o);
  }

  /** The loop `stock.iter().map(...).sum()`, in whatever order the map yields its entries. */
  method WeightOf(scores: map<string, nat>, stock: Stocks) returns (fit: nat)
    ensures fit == Weight(scores, stock)
  {
    fit := 0;
    var rest := stock;
    while |rest.Keys| > 0
      invariant fit + Weight(scores, rest) == Weight(scores, stock)
      decreases |rest.Keys|
    {
      var k :| k in rest;
      WeightRemove(scores, rest, k);
      assert (rest - {k}).Keys == rest.Keys - {k};
      fit := fit + (if k in scores then scores[k] else 0) * rest[k];
      rest := rest - {k};
    }
  }

  /** `x as i32` for a 64-bit `x`: the low 32 bits read in two's complement. */
  function ToI32(x: nat): (r: int)
    ensures -I32Half <= r < I32Half
    ensures (x - r) % I32Span == 0
    ensures x < I32Half ==> r == x
  {
    var low := x % I32Span;
    if low < I32Half then low else low - I32Span
  }

  /** `-1 * x` on `i32`, wrapping as a release build does: only `i32::MIN` is its own negation. */
  function NegI32(x: int): (r: int)
    requires -I32Half <= x < I32Half
    ensures -I32Half <= r < I32Half
    ensures (r + x) % I32Span == 0
    ensures x > -I32Half ==> r == -x
  {
    if x == -I32Half then x else -x
  }

  /** `evaluate_fitness`: the negated weight of the simulated stocks, cast to `i32`, and the simulated time. */
  ghost function Evaluate(ps: seq<Process>, s0: Stocks, scores: map<string, nat>, sequence: seq<string>): (int, nat)
  {
    var (stock, time) := Simulate(ps, s0, sequence);
    (NegI32(ToI32(Weight(scores, stock))), time)
  }

  /** While the weight fits in 31 bits, the fitness is exactly its negation, so a fitter solution leaves less weight. */
  lemma FitnessIsNegatedWeight(ps: seq<Process>, s0: Stocks, scores: map<string, nat>, sequence: seq<string>)
    requires Weight(scores, Simulate(ps, s0, sequence).0) < I32Half
    ensures Evaluate(ps, s0, scores, sequence).0 == 0 - Weight(scores, Simulate(ps, s0, sequence).0) <= 0
  {
  }

  /** A weight of exactly 2^32 wraps to fitness 0, the value of an empty stock. */
  lemma FitnessWraps(ps: seq<Process>, s0: Stocks, scores: map<string, nat>, sequence: seq<string>)
    requires Weight(scores, Simulate(ps, s0, sequence).0) == I32Span
    ensures Evaluate(ps, s0, scores, sequence).0 == 0
  {
  }

  method EvaluateFitness(data: Data, scores: map<string, nat>, sequence: seq<string>) returns (fitness: int, time: nat)
    requires ValidProcesses(data.processes)
    ensures (fitness, time) == Evaluate(data.processes, data.stocks, scores, sequence)
  {
    var stock;
    stock, time := SimulateSequence(data, sequence);
    var fit := WeightOf(scores, stock);
    fitness := NegI32(ToI32(fit));
  }

  // ---------------------------------------------------------------------
  // Solutions

  /** `generate_initial_solution`: the ids in list order, fitness 0, time 0. */
  function InitialSolution(ps: seq<Process>): (r: Solution)
    ensures |r.sequence| == |ps| && r.fitness == 0 && r.time == 0
    ensures forall i :: 0 <= i < |ps| ==> r.sequence[i] == ps[i].id
  {
    Solution(Genetic.Ids(ps), 0, 0)
  }

  /** `perturb_solution`: `draw.0` picks the position and `draw.1` the process. */
  function Perturb(ps: seq<Process>, s: Solution, draw: (nat, nat)): Solution
    requires |ps| > 0 && |s.sequence| > 0
  {
    Solution(s.sequence[draw.0 % |s.sequence| := ps[draw.1 % |ps|].id], 0, 0)
  }

  /** A perturbation changes exactly one position, to the id of some process, and keeps the rest. */
  lemma PerturbOnePosition(ps: seq<Process>, s: Solution, draw: (nat, nat))
    requires |ps| > 0 && |s.sequence| > 0
    ensures var r := Perturb(ps, s, draw);
            && |r.sequence| == |s.sequence|
            && exists g, p :: 0 <= g < |s.sequence| && p in ps && r.sequence[g] == p.id
                 && forall i :: 0 <= i < |s.sequence| && i != g ==> r.sequence[i] == s.sequence[i]
  {
    var g, p := draw.0 % |s.sequence|, ps[draw.1 % |ps|];
    assert p in ps && Perturb(ps, s, draw).sequence[g] == p.id;
  }

  method PerturbSolution(ps: seq<Process>, s: Solution, draw: (nat, nat)) returns (r: Solution)
    requires |ps| > 0 && |s.sequence| > 0
    ensures r == Perturb(ps, s, draw)
  {
    var sequence := s.sequence;
    sequence := sequence[draw.0 % |sequence| := ps[draw.1 % |ps|].id];
    r := Solution(sequence, 0, 0);
  }

  /** The solution with the fitness and time of its own sequence, as the main loop stores them. */
  ghost function Scored(ps: seq<Process>, s0: Stocks, scores: map<string, nat>, s: Solution): Solution
  {
    var (fitness, time) := Evaluate(ps, s0, scores, s.sequence);
    s.(fitness := fitness, time := time)
  }

  /** A stored solution: right length, and fitness and time those of its sequence. */
  ghost predicate Consistent(ps: seq<Process>, s0: Stocks, scores: map<string, nat>, s: Solution)
  {
    |s.sequence| == |ps| && s == Scored(ps, s0, scores, s)
  }

  lemma ScoredConsistent(ps: seq<Process>, s0: Stocks, scores: map<string, nat>, s: Solution)
    requires |s.sequence| == |ps|
    ensures Consistent(ps, s0, scores, Scored(ps, s0, scores, s))
  {
  }

  /**
   * One round: perturb, score, accept when at least as fit or when the coin
   * says so (the probability is 1 when strictly fitter and `exp(0) = 1` when
   * equally fit, and a draw from [0, 1) is below 1), then keep the best on
   * strictly greater fitness.
   */
  ghost function Round(ps: seq<Process>, s0: Stocks, scores: map<string, nat>, current: Solution, best: Solution,
                       draw: (nat, nat), lucky: bool): (Solution, Solution)
    requires |ps| > 0 && |current.sequence| == |ps|
  {
    var candidate := Scored(ps, s0, scores, Perturb(ps, current, draw));
    var next := if candidate.fitness >= current.fitness || lucky then candidate else current;
    (next, if next.fitness > best.fitness then next else best)
  }

  /** `rounds` rounds from the scored initial solution. */
  ghost function Anneal(ps: seq<Process>, s0: Stocks, scores: map<string, nat>, rounds: nat,
                        draws: nat -> (nat, nat), lucky: nat -> bool): (r: (Solution, Solution))
    requires |ps| > 0
    ensures |r.0.sequence| == |ps|
  {
    if rounds == 0 then
      var initial := Scored(ps, s0, scores, InitialSolution(ps));
      (initial, initial)
    else
      var (current, best) := Anneal(ps, s0, scores, rounds - 1, draws, lucky);
      Round(ps, s0, scores, current, best, draws(rounds - 1), lucky(rounds - 1))
  }

  /**
   * A round accepts a candidate at least as fit as the current solution
   * whatever the coin, keeps the current solution when the candidate is less
   * fit and the coin says no, accepts it when the coin says yes, and replaces
   * the best only by a strictly fitter current solution.
   */
  lemma RoundRules(ps: seq<Process>, s0: Stocks, scores: map<string, nat>, current: Solution, best: Solution,
                   draw: (nat, nat), lucky: bool)
    requires |ps| > 0 && |current.sequence| == |ps|
    ensures var candidate := Scored(ps, s0, scores, Perturb(ps, current, draw));
            var r := Round(ps, s0, scores, current, best, draw, lucky);
            && (candidate.fitness >= current.fitness ==> r.0 == candidate)
            && (candidate.fitness < current.fitness && !lucky ==> r.0 == current)
            && (lucky ==> r.0 == candidate)
            && (r.1 == best || (r.1 == r.0 && r.0.fitness > best.fitness))
            && r.1.fitness >= best.fitness && r.1.fitness >= r.0.fitness
  {
  }

  /**
   * After any number of rounds both solutions are consistent, the best is
   * at least as fit as the current one and as the initial one, and it never
   * got worse from one round to the next.
   */
  lemma {:induction false} AnnealFacts(ps: seq<Process>, s0: Stocks, scores: map<string, nat>, rounds: nat,
                                       draws: nat -> (nat, nat), lucky: nat -> bool)
    requires |ps| > 0
    ensures var r := Anneal(ps, s0, scores, rounds, draws, lucky);
            && Consistent(ps, s0, scores, r.0) && Consistent(ps, s0, scores, r.1)
            && r.1.fitness >= r.0.fitness
            && r.1.fitness >= Evaluate(ps, s0, scores, InitialSolution(ps).sequence).0
            && (rounds > 0 ==> r.1.fitness >= Anneal(ps, s0, scores, rounds - 1, draws, lucky).1.fitness)
  {
    if rounds > 0 {
      AnnealFacts(ps, s0, scores, rounds - 1, draws, lucky);
      var prev := Anneal(ps, s0, scores, rounds - 1, draws, lucky);
      AnnealLast(ps, s0, scores, rounds, draws, lucky);
      RoundKeeps(ps, s0, scores, prev.0, prev.1, draws(rounds - 1), lucky(rounds - 1));
    } else {
      ScoredConsistent(ps, s0, scores, InitialSolution(ps));
    }
  }

  lemma {:induction false} AnnealLast(ps: seq<Process>, s0: Stocks, scores: map<string, nat>, rounds: nat,
                                      draws: nat -> (nat, nat), lucky: nat -> bool)
    requires |ps| > 0 && rounds > 0
    ensures var prev := Anneal(ps, s0, scores, rounds - 1, draws, lucky);
      Anneal(ps, s0, scores, rounds, draws, lucky) == Round(ps, s0, scores, prev.0, prev.1, draws(rounds - 1), lucky(rounds - 1))
  {
  }

  /** A round keeps both solutions consistent and the best at least as fit as before and as the current one. */
  lemma {:induction false} RoundKeeps(ps: seq<Process>, s0: Stocks, scores: map<string, nat>, current: Solution,
                                      best: Solution, draw: (nat, nat), lucky: bool)
    requires |ps| > 0 && |current.sequence| == |ps|
    requires Consistent(ps, s0, scores, current) && Consistent(ps, s0, scores, best)
    ensures var r := Round(ps, s0, scores, current, best, draw, lucky);
            && Consistent(ps, s0, scores, r.0) && Consistent(ps, s0, scores, r.1)
            && r.1.fitness >= r.0.fitness && r.1.fitness >= best.fitness
  {
    RoundRules(ps, s0, scores, current, best, draw, lucky);
    ScoredConsistent(ps, s0, scores, Perturb(ps, current, draw));
  }

  /** What `simmulated_annealing` returns: the simulated time and stocks of the best sequence. */
  ghost function Outcome(ps: seq<Process>, s0: Stocks, best: Solution): (nat, Stocks)
  {
    var (stock, time) := Simulate(ps, s0, best.sequence);
    (time, stock)
  }

  // ---------------------------------------------------------------------
  // The main loop

  method AnnealRounds(data: Data, scores: map<string, nat>, rounds: nat, draws: nat -> (nat, nat), lucky: nat -> bool)
    returns (current: Solution, best: Solution)
    requires ValidProcesses(data.processes) && |data.processes| > 0
    ensures (current, best) == Anneal(data.processes, data.stocks, scores, rounds, draws, lucky)
  {
    var ps := data.processes;
    current := InitialSolution(ps);
    var fitness, time := EvaluateFitness(data, scores, current.sequence);
    current := current.(fitness := fitness, time := time);
    best := current;
    for i := 0 to rounds
      invariant (current, best) == Anneal(ps, data.stocks, scores, i, draws, lucky)
    {
      current, best := AnnealRound(data, scores, current, best, draws(i), lucky(i));
    }
  }

  /** The body of the temperature loop. */
  method AnnealRound(data: Data, scores: map<string, nat>, current: Solution, best: Solution,
                     draw: (nat, nat), lucky: bool) returns (current': Solution, best': Solution)
    requires ValidProcesses(data.processes) && |data.processes| > 0 && |current.sequence| == |data.processes|
    ensures (current', best') == Round(data.processes, data.stocks, scores, current, best, draw, lucky)
  {
    var candidate := PerturbSolution(data.processes, current, draw);
    var fitness, time := EvaluateFitness(data, scores, candidate.sequence);
    candidate := candidate.(fitness := fitness, time := time);
    current' := if candidate.fitness >= current.fitness || lucky then candidate else current;
    best' := if current'.fitness > best.fitness then current' else best;
  }

  /**
   * `simmulated_annealing`: the stock scores of the backward search, `rounds`
   * rounds, then the simulated time and stocks of the best sequence.
   */
  method SimulatedAnnealing(data: Data, rounds: nat, draws: nat -> (nat, nat), lucky: nat -> bool)
    returns (result: Option<(nat, Stocks)>)
    requires ValidProcesses(data.processes) && |data.processes| > 0
    ensures exists scores :: StockScores.Levels(data.processes, data.objectives, scores)
              && result == Some(Outcome(data.processes, data.stocks,
                                        Anneal(data.processes, data.stocks, scores, rounds, draws, lucky).1))
  {
    var scores := StockScores.PrecomputeStockScores(data);
    var _, best := AnnealRounds(data, scores, rounds, draws, lucky);
    var stock, time := SimulateSequence(data, best.sequence);
    result := Some((time, stock));
  }
}
