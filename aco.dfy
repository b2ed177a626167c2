/**
 * The deterministic parts of the ant colony optimisation of `aco.rs`: the unit
 * firing `update_stocks_and_time`, the objective sums, the replay of a solution
 * in `evaluate_solution`, the candidate filter of `select_next_processes`, the
 * step and stop rules of `construct_solution`, and the rule that keeps the best
 * ant. The random draws (which candidate the roulette wheel lands on, and how
 * many runs are asked of it) are parameters; the pheromone weights only shape
 * those draws and are not modelled.
 */
module Aco {

  import opened Wrappers
  import opened Resources
  import StateSpace

  // ---------------------------------------------------------------------
  // Unit firing and objective sums

  /**
   * `update_stocks_and_time`: a process runs once only when every input is
   * present with at least its amount; otherwise nothing changes.
   */
  method UpdateStocksAndTime(s: Stocks, p: Process) returns (ok: bool, r: Stocks)
    requires ValidProcess(p)
    ensures ok == Holds(s, p.input)
    ensures r == if ok then Fire(s, p, 1) else s
  {
    r := s;
    for i := 0 to |p.input|
      invariant forall k :: 0 <= k < i ==> p.input[k].0 in s && s[p.input[k].0] >= p.input[k].1
    {
      var (name, amount) := p.input[i];
      if name !in s || s[name] < amount {
        return false, s;
      }
    }
    HoldsIffCovers(s, p.input);
    r := ApplyFiring(s, p, 1);
    ok := true;
  }

  /**
   * `evaluate_objective`: the quantities of the objectives that are present;
   * an absent objective adds nothing, so this is the objective value.
   */
  method EvaluateObjective(objectives: seq<string>, s: Stocks) returns (score: nat)
    ensures score == ObjectiveValue(s, objectives)
  {
    score := 0;
    for j := 0 to |objectives|
      invariant score == ObjectiveValue(s, objectives[..j])
    {
      assert objectives[..j + 1][..j] == objectives[..j];
      if objectives[j] in s {
        score := score + s[objectives[j]];
      }
    }
    assert objectives[..|objectives|] == objectives;
  }

  /**
   * `k` unit attempts of `p` in a row: the stocks afterwards and how many of the
   * attempts succeeded.
   */
  function Attempts(s: Stocks, p: Process, k: nat): (Stocks, nat)
  {
    if k == 0 then (s, 0)
    else
      var prev := Attempts(s, p, k - 1);
      if Holds(prev.0, p.input) then (Fire(prev.0, p, 1), prev.1 + 1) else prev
  }

  /** At most `k` attempts succeed, and once one fails every later one fails too. */
  lemma {:induction false} AttemptsStuck(s: Stocks, p: Process, k: nat)
    ensures Attempts(s, p, k).1 <= k
    ensures Attempts(s, p, k).1 < k ==> !Holds(Attempts(s, p, k).0, p.input)
  {
    if k > 0 {
      AttemptsStuck(s, p, k - 1);
    }
  }

  /** Asking only for the attempts that succeeded gives the same stocks and the same count. */
  lemma {:induction false} AttemptsPrefix(s: Stocks, p: Process, k: nat)
    ensures Attempts(s, p, Attempts(s, p, k).1) == Attempts(s, p, k)
  {
    if k > 0 {
      AttemptsStuck(s, p, k - 1);
      var prev := Attempts(s, p, k - 1);
      if prev.1 < k - 1 {
        AttemptsPrefix(s, p, k - 1);
      }
    }
  }

  /** A process that can run once succeeds at least once when asked for one run or more. */
  lemma {:induction false} AttemptsFirst(s: Stocks, p: Process, k: nat)
    requires Holds(s, p.input) && k >= 1
    ensures Attempts(s, p, k).1 >= 1
  {
    if k > 1 {
      AttemptsFirst(s, p, k - 1);
    }
  }

  /** The inner `for _ in 0..count` loop of a replay: the stocks and the longest duration that ran. */
  method RunUnits(s: Stocks, p: Process, count: nat) returns (r: Stocks, maxTime: nat)
    requires ValidProcess(p)
    ensures r == Attempts(s, p, count).0
    ensures maxTime == if Attempts(s, p, count).1 > 0 then p.time else 0
  {
    r, maxTime := s, 0;
    for i := 0 to count
      invariant r == Attempts(s, p, i).0
      invariant maxTime == if Attempts(s, p, i).1 > 0 then p.time else 0
    {
      var ok;
      ok, r := UpdateStocksAndTime(r, p);
      if ok && p.time > maxTime {
        maxTime := p.time;
      }
    }
  }

  // ---------------------------------------------------------------------
  // Replaying a solution

  /**
   * `evaluate_solution` without its objective sum: each `(id, count)` entry
   * makes `count` unit attempts of the first process with that id (none for an
   * unknown id), and adds the duration when at least one attempt succeeded.
   */
  function Evaluate(ps: seq<Process>, s0: Stocks, solution: seq<(string, nat)>): (Stocks, nat)
  {
    if |solution| == 0 then (s0, 0)
    else ReplayEntry(ps, Evaluate(ps, s0, solution[..|solution| - 1]), solution[|solution| - 1])
  }

  /** One `(id, count)` entry replayed on the stocks and clock `prev`. */
  function ReplayEntry(ps: seq<Process>, prev: (Stocks, nat), entry: (string, nat)): (Stocks, nat)
  {
    match Find(ps, entry.0)
    case None => prev
    case Some(p) =>
      var after := Attempts(prev.0, p, entry.1);
      (after.0, prev.1 + if after.1 > 0 then p.time else 0)
  }

  method EvaluateSolution(data: Data, solution: seq<(string, nat)>) returns (score: nat, totalTime: nat, stocks: Stocks)
    requires ValidProcesses(data.processes)
    ensures (stocks, totalTime) == Evaluate(data.processes, data.stocks, solution)
    ensures score == ObjectiveValue(stocks, data.objectives)
  {
    stocks, totalTime := data.stocks, 0;
    for j := 0 to |solution|
      invariant (stocks, totalTime) == Evaluate(data.processes, data.stocks, solution[..j])
    {
      assert solution[..j + 1][..j] == solution[..j];
      var (id, count) := solution[j];
      var maxTime := 0;
      match Find(data.processes, id)
      case None =>
      case Some(p) =>
        assert ValidProcess(p);
        stocks, maxTime := RunUnits(stocks, p, count);
      totalTime := totalTime + maxTime;
    }
    assert solution[..|solution|] == solution;
    score := EvaluateObjective(data.objectives, stocks);
  }

  // ---------------------------------------------------------------------
  // Candidates and selection

  /**
   * The `max_count` loop of `select_next_processes`: the smallest
   * `stock / amount` over the inputs, starting from `u64::MAX`, and 0 as soon
   * as an input is absent.
   */
  function Capacity(s: Stocks, items: seq<(string, nat)>): nat
    requires PositiveAmounts(items)
  {
    if |items| == 0 then U64_MAX
    else
      var rest := Capacity(s, items[..|items| - 1]);
      var (name, amount) := items[|items| - 1];
      var last := if name in s then s[name] / amount else 0;
      if last < rest then last else rest
  }

  /** A process is a candidate (`max_count > 0`) exactly when it can run once. */
  lemma {:induction false} CapacityHolds(s: Stocks, items: seq<(string, nat)>)
    requires PositiveAmounts(items)
    ensures Capacity(s, items) > 0 <==> Holds(s, items)
  {
    if |items| > 0 {
      var pre := items[..|items| - 1];
      CapacityHolds(s, pre);
      var (name, amount) := items[|items| - 1];
      if name in s {
        DivBound(s[name], amount, 1);
      }
      assert Holds(s, items) <==> Holds(s, pre) && name in s && s[name] >= amount by {
        assert forall i :: 0 <= i < |pre| ==> pre[i] == items[i];
      }
    }
  }

  method CapacityOf(s: Stocks, items: seq<(string, nat)>) returns (maxCount: nat)
    requires PositiveAmounts(items)
    ensures maxCount == Capacity(s, items)
  {
    maxCount := U64_MAX;
    for i := 0 to |items|
      invariant maxCount == Capacity(s, items[..i])
    {
      assert items[..i + 1][..i] == items[..i];
      var (name, amount) := items[i];
      if name in s {
        if s[name] / amount < maxCount {
          maxCount := s[name] / amount;
        }
      } else {
        maxCount := 0;
        CapacityZero(s, items, i + 1);
        assert items[..|items|] == items;
        return;
      }
    }
    assert items[..|items|] == items;
  }

  /** Once the capacity of a prefix is 0, so is the capacity of the whole list. */
  lemma {:induction false} CapacityZero(s: Stocks, items: seq<(string, nat)>, i: nat)
    requires PositiveAmounts(items) && i <= |items| && Capacity(s, items[..i]) == 0
    ensures Capacity(s, items) == 0
    decreases |items| - i
  {
    if i < |items| {
      assert items[..i + 1][..i] == items[..i];
      CapacityZero(s, items, i + 1);
    } else {
      assert items[..i] == items;
    }
  }

  /** The processes with a positive `max_count`, in order, each with that count. */
  function Candidates(s: Stocks, ps: seq<Process>): seq<(Process, nat)>
    requires ValidProcesses(ps)
  {
    if |ps| == 0 then []
    else
      var p := ps[|ps| - 1];
      Candidates(s, ps[..|ps| - 1]) + (if Capacity(s, p.input) > 0 then [(p, Capacity(s, p.input))] else [])
  }

  lemma {:induction false} CandidatesMembers(s: Stocks, ps: seq<Process>, e: (Process, nat))
    requires ValidProcesses(ps)
    ensures e in Candidates(s, ps) <==> e.0 in ps && Holds(s, e.0.input) && e.1 == Capacity(s, e.0.input)
  {
    if |ps| > 0 {
      CandidatesMembers(s, ps[..|ps| - 1], e);
      assert ps == ps[..|ps| - 1] + [ps[|ps| - 1]];
      if e.0 in ps {
        CapacityHolds(s, e.0.input);
      }
    } else {
      assert e !in Candidates(s, ps);
    }
  }

  /**
   * One roulette draw. `draw.0` stands for the candidate the weighted wheel
   * lands on and `draw.1` for the count asked of it, in `1..=max_count`. No
   * candidate gives no selection.
   */
  function Select(cands: seq<(Process, nat)>, draw: (nat, nat)): Option<(Process, nat)>
  {
    if |cands| == 0 then None
    else
      var (p, max) := cands[draw.0 % |cands|];
      Some((p, if max == 0 then 1 else 1 + draw.1 % max))
  }

  /** A selected process is one of the list, so its inputs are well formed. */
  lemma SelectedValid(ps: seq<Process>, s: Stocks, draw: (nat, nat))
    requires ValidProcesses(ps)
    ensures var choice := Select(Candidates(s, ps), draw);
            choice.Some? ==> choice.value.0 in ps && ValidProcess(choice.value.0)
  {
    var cands := Candidates(s, ps);
    if |cands| > 0 {
      var e := cands[draw.0 % |cands|];
      CandidatesMembers(s, ps, e);
    }
  }

  /** `select_next_processes`: the candidate loop, then the draw. */
  method SelectNextProcesses(ps: seq<Process>, s: Stocks, draw: (nat, nat)) returns (selected: seq<(Process, nat)>)
    requires ValidProcesses(ps)
    ensures selected == match Select(Candidates(s, ps), draw) case None => [] case Some(x) => [x]
  {
    var cands := [];
    for j := 0 to |ps|
      invariant cands == Candidates(s, ps[..j])
    {
      assert ps[..j + 1][..j] == ps[..j];
      assert ValidProcess(ps[j]);
      var maxCount := CapacityOf(s, ps[j].input);
      if maxCount > 0 {
        cands := cands + [(ps[j], maxCount)];
      }
    }
    assert ps[..|ps|] == ps;
    selected := [];
    if |cands| > 0 {
      var (p, max) := cands[draw.0 % |cands|];
      selected := [(p, if max == 0 then 1 else 1 + draw.1 % max)];
    }
  }

  // ---------------------------------------------------------------------
  // Building one ant's solution

  /**
   * One ant's progress: its stocks, the solution and log it returns, the runs
   * that actually fired (one entry per step), its clock, the steps taken, the
   * last objective score and the count of non-improving steps.
   */
  datatype Ant = Ant(stocks: Stocks, solution: seq<(string, nat)>, runs: seq<(string, nat)>, log: seq<LogRecord>,
                     time: nat, steps: nat, lastScore: nat, stalled: nat)

  function Initial(data: Data): Ant
  {
    Ant(data.stocks, [], [], [], 0, 0, 0, 0)
  }

  /** `m` copies of one solution entry. */
  function Copies(e: (string, nat), m: nat): seq<(string, nat)>
  {
    seq(m, _ => e)
  }

  /**
   * The loop body once `process` is selected with `count`: attempt `count` unit
   * runs, pushing `(id, count)` for each that succeeds, log the step at the old
   * clock and advance the clock by the duration. `None` when nothing ran.
   */
  function Advance(objectives: seq<string>, ant: Ant, p: Process, count: nat): Option<Ant>
  {
    var after := Attempts(ant.stocks, p, count);
    if after.1 == 0 then None
    else
      var score := ObjectiveValue(after.0, objectives);
      Some(Ant(after.0, ant.solution + Copies((p.id, count), after.1), ant.runs + [(p.id, after.1)],
               ant.log + [LogRecord(p.id, count, ant.time)], ant.time + p.time, ant.steps + 1, score,
               if score <= ant.lastScore then ant.stalled + 1 else 0))
  }

  /** One pass of the loop after its stop tests; `None` when nothing was selected or nothing ran. */
  function Step(ps: seq<Process>, objectives: seq<string>, ant: Ant, draw: (nat, nat)): Option<Ant>
    requires ValidProcesses(ps)
  {
    match Select(Candidates(ant.stocks, ps), draw)
    case None => None
    case Some(choice) => Advance(objectives, ant, choice.0, choice.1)
  }

  /** A step that does something ran a process of the list that could run once, asked for at least one run. */
  lemma StepOrigin(ps: seq<Process>, objectives: seq<string>, ant: Ant, draw: (nat, nat)) returns (p: Process, count: nat)
    requires ValidProcesses(ps)
    ensures Step(ps, objectives, ant, draw).Some? ==>
              && p in ps && Holds(ant.stocks, p.input) && count >= 1
              && Step(ps, objectives, ant, draw) == Advance(objectives, ant, p, count)
  {
    var cands := Candidates(ant.stocks, ps);
    if |cands| > 0 {
      var e := cands[draw.0 % |cands|];
      CandidatesMembers(ant.stocks, ps, e);
      p, count := e.0, if e.1 == 0 then 1 else 1 + draw.1 % e.1;
    } else {
      p, count := Process([], [], [], 0), 0;
    }
  }

  /** The draw of step `t`: the random stream as a sequence, read as `(0, 0)` past its end. */
  function DrawAt(draws: seq<(nat, nat)>, t: nat): (nat, nat)
  {
    if t < |draws| then draws[t] else (0, 0)
  }

  /**
   * `construct_solution`: each pass first reads the timer flag (`unset` reads
   * still find it clear), then stops after 50 steps or more than 5 stalled
   * steps, then stops when a step does nothing. `DrawAt(draws, t)` is the draw of step `t`.
   */
  function Construct(ps: seq<Process>, objectives: seq<string>, ant: Ant, unset: nat, draws: seq<(nat, nat)>): Ant
    requires ValidProcesses(ps)
    decreases unset
  {
    if unset == 0 || ant.steps + 1 > 50 || ant.stalled > 5 then ant
    else
      match Step(ps, objectives, ant, DrawAt(draws, ant.steps))
      case None => ant
      case Some(next) => Construct(ps, objectives, next, unset - 1, draws)
  }

  /** The body of the loop, after the stop tests. */
  method AntStep(ps: seq<Process>, objectives: seq<string>, ant: Ant, draw: (nat, nat)) returns (next: Option<Ant>)
    requires ValidProcesses(ps)
    ensures next == Step(ps, objectives, ant, draw)
  {
    var selected := SelectNextProcesses(ps, ant.stocks, draw);
    if |selected| == 0 {
      return None;
    }
    SelectedValid(ps, ant.stocks, draw);
    var (p, count) := selected[0];
    var stocks, solution := ant.stocks, ant.solution;
    var maxTime, executed := 0, false;
    var m := 0;
    for i := 0 to count
      invariant (stocks, m) == Attempts(ant.stocks, p, i)
      invariant solution == ant.solution + Copies((p.id, count), m)
      invariant executed <==> m > 0
      invariant maxTime == if m > 0 then p.time else 0
    {
      var ok;
      ok, stocks := UpdateStocksAndTime(stocks, p);
      if ok {
        solution := solution + [(p.id, count)];
        m := m + 1;
        if p.time > maxTime {
          maxTime := p.time;
        }
        executed := true;
      }
    }
    if !executed {
      return None;
    }
    var score := EvaluateObjective(objectives, stocks);
    next := Some(Ant(stocks, solution, ant.runs + [(p.id, m)], ant.log + [LogRecord(p.id, count, ant.time)],
                     ant.time + maxTime, ant.steps + 1, score, if score <= ant.lastScore then ant.stalled + 1 else 0));
  }

  /** `construct_solution`: the solution and the log of one ant. */
  method ConstructSolution(data: Data, unset: nat, draws: seq<(nat, nat)>)
    returns (solution: seq<(string, nat)>, log: seq<LogRecord>)
    requires ValidProcesses(data.processes)
    ensures solution == Construct(data.processes, data.objectives, Initial(data), unset, draws).solution
    ensures log == Construct(data.processes, data.objectives, Initial(data), unset, draws).log
  {
    var ant := Initial(data);
    var left := unset;
    while true
      invariant Construct(data.processes, data.objectives, Initial(data), unset, draws)
             == Construct(data.processes, data.objectives, ant, left, draws)
      decreases left
    {
      if left == 0 {
        break;
      }
      left := left - 1;
      if ant.steps + 1 > 50 || ant.stalled > 5 {
        break;
      }
      var next := AntStep(data.processes, data.objectives, ant, DrawAt(draws, ant.steps));
      if next.None? {
        break;
      }
      ant := next.value;
    }
    solution, log := ant.solution, ant.log;
  }

  // ---------------------------------------------------------------------
  // What an ant does

  /** A selected candidate always runs at least once, so the "nothing ran" stop never fires after a selection. */
  lemma StepExecutes(ps: seq<Process>, objectives: seq<string>, ant: Ant, draw: (nat, nat))
    requires ValidProcesses(ps)
    ensures Step(ps, objectives, ant, draw).None? <==> |Candidates(ant.stocks, ps)| == 0
  {
    var cands := Candidates(ant.stocks, ps);
    if |cands| > 0 {
      var e := cands[draw.0 % |cands|];
      CandidatesMembers(ant.stocks, ps, e);
      var count := if e.1 == 0 then 1 else 1 + draw.1 % e.1;
      AttemptsFirst(ant.stocks, e.0, count);
    }
  }

  /**
   * An ant stops after at most 50 steps with at most 6 stalled ones, logs
   * exactly one record and one run entry per step, and its clock is the sum of
   * the durations of the processes it ran.
   */
  lemma {:induction false} ConstructBounds(ps: seq<Process>, objectives: seq<string>, ant: Ant, unset: nat,
                                           draws: seq<(nat, nat)>)
    requires ValidProcesses(ps)
    requires ant.steps <= 50 && ant.stalled <= 6 && |ant.log| == ant.steps && |ant.runs| == ant.steps
    ensures var r := Construct(ps, objectives, ant, unset, draws);
            && ant.steps <= r.steps <= 50 && r.stalled <= 6 && |r.log| == r.steps && |r.runs| == r.steps
            && ant.log <= r.log && ant.solution <= r.solution
    decreases unset
  {
    if !(unset == 0 || ant.steps + 1 > 50 || ant.stalled > 5) {
      var p, count := StepOrigin(ps, objectives, ant, DrawAt(draws, ant.steps));
      var next := Step(ps, objectives, ant, DrawAt(draws, ant.steps));
      if next.Some? {
        AdvanceGrows(objectives, ant, p, count);
        ConstructUnfold(ps, objectives, ant, unset, draws);
        ConstructBounds(ps, objectives, next.value, unset - 1, draws);
      }
    }
  }

  /** A step that does something adds one step, one log record and one run, and only appends. */
  lemma AdvanceGrows(objectives: seq<string>, ant: Ant, p: Process, count: nat)
    ensures var next := Advance(objectives, ant, p, count);
            next.Some? ==>
              && next.value.steps == ant.steps + 1 && next.value.stalled <= ant.stalled + 1
              && next.value.log == ant.log + [LogRecord(p.id, count, ant.time)]
              && next.value.runs == ant.runs + [(p.id, Attempts(ant.stocks, p, count).1)]
              && next.value.solution[..|ant.solution|] == ant.solution
  {
  }

  /** Replaying the runs of `ant` from `s0` yields its stocks and its clock. */
  predicate Replays(ps: seq<Process>, s0: Stocks, ant: Ant)
  {
    Evaluate(ps, s0, ant.runs) == (ant.stocks, ant.time)
  }

  /** One step keeps the ant explained by its runs. */
  lemma AdvanceReplays(ps: seq<Process>, objectives: seq<string>, s0: Stocks, ant: Ant, p: Process, count: nat)
    requires StateSpace.DistinctIds(ps) && p in ps
    requires Replays(ps, s0, ant)
    ensures var next := Advance(objectives, ant, p, count);
            next.Some? ==> Replays(ps, s0, next.value)
  {
    var after := Attempts(ant.stocks, p, count);
    if after.1 > 0 {
      StateSpace.FindDistinct(ps, p);
      AttemptsPrefix(ant.stocks, p, count);
      EvaluateSnoc(ps, s0, ant.runs, (p.id, after.1));
    }
  }

  /**
   * The runs an ant made explain it: replaying one `(id, runs)` entry per step
   * from the initial stocks yields the ant's stocks and clock, provided
   * process ids are unique.
   */
  lemma {:induction false} RunsReplay(ps: seq<Process>, objectives: seq<string>, s0: Stocks, ant: Ant, unset: nat,
                                      draws: seq<(nat, nat)>)
    requires ValidProcesses(ps) && StateSpace.DistinctIds(ps)
    requires Replays(ps, s0, ant)
    ensures var r := Construct(ps, objectives, ant, unset, draws);
            Replays(ps, s0, r)
    decreases unset
  {
    if !(unset == 0 || ant.steps + 1 > 50 || ant.stalled > 5) {
      var p, count := StepOrigin(ps, objectives, ant, DrawAt(draws, ant.steps));
      var next := Step(ps, objectives, ant, DrawAt(draws, ant.steps));
      if next.Some? {
        AdvanceReplays(ps, objectives, s0, ant, p, count);
        RunsReplay(ps, objectives, s0, next.value, unset - 1, draws);
      }
    }
  }

  /** The corrected solution, one `(id, runs)` entry per step, replays to the ant's own stocks and clock. */
  lemma AntReplays(data: Data, unset: nat, draws: seq<(nat, nat)>)
    requires ValidProcesses(data.processes) && StateSpace.DistinctIds(data.processes)
    ensures var r := Construct(data.processes, data.objectives, Initial(data), unset, draws);
            Replays(data.processes, data.stocks, r)
  {
    RunsReplay(data.processes, data.objectives, data.stocks, Initial(data), unset, draws);
  }

  // ---------------------------------------------------------------------
  // A solution that replays to something else

  /** A one-input, one-output process of duration 1. */
  function Unit(id: string, x: string, y: string): Process
  {
    Process(id, [(x, 1)], [(y, 1)], 1)
  }

  /** One run of a unit process moves one unit from `x` to `y`. */
  lemma UnitFire(s: Stocks, id: string, x: string, y: string, k: string)
    requires Get(s, x) >= 1 && x != y
    ensures Get(Fire(s, Unit(id, x, y), 1), k) == if k == x then Get(s, x) - 1 else if k == y then Get(s, y) + 1 else Get(s, k)
  {
    var p := Unit(id, x, y);
    assert Covers(s, p.input, 1);
    FireGet(s, p, 1, k);
    assert p.input[..0] == [] && p.output[..0] == [];
  }

  /** Two runs of a unit process with at least two units of its input. */
  lemma UnitTwice(s: Stocks, id: string, x: string, y: string)
    requires Get(s, x) >= 2 && x != y
    ensures var r := Attempts(s, Unit(id, x, y), 2);
            r.1 == 2 && forall k :: Get(r.0, k) == if k == x then Get(s, x) - 2 else if k == y then Get(s, y) + 2 else Get(s, k)
  {
    var p := Unit(id, x, y);
    assert Holds(s, p.input);
    var s1 := Fire(s, p, 1);
    forall k ensures Get(s1, k) == if k == x then Get(s, x) - 1 else if k == y then Get(s, y) + 1 else Get(s, k) {
      UnitFire(s, id, x, y, k);
    }
    assert Attempts(s, p, 1) == (s1, 1);
    assert Get(s1, x) >= 1;
    assert Holds(s1, p.input);
    forall k ensures Get(Fire(s1, p, 1), k) == if k == x then Get(s1, x) - 1 else if k == y then Get(s1, y) + 1 else Get(s1, k) {
      UnitFire(s1, id, x, y, k);
    }
  }

  /** Without its input a unit process never runs. */
  lemma {:induction false} UnitStuck(s: Stocks, id: string, x: string, y: string, k: nat)
    requires Get(s, x) == 0
    ensures Attempts(s, Unit(id, x, y), k) == (s, 0)
  {
    if k > 0 {
      UnitStuck(s, id, x, y, k - 1);
    }
  }

  /** The capacity of a one-unit input list is the stock itself, bounded by `u64::MAX`. */
  lemma UnitCapacity(s: Stocks, x: string)
    requires Get(s, x) <= U64_MAX
    ensures Capacity(s, [(x, 1)]) == Get(s, x)
  {
    assert [(x, 1)][..0] == [];
  }

  /** The two processes of the example: both turn one `a` into something else; the objective is `c`. */
  function Example(): Data
  {
    Data(map["a" := 4], [Unit("p", "a", "b"), Unit("q", "a", "c")], ["c"])
  }

  /** Step 0 draws `p` with 2 runs, step 1 draws `q` with 2 runs. */
  function ExampleDraws(): seq<(nat, nat)>
  {
    [(0, 1), (1, 1)]
  }

  /** Both processes of the example are candidates exactly when some `a` is left. */
  lemma ExampleCandidates(s: Stocks)
    requires Get(s, "a") <= 4
    ensures var ps := Example().processes;
            Candidates(s, ps) == if Get(s, "a") > 0 then [(ps[0], Get(s, "a")), (ps[1], Get(s, "a"))] else []
  {
    var ps := Example().processes;
    UnitCapacity(s, "a");
    assert ps[0].input == [("a", 1)] && ps[1].input == [("a", 1)];
    assert ps[..1][..0] == [];
    assert Candidates(s, ps[..1]) == if Get(s, "a") > 0 then [(ps[0], Get(s, "a"))] else [];
    assert ps[..|ps| - 1] == ps[..1];
  }

  lemma ExampleScore(s: Stocks)
    ensures ObjectiveValue(s, Example().objectives) == Get(s, "c")
  {
    assert Example().objectives[..0] == [];
  }

  lemma ExampleFirst(ant: Ant)
    requires Get(ant.stocks, "a") == 4 && Get(ant.stocks, "b") == 0 && Get(ant.stocks, "c") == 0 && ant.solution == []
    ensures var next := Step(Example().processes, Example().objectives, ant, DrawAt(ExampleDraws(), 0));
            && next.Some?
            && Get(next.value.stocks, "a") == 2 && Get(next.value.stocks, "b") == 2 && Get(next.value.stocks, "c") == 0
            && next.value.solution == [("p", 2), ("p", 2)]
            && next.value.steps == ant.steps + 1 && next.value.stalled <= ant.stalled + 1
  {
    var d := Example();
    ExampleCandidates(ant.stocks);
    assert Step(d.processes, d.objectives, ant, (0, 1)) == Advance(d.objectives, ant, d.processes[0], 2);
    UnitTwice(ant.stocks, "p", "a", "b");
    assert Copies(("p", 2), 2) == [("p", 2), ("p", 2)];
  }

  lemma ExampleSecond(ant: Ant)
    requires Get(ant.stocks, "a") == 2 && Get(ant.stocks, "b") == 2 && Get(ant.stocks, "c") == 0
    ensures var next := Step(Example().processes, Example().objectives, ant, DrawAt(ExampleDraws(), 1));
            && next.Some?
            && Get(next.value.stocks, "a") == 0 && Get(next.value.stocks, "b") == 2 && Get(next.value.stocks, "c") == 2
            && next.value.solution == ant.solution + [("q", 2), ("q", 2)]
            && next.value.steps == ant.steps + 1 && next.value.stalled <= ant.stalled + 1
  {
    var d := Example();
    ExampleCandidates(ant.stocks);
    assert Step(d.processes, d.objectives, ant, (1, 1)) == Advance(d.objectives, ant, d.processes[1], 2);
    UnitTwice(ant.stocks, "q", "a", "c");
    assert Copies(("q", 2), 2) == [("q", 2), ("q", 2)];
  }

  /** A pass that reads the flag clear, passes the stop tests and does something continues the loop. */
  lemma ConstructUnfold(ps: seq<Process>, objectives: seq<string>, ant: Ant, unset: nat, draws: seq<(nat, nat)>)
    requires ValidProcesses(ps) && unset > 0 && ant.steps < 50 && ant.stalled <= 5
    requires Step(ps, objectives, ant, DrawAt(draws, ant.steps)).Some?
    ensures Construct(ps, objectives, ant, unset, draws)
         == Construct(ps, objectives, Step(ps, objectives, ant, DrawAt(draws, ant.steps)).value, unset - 1, draws)
  {
  }

  lemma ExampleAnt()
    ensures var ant := Construct(Example().processes, Example().objectives, Initial(Example()), 3, ExampleDraws());
            && Get(ant.stocks, "b") == 2 && Get(ant.stocks, "c") == 2
            && ant.solution == [("p", 2), ("p", 2), ("q", 2), ("q", 2)]
  {
    var d := Example();
    var ant0 := Initial(d);
    ExampleFirst(ant0);
    ConstructUnfold(d.processes, d.objectives, ant0, 3, ExampleDraws());
    var ant1 := Step(d.processes, d.objectives, ant0, DrawAt(ExampleDraws(), 0)).value;
    ExampleSecond(ant1);
    ConstructUnfold(d.processes, d.objectives, ant1, 2, ExampleDraws());
    var ant2 := Step(d.processes, d.objectives, ant1, DrawAt(ExampleDraws(), 1)).value;
    ExampleCandidates(ant2.stocks);
    assert Construct(d.processes, d.objectives, ant2, 1, ExampleDraws()) == ant2;
  }

  /** Replaying one more entry, for a known process. */
  lemma EvaluateLast(ps: seq<Process>, s0: Stocks, sol: seq<(string, nat)>, e: (string, nat), p: Process)
    requires Find(ps, e.0) == Some(p)
    ensures var prev := Evaluate(ps, s0, sol);
            var after := Attempts(prev.0, p, e.1);
            Evaluate(ps, s0, sol + [e]) == (after.0, prev.1 + if after.1 > 0 then p.time else 0)
  {
    EvaluateSnoc(ps, s0, sol, e);
  }

  /** Replaying one more entry replays it on the replay of the others. */
  lemma EvaluateSnoc(ps: seq<Process>, s0: Stocks, sol: seq<(string, nat)>, e: (string, nat))
    ensures Evaluate(ps, s0, sol + [e]) == ReplayEntry(ps, Evaluate(ps, s0, sol), e)
  {
    assert (sol + [e])[..|sol|] == sol;
  }

  /** Proof helper for `ExampleReplay`: its two `p` entries turn the 4 units of `a` into 4 of `b`. */
  lemma ExampleReplayHalf(ps: seq<Process>, s0: Stocks)
    requires Find(ps, "p") == Some(Unit("p", "a", "b"))
    requires Get(s0, "a") == 4 && Get(s0, "b") == 0 && Get(s0, "c") == 0
    ensures var r := Evaluate(ps, s0, [("p", 2), ("p", 2)]).0;
            Get(r, "a") == 0 && Get(r, "b") == 4 && Get(r, "c") == 0
  {
    var e: (string, nat) := ("p", 2);
    EvaluateLast(ps, s0, [], e, Unit("p", "a", "b"));
    assert [] + [e] == [e];
    var s1 := Evaluate(ps, s0, [e]).0;
    UnitTwice(s0, "p", "a", "b");
    assert Get(s1, "a") == 2 && Get(s1, "b") == 2 && Get(s1, "c") == 0;
    EvaluateLast(ps, s0, [e], e, Unit("p", "a", "b"));
    assert [e] + [e] == [e, e];
    UnitTwice(s1, "p", "a", "b");
  }

  /** The replay of the example's solution, from any stocks with 4 of `a` and none of `b` or `c`. */
  lemma ExampleReplay(ps: seq<Process>, s0: Stocks)
    requires Find(ps, "p") == Some(Unit("p", "a", "b")) && Find(ps, "q") == Some(Unit("q", "a", "c"))
    requires Get(s0, "a") == 4 && Get(s0, "b") == 0 && Get(s0, "c") == 0
    ensures var r := Evaluate(ps, s0, [("p", 2), ("p", 2), ("q", 2), ("q", 2)]).0;
            Get(r, "b") == 4 && Get(r, "c") == 0
  {
    var e, f: (string, nat) := ("p", 2), ("q", 2);
    ExampleReplayHalf(ps, s0);
    var s2 := Evaluate(ps, s0, [e, e]).0;
    EvaluateLast(ps, s0, [e, e], f, Unit("q", "a", "c"));
    UnitStuck(s2, "q", "a", "c", 2);
    assert [e, e] + [f] == [e, e, f];
    assert Evaluate(ps, s0, [e, e, f]).0 == s2;
    EvaluateLast(ps, s0, [e, e, f], f, Unit("q", "a", "c"));
    assert [e, e, f] + [f] == [("p", 2), ("p", 2), ("q", 2), ("q", 2)];
  }

  /**
   * The solution as returned repeats `(id, count)` once per successful run, so
   * its replay asks for `count` runs that many times. From 4 units of `a`, an
   * ant that turns 2 of them into `b` and then 2 into `c` reaches 2 units of the
   * objective `c`, but its solution replays to 4 units of `b` and none of `c`.
   */
  lemma SolutionOvercounts()
    ensures var d := Example();
            var ant := Construct(d.processes, d.objectives, Initial(d), 3, ExampleDraws());
            var replay := Evaluate(d.processes, d.stocks, ant.solution).0;
            && ObjectiveValue(ant.stocks, d.objectives) == 2
            && ObjectiveValue(replay, d.objectives) == 0
            && Get(ant.stocks, "b") == 2 && Get(replay, "b") == 4
  {
    ExampleAnt();
    var d := Example();
    assert Find(d.processes, "p") == Some(Unit("p", "a", "b"));
    assert Find(d.processes, "q") == Some(Unit("q", "a", "c"));
    ExampleReplay(d.processes, d.stocks);
    var ant := Construct(d.processes, d.objectives, Initial(d), 3, ExampleDraws());
    ExampleScore(ant.stocks);
    ExampleScore(Evaluate(d.processes, d.stocks, ant.solution).0);
  }

  // ---------------------------------------------------------------------
  // The best ant

  /** The index of the ant kept from `results` (score, time), starting from score 0 and time `u64::MAX`. */
  function Champion(results: seq<(nat, nat)>): (r: Option<nat>)
    ensures r.Some? ==> r.value < |results|
    ensures r.None? <==> forall j :: 0 <= j < |results| ==> !StateSpace.Improves(results[j].0, results[j].1, 0, U64_MAX)
    ensures r.Some? ==> forall j :: 0 <= j < |results| ==>
              !StateSpace.Improves(results[j].0, results[j].1, results[r.value].0, results[r.value].1)
    ensures r.Some? ==> forall j :: 0 <= j < r.value ==>
              StateSpace.Improves(results[r.value].0, results[r.value].1, results[j].0, results[j].1)
  {
    if |results| == 0 then None
    else
      var r := Champion(results[..|results| - 1]);
      assert forall j :: 0 <= j < |results| - 1 ==> results[..|results| - 1][j] == results[j];
      var (score, time) := results[|results| - 1];
      var (bestScore, bestTime) := if r.Some? then results[r.value] else (0, U64_MAX);
      if StateSpace.Improves(score, time, bestScore, bestTime) then Some(|results| - 1) else r
  }

  /** The best-ant update of `aco_optimization` over the evaluated ants, in order. */
  method BestAnt(results: seq<(nat, nat)>) returns (best: Option<nat>)
    ensures best == Champion(results)
  {
    best := None;
    var bestScore, bestTime := 0, U64_MAX;
    for j := 0 to |results|
      invariant best == Champion(results[..j])
      invariant (bestScore, bestTime) == if best.Some? then results[best.value] else (0, U64_MAX)
    {
      assert results[..j + 1][..j] == results[..j];
      var (score, time) := results[j];
      if score > bestScore || (score == bestScore && time < bestTime) {
        bestScore, bestTime := score, time;
        best := Some(j);
      }
    }
    assert results[..|results|] == results;
  }
}
