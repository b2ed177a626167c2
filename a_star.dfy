/**
 * The A* strategy of `a_star.rs`: a best-first search over firing states.
 * The heap pops the state of smallest objective sum first and, among equal
 * sums, the latest one; a popped (stocks, time) pair already visited is
 * skipped; a new state becomes the best one on a strictly larger objective
 * sum or an equal sum reached strictly earlier; successors are pushed with
 * their clock raised by the heuristic, which the stock-score table makes 0.
 */
module AStar {

  import opened Wrappers
  import opened Resources
  import opened StateSpace
  import StockScores

  datatype Ordering = Less | Equal | Greater

  /** `Ord for State`: the objective sums compared in reverse, then the clocks. */
  function Cmp(a: State, b: State, objectives: seq<string>): Ordering
  {
    var sa, sb := ObjectiveSum(a.stocks, objectives), ObjectiveSum(b.stocks, objectives);
    if sb < sa then Less
    else if sb > sa then Greater
    else if a.time < b.time then Less
    else if a.time > b.time then Greater
    else Equal
  }

  /** The ordering is total and consistent: swapping the arguments mirrors the answer, and it is transitive. */
  lemma CmpOrder(a: State, b: State, c: State, objectives: seq<string>)
    ensures Cmp(a, b, objectives) == Greater <==> Cmp(b, a, objectives) == Less
    ensures Cmp(a, b, objectives) == Equal <==> Cmp(b, a, objectives) == Equal
    ensures Cmp(a, b, objectives) != Less && Cmp(b, c, objectives) != Less ==> Cmp(a, c, objectives) != Less
    ensures Cmp(a, b, objectives) == Greater && Cmp(b, c, objectives) != Less ==> Cmp(a, c, objectives) == Greater
  {
  }

  /**
   * `heap.pop()`: a greatest state under `Cmp`, the earliest pushed among
   * equals. It has the smallest objective sum, and the latest clock among
   * the states of that sum.
   */
  function Top(heap: seq<State>, objectives: seq<string>): (i: nat)
    requires |heap| > 0
    ensures i < |heap|
    ensures forall j :: 0 <= j < |heap| ==>
              var sj, si := ObjectiveSum(heap[j].stocks, objectives), ObjectiveSum(heap[i].stocks, objectives);
              si < sj || (si == sj && heap[j].time <= heap[i].time)
    ensures forall j :: 0 <= j < i ==> Cmp(heap[j], heap[i], objectives) == Less
  {
    if |heap| == 1 then 0
    else
      var t := Top(heap[..|heap| - 1], objectives);
      assert forall j :: 0 <= j < |heap| - 1 ==> heap[..|heap| - 1][j] == heap[j];
      if Cmp(heap[|heap| - 1], heap[t], objectives) == Greater then |heap| - 1 else t
  }

  function Remove(heap: seq<State>, i: nat): seq<State>
    requires i < |heap|
  {
    heap[..i] + heap[i + 1..]
  }

  /** The best state so far: its objective sum, clock, stocks and log; the stocks and log are `None` until a state is processed. */
  datatype Best = Best(sum: nat, time: nat, stocks: Option<Stocks>, log: Option<seq<LogRecord>>)

  /** The best-state update of `optimize`. */
  function Improve(b: Best, st: State, sum: nat): Best
  {
    if sum > b.sum then Best(sum, st.time, Some(st.stocks), Some(st.log))
    else if sum == b.sum && st.time < b.time then Best(b.sum, st.time, Some(st.stocks), Some(st.log))
    else b
  }

  /** The best state is replaced exactly on an improvement, and then by the processed state. */
  lemma ImproveRule(b: Best, st: State, sum: nat)
    ensures Improves(sum, st.time, b.sum, b.time) ==> Improve(b, st, sum) == Best(sum, st.time, Some(st.stocks), Some(st.log))
    ensures !Improves(sum, st.time, b.sum, b.time) ==> Improve(b, st, sum) == b
    ensures b.sum <= Improve(b, st, sum).sum
    ensures b.stocks.Some? ==> Improve(b, st, sum).stocks.Some?
  {
  }

  datatype Frontier = Frontier(heap: seq<State>, visited: set<(Stocks, nat)>, best: Best)

  /** Successors with their clocks raised by the heuristic estimate `h`. */
  function Pushed(states: seq<State>, h: nat): seq<State>
  {
    if |states| == 0 then []
    else
      var st := states[|states| - 1];
      Pushed(states[..|states| - 1], h) + [st.(time := st.time + h)]
  }

  lemma {:induction false} PushedZero(states: seq<State>)
    ensures Pushed(states, 0) == states
  {
    if |states| > 0 {
      PushedZero(states[..|states| - 1]);
      assert states == states[..|states| - 1] + [states[|states| - 1]];
    }
  }

  /** What happens to a popped state `st` after the timer check: skipped if visited, else recorded, compared with the best and expanded. */
  function Visit(ps: seq<Process>, objectives: seq<string>, h: nat, rest: seq<State>, visited: set<(Stocks, nat)>,
                 best: Best, st: State): Frontier
    requires ValidProcesses(ps)
  {
    if (st.stocks, st.time) in visited then Frontier(rest, visited, best)
    else
      Frontier(rest + Pushed(Successors(st, ps), h), visited + {(st.stocks, st.time)},
               Improve(best, st, ObjectiveSum(st.stocks, objectives)))
  }

  /** One pass of the loop: pop the top state and visit it. */
  function Step(ps: seq<Process>, objectives: seq<string>, h: nat, f: Frontier): Frontier
    requires ValidProcesses(ps) && |f.heap| > 0
  {
    var i := Top(f.heap, objectives);
    Visit(ps, objectives, h, Remove(f.heap, i), f.visited, f.best, f.heap[i])
  }

  /**
   * The `while let Some(state) = heap.pop()` loop: it ends when the heap is
   * empty or when the timer flag, read once per popped state, is set after
   * `budget` reads.
   */
  function Run(ps: seq<Process>, objectives: seq<string>, h: nat, f: Frontier, budget: nat): Best
    requires ValidProcesses(ps)
    decreases budget
  {
    if |f.heap| == 0 || budget == 0 then f.best
    else Run(ps, objectives, h, Step(ps, objectives, h, f), budget - 1)
  }

  lemma RunStep(ps: seq<Process>, objectives: seq<string>, h: nat, f: Frontier, budget: nat)
    requires ValidProcesses(ps) && |f.heap| > 0 && budget > 0
    ensures Run(ps, objectives, h, f, budget) == Run(ps, objectives, h, Step(ps, objectives, h, f), budget - 1)
  {
  }

  lemma RunVisit(ps: seq<Process>, objectives: seq<string>, f: Frontier, budget: nat, i: nat)
    requires ValidProcesses(ps) && |f.heap| > 0 && budget > 0 && i == Top(f.heap, objectives)
    ensures Run(ps, objectives, 0, f, budget)
         == Run(ps, objectives, 0, Visit(ps, objectives, 0, Remove(f.heap, i), f.visited, f.best, f.heap[i]), budget - 1)
  {
    RunStep(ps, objectives, 0, f, budget);
  }

  function Initial(data: Data): Frontier
  {
    Frontier([Start(data)], {}, Best(0, U64_MAX, None, None))
  }

  function Outcome(b: Best): Option<(nat, Stocks, seq<LogRecord>)>
  {
    match b.stocks
    case None => None
    case Some(s) => Some((b.time, s, if b.log.Some? then b.log.value else []))
  }

  // ---------------------------------------------------------------------
  // The search loop

  /** `optimize`: `budget` is the number of timer reads that find the flag unset. */
  method Optimize(data: Data, budget: nat) returns (result: Option<(nat, Stocks, seq<LogRecord>)>)
    requires ValidProcesses(data.processes)
    ensures result == Outcome(Run(data.processes, data.objectives, 0, Initial(data), budget))
  {
    var scores := StockScores.PrecomputeStockScores(data);
    LevelsAtZero(data.processes, data.objectives, scores);
    var best := Search(data, scores, budget);
    result := Outcome(best);
  }

  /** The heap loop itself, given a heuristic table that scores the objectives 0. */
  method Search(data: Data, scores: map<string, nat>, budget: nat) returns (best: Best)
    requires ValidProcesses(data.processes) && ObjectivesAtZero(scores, data.objectives)
    ensures best == Run(data.processes, data.objectives, 0, Initial(data), budget)
  {
    var ps, objectives := data.processes, data.objectives;
    var heap := [Start(data)];
    var visited: set<(Stocks, nat)> := {};
    best := Best(0, U64_MAX, None, None);
    var ticks := budget;
    ghost var goal := Run(ps, objectives, 0, Initial(data), budget);
    while |heap| > 0
      invariant goal == Run(ps, objectives, 0, Frontier(heap, visited, best), ticks)
      decreases ticks
    {
      ghost var f := Frontier(heap, visited, best);
      var i := Top(heap, objectives);
      var state := heap[i];
      heap := Remove(heap, i);
      if ticks == 0 {
        break;
      }
      RunVisit(ps, objectives, f, ticks, i);
      ticks := ticks - 1;
      heap, visited, best := VisitState(ps, objectives, scores, heap, visited, best, state);
    }
  }

  /** The body of the loop after the timer check. */
  method VisitState(ps: seq<Process>, objectives: seq<string>, scores: map<string, nat>,
                    heap: seq<State>, visited: set<(Stocks, nat)>, best: Best, state: State)
    returns (heap': seq<State>, visited': set<(Stocks, nat)>, best': Best)
    requires ValidProcesses(ps) && ObjectivesAtZero(scores, objectives)
    ensures Frontier(heap', visited', best') == Visit(ps, objectives, 0, heap, visited, best, state)
  {
    heap', visited', best' := heap, visited, best;
    if (state.stocks, state.time) in visited {
      return;
    }
    visited' := visited + {(state.stocks, state.time)};
    var sum := ObjectiveSum(state.stocks, objectives);
    if sum > best.sum {
      best' := Best(sum, state.time, Some(state.stocks), Some(state.log));
    } else if sum == best.sum && state.time < best.time {
      best' := Best(best.sum, state.time, Some(state.stocks), Some(state.log));
    }
    var next := ApplyProcesses(state, ps);
    heap' := PushAll(heap, next, scores, ps, objectives);
  }

  /** The push loop: each successor's clock plus its heuristic estimate. */
  method PushAll(heap: seq<State>, next: seq<State>, scores: map<string, nat>, ps: seq<Process>, objectives: seq<string>)
    returns (r: seq<State>)
    requires ObjectivesAtZero(scores, objectives)
    ensures r == heap + Pushed(next, 0)
  {
    r := heap;
    HeuristicZero(objectives, scores, Distinct(objectives));
    for j := 0 to |next|
      invariant r == heap + Pushed(next[..j], 0)
    {
      assert next[..j + 1][..j] == next[..j];
      var estimate := Heuristic(scores, Distinct(objectives));
      r := r + [next[j].(time := next[j].time + estimate)];
    }
    assert next[..|next|] == next;
  }

  // ---------------------------------------------------------------------
  // What the search returns

  /** Once a state has been processed the best state stays present. */
  lemma {:induction false} RunKeepsSome(ps: seq<Process>, objectives: seq<string>, h: nat, f: Frontier, budget: nat)
    requires ValidProcesses(ps) && f.best.stocks.Some?
    ensures Run(ps, objectives, h, f, budget).stocks.Some?
    decreases budget
  {
    if |f.heap| > 0 && budget > 0 {
      var i := Top(f.heap, objectives);
      ImproveRule(f.best, f.heap[i], ObjectiveSum(f.heap[i].stocks, objectives));
      RunKeepsSome(ps, objectives, h, Step(ps, objectives, h, f), budget - 1);
    }
  }

  /**
   * The initial state is always processed and always becomes the best one
   * (its clock 0 beats the initial `u64::MAX`), so the result is `Some` as soon
   * as the timer lets one state through.
   */
  lemma OptimizeFindsSome(data: Data, budget: nat)
    requires ValidProcesses(data.processes) && budget > 0
    ensures Outcome(Run(data.processes, data.objectives, 0, Initial(data), budget)).Some?
  {
    var f := Initial(data);
    var next := Step(data.processes, data.objectives, 0, f);
    assert Top(f.heap, data.objectives) == 0;
    assert next.best.stocks == Some(data.stocks);
    RunKeepsSome(data.processes, data.objectives, 0, next, budget - 1);
  }

  /** Every state on the heap, and the best one, is explained by its log. */
  ghost predicate AllTraced(ps: seq<Process>, s0: Stocks, f: Frontier)
  {
    && (forall st :: st in f.heap ==> Traced(ps, s0, st))
    && (f.best.stocks.Some? ==> f.best.log.Some? && Replay(ps, s0, f.best.log.value) == Some((f.best.stocks.value, f.best.time)))
  }

  lemma VisitTraced(ps: seq<Process>, objectives: seq<string>, s0: Stocks, rest: seq<State>, visited: set<(Stocks, nat)>,
                    best: Best, st: State)
    requires ValidProcesses(ps) && DistinctIds(ps) && Traced(ps, s0, st)
    requires AllTraced(ps, s0, Frontier(rest, visited, best))
    ensures AllTraced(ps, s0, Visit(ps, objectives, 0, rest, visited, best, st))
  {
    var succ := Successors(st, ps);
    PushedZero(succ);
    forall e | e in rest + succ ensures Traced(ps, s0, e) {
      if e in succ {
        SuccessorsTraced(ps, s0, st, e);
      }
    }
  }

  lemma StepTraced(ps: seq<Process>, objectives: seq<string>, s0: Stocks, f: Frontier)
    requires ValidProcesses(ps) && DistinctIds(ps) && |f.heap| > 0 && AllTraced(ps, s0, f)
    ensures AllTraced(ps, s0, Step(ps, objectives, 0, f))
  {
    var i := Top(f.heap, objectives);
    assert f.heap[i] in f.heap;
    forall e | e in Remove(f.heap, i) ensures Traced(ps, s0, e) {
      assert e in f.heap;
    }
    VisitTraced(ps, objectives, s0, Remove(f.heap, i), f.visited, f.best, f.heap[i]);
  }

  lemma {:induction false} RunTraced(ps: seq<Process>, objectives: seq<string>, s0: Stocks, f: Frontier, budget: nat)
    requires ValidProcesses(ps) && DistinctIds(ps) && AllTraced(ps, s0, f)
    ensures var b := Run(ps, objectives, 0, f, budget);
            b.stocks.Some? ==> b.log.Some? && Replay(ps, s0, b.log.value) == Some((b.stocks.value, b.time))
    decreases budget
  {
    if |f.heap| > 0 && budget > 0 {
      RunStep(ps, objectives, 0, f, budget);
      StepTraced(ps, objectives, s0, f);
      RunTraced(ps, objectives, s0, Step(ps, objectives, 0, f), budget - 1);
    }
  }

  /**
   * When process ids are unique, the returned log replays from the initial
   * stocks, firing by firing, to exactly the returned stocks, and its last
   * record carries the returned time.
   */
  lemma OptimizeResultReplays(data: Data, budget: nat)
    requires ValidProcesses(data.processes) && DistinctIds(data.processes)
    ensures match Outcome(Run(data.processes, data.objectives, 0, Initial(data), budget))
            case None => true
            case Some(r) => Replay(data.processes, data.stocks, r.2) == Some((r.1, r.0))
  {
    var f := Initial(data);
    assert Traced(data.processes, data.stocks, Start(data));
    RunTraced(data.processes, data.objectives, data.stocks, f, budget);
  }
}
