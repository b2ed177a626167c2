/**
 * The uniform-cost strategy of `dijkstra.rs`. It differs from A* in four ways:
 * a successor's clock advances by the duration once whatever the count; each
 * state carries a `heuristic` equal to the objective quantities summed over the
 * objective list, so the heap key is that plus the objective map's sum; the
 * visited set holds stock snapshots only; and, since `optimize_for_time` is
 * false, every popped state with a positive objective sum becomes the best one.
 */
module Dijkstra {

  import opened Wrappers
  import opened Resources
  import StateSpace

  datatype State = State(time: nat, stocks: Stocks, heuristic: nat, log: seq<LogRecord>)

  /** `calculate_heuristic`: the objective quantities summed over the list, absent as 0. */
  function Heuristic(s: Stocks, objectives: seq<string>): nat
  {
    ObjectiveValue(s, objectives)
  }

  function Sum(st: State, objectives: seq<string>): nat
  {
    StateSpace.ObjectiveSum(st.stocks, objectives)
  }

  /** The heap key: the objective map's sum plus the stored heuristic. */
  function Key(st: State, objectives: seq<string>): nat
  {
    Sum(st, objectives) + st.heuristic
  }

  function Start(data: Data): State
  {
    State(0, data.stocks, Heuristic(data.stocks, data.objectives), [])
  }

  /** One successor: `times` runs at once, the clock advanced by one duration. */
  function Successor(st: State, p: Process, times: nat, objectives: seq<string>): State
  {
    var s := Fire(st.stocks, p, times);
    State(st.time + p.time, s, Heuristic(s, objectives), st.log + [LogRecord(p.id, times, st.time + p.time)])
  }

  function Runs(st: State, p: Process, k: nat, objectives: seq<string>): seq<State>
  {
    if k == 0 then [] else Runs(st, p, k - 1, objectives) + [Successor(st, p, k, objectives)]
  }

  /** `apply_process`: `None` when no count is feasible, else one successor per count `1..=max`. */
  function ApplyProcess(st: State, p: Process, objectives: seq<string>): Option<seq<State>>
    requires ValidProcess(p)
  {
    var max := StateSpace.MaxCount(st.stocks, p.input);
    if max == 0 then None else Some(Runs(st, p, max, objectives))
  }

  /** The pushes of one pass, process by process in declaration order. */
  function Expansion(st: State, ps: seq<Process>, objectives: seq<string>): seq<State>
    requires ValidProcesses(ps)
  {
    if |ps| == 0 then []
    else
      var p := ps[|ps| - 1];
      assert ValidProcess(p);
      Expansion(st, ps[..|ps| - 1], objectives)
        + match ApplyProcess(st, p, objectives) case None => [] case Some(states) => states
  }

  lemma {:induction false} RunsMembers(st: State, p: Process, k: nat, objectives: seq<string>, e: State)
    ensures e in Runs(st, p, k, objectives) <==> exists c :: 1 <= c <= k && e == Successor(st, p, c, objectives)
  {
    if k > 0 {
      RunsMembers(st, p, k - 1, objectives, e);
    }
  }

  /**
   * `apply_process` gives `None` exactly when the process has no inputs or its
   * inputs do not cover one run; otherwise its successors are exactly the
   * covered positive counts.
   */
  lemma ApplyProcessMembers(st: State, p: Process, objectives: seq<string>, e: State)
    requires ValidProcess(p)
    ensures ApplyProcess(st, p, objectives).None? <==> |p.input| == 0 || !Covers(st.stocks, p.input, 1)
    ensures ApplyProcess(st, p, objectives).Some? ==>
              (e in ApplyProcess(st, p, objectives).value
               <==> exists c :: c >= 1 && Covers(st.stocks, p.input, c) && e == Successor(st, p, c, objectives))
  {
    var max := StateSpace.MaxCount(st.stocks, p.input);
    StateSpace.MaxCountCovers(st.stocks, p.input, 1);
    if max > 0 {
      RunsMembers(st, p, max, objectives, e);
      if e in Runs(st, p, max, objectives) {
        var c :| 1 <= c <= max && e == Successor(st, p, c, objectives);
        StateSpace.MaxCountCovers(st.stocks, p.input, c);
      }
      if exists c :: c >= 1 && Covers(st.stocks, p.input, c) && e == Successor(st, p, c, objectives) {
        var c :| c >= 1 && Covers(st.stocks, p.input, c) && e == Successor(st, p, c, objectives);
        StateSpace.MaxCountCovers(st.stocks, p.input, c);
      }
    }
  }

  /** Every pushed state fires one process of `ps` a covered positive number of times. */
  lemma {:induction false} ExpansionOrigin(st: State, ps: seq<Process>, objectives: seq<string>, e: State)
    returns (p: Process, c: nat)
    requires ValidProcesses(ps) && e in Expansion(st, ps, objectives)
    ensures p in ps && c >= 1 && Covers(st.stocks, p.input, c) && e == Successor(st, p, c, objectives)
  {
    var last := ps[|ps| - 1];
    var pre := ps[..|ps| - 1];
    assert ValidProcess(last);
    assert forall q :: q in pre ==> q in ps;
    if e in Expansion(st, pre, objectives) {
      p, c := ExpansionOrigin(st, pre, objectives, e);
    } else {
      ApplyProcessMembers(st, last, objectives, e);
      p := last;
      c :| c >= 1 && Covers(st.stocks, p.input, c) && e == Successor(st, p, c, objectives);
    }
  }

  /** The ordering of `Ord for State`: keys in reverse, then clocks. */
  function Greater(a: State, b: State, objectives: seq<string>): bool
  {
    Key(a, objectives) < Key(b, objectives) || (Key(a, objectives) == Key(b, objectives) && a.time > b.time)
  }

  /** `heap.pop()`: the smallest key, the latest clock among equal keys, the earliest pushed among equals. */
  function Top(heap: seq<State>, objectives: seq<string>): (i: nat)
    requires |heap| > 0
    ensures i < |heap|
    ensures forall j :: 0 <= j < |heap| ==>
              Key(heap[i], objectives) < Key(heap[j], objectives)
              || (Key(heap[i], objectives) == Key(heap[j], objectives) && heap[j].time <= heap[i].time)
    ensures forall j :: 0 <= j < i ==> Greater(heap[i], heap[j], objectives)
  {
    if |heap| == 1 then 0
    else
      var t := Top(heap[..|heap| - 1], objectives);
      assert forall j :: 0 <= j < |heap| - 1 ==> heap[..|heap| - 1][j] == heap[j];
      if Greater(heap[|heap| - 1], heap[t], objectives) then |heap| - 1 else t
  }

  function Remove(heap: seq<State>, i: nat): seq<State>
    requires i < |heap|
  {
    heap[..i] + heap[i + 1..]
  }

  /** The best state: its clock (`u64::MAX` until set), stocks and log. */
  datatype Best = Best(time: nat, stocks: Option<Stocks>, log: Option<seq<LogRecord>>)

  /** With `optimize_for_time` false, any state with a positive objective sum replaces the best. */
  function Improve(b: Best, st: State, sum: nat): Best
  {
    if sum > 0 then Best(st.time, Some(st.stocks), Some(st.log)) else b
  }

  datatype Frontier = Frontier(heap: seq<State>, visited: set<Stocks>, best: Best)

  function Visit(ps: seq<Process>, objectives: seq<string>, rest: seq<State>, visited: set<Stocks>, best: Best,
                 st: State): Frontier
    requires ValidProcesses(ps)
  {
    if st.stocks in visited then Frontier(rest, visited, best)
    else Frontier(rest + Expansion(st, ps, objectives), visited + {st.stocks}, Improve(best, st, Sum(st, objectives)))
  }

  function Step(ps: seq<Process>, objectives: seq<string>, f: Frontier): Frontier
    requires ValidProcesses(ps) && |f.heap| > 0
  {
    var i := Top(f.heap, objectives);
    Visit(ps, objectives, Remove(f.heap, i), f.visited, f.best, f.heap[i])
  }

  /** The heap loop, with the timer flag read once per popped state and set after `budget` reads. */
  function Run(ps: seq<Process>, objectives: seq<string>, f: Frontier, budget: nat): Best
    requires ValidProcesses(ps)
    decreases budget
  {
    if |f.heap| == 0 || budget == 0 then f.best
    else Run(ps, objectives, Step(ps, objectives, f), budget - 1)
  }

  lemma RunVisit(ps: seq<Process>, objectives: seq<string>, f: Frontier, budget: nat, i: nat)
    requires ValidProcesses(ps) && |f.heap| > 0 && budget > 0 && i == Top(f.heap, objectives)
    ensures Run(ps, objectives, f, budget)
         == Run(ps, objectives, Visit(ps, objectives, Remove(f.heap, i), f.visited, f.best, f.heap[i]), budget - 1)
  {
  }

  lemma RunStops(ps: seq<Process>, objectives: seq<string>, f: Frontier, budget: nat)
    requires ValidProcesses(ps) && (|f.heap| == 0 || budget == 0)
    ensures Run(ps, objectives, f, budget) == f.best
  {
  }

  function Initial(data: Data): Frontier
  {
    Frontier([Start(data)], {}, Best(U64_MAX, None, None))
  }

  function Outcome(b: Best): Option<(nat, Stocks, seq<LogRecord>)>
  {
    match b.stocks
    case None => None
    case Some(s) => Some((b.time, s, if b.log.Some? then b.log.value else []))
  }

  // ---------------------------------------------------------------------
  // The loops

  method HeuristicOf(s: Stocks, objectives: seq<string>) returns (h: nat)
    ensures h == Heuristic(s, objectives)
  {
    h := 0;
    for j := 0 to |objectives|
      invariant h == ObjectiveValue(s, objectives[..j])
    {
      assert objectives[..j + 1][..j] == objectives[..j];
      h := h + Get(s, objectives[j]);
    }
    assert objectives[..|objectives|] == objectives;
  }

  /** `apply_process`, with its unchecked subtraction (the counts never exceed what the stocks cover). */
  method ApplyProcessTo(st: State, p: Process, objectives: seq<string>) returns (r: Option<seq<State>>)
    requires ValidProcess(p)
    ensures r == ApplyProcess(st, p, objectives)
  {
    var max := StateSpace.MaxCountOf(st.stocks, p.input);
    var states: seq<State> := [];
    for times := 1 to max + 1
      invariant states == Runs(st, p, times - 1, objectives)
    {
      StateSpace.MaxCountCovers(st.stocks, p.input, times);
      var stocks := ApplyFiring(st.stocks, p, times);
      var h := HeuristicOf(stocks, objectives);
      states := states + [State(st.time + p.time, stocks, h, st.log + [LogRecord(p.id, times, st.time + p.time)])];
    }
    if |states| == 0 {
      r := None;
    } else {
      r := Some(states);
    }
  }

  method VisitState(ps: seq<Process>, objectives: seq<string>, heap: seq<State>, visited: set<Stocks>, best: Best,
                    state: State)
    returns (heap': seq<State>, visited': set<Stocks>, best': Best)
    requires ValidProcesses(ps)
    ensures Frontier(heap', visited', best') == Visit(ps, objectives, heap, visited, best, state)
  {
    heap', visited', best' := heap, visited, best;
    if state.stocks in visited {
      return;
    }
    visited' := visited + {state.stocks};
    var sum := StateSpace.ObjectiveSum(state.stocks, objectives);
    if sum > 0 {
      best' := Best(state.time, Some(state.stocks), Some(state.log));
    }
    for j := 0 to |ps|
      invariant heap' == heap + Expansion(state, ps[..j], objectives)
    {
      assert ps[..j + 1][..j] == ps[..j];
      assert ValidProcess(ps[j]);
      var states := ApplyProcessTo(state, ps[j], objectives);
      if states.Some? {
        heap' := heap' + states.value;
      }
    }
    assert ps[..|ps|] == ps;
  }

  /** `optimize`: `budget` is the number of timer reads that find the flag unset. */
  method Optimize(data: Data, budget: nat) returns (result: Option<(nat, Stocks, seq<LogRecord>)>)
    requires ValidProcesses(data.processes)
    ensures result == Outcome(Run(data.processes, data.objectives, Initial(data), budget))
  {
    var ps, objectives := data.processes, data.objectives;
    var h := HeuristicOf(data.stocks, objectives);
    var heap := [State(0, data.stocks, h, [])];
    var visited: set<Stocks> := {};
    var best := Best(U64_MAX, None, None);
    var ticks := budget;
    ghost var goal := Run(ps, objectives, Initial(data), budget);
    while |heap| > 0
      invariant goal == Run(ps, objectives, Frontier(heap, visited, best), ticks)
      decreases ticks
    {
      ghost var f := Frontier(heap, visited, best);
      var i := Top(heap, objectives);
      var state := heap[i];
      heap := Remove(heap, i);
      if ticks == 0 {
        RunStops(ps, objectives, f, ticks);
        break;
      }
      RunVisit(ps, objectives, f, ticks, i);
      ticks := ticks - 1;
      heap, visited, best := VisitState(ps, objectives, heap, visited, best, state);
      assert Frontier(heap, visited, best) == Visit(ps, objectives, Remove(f.heap, i), f.visited, f.best, f.heap[i]);
    }
    RunStops(ps, objectives, Frontier(heap, visited, best), ticks);
    result := Outcome(best);
  }

  // ---------------------------------------------------------------------
  // What the keys and the result mean

  /** A state whose stored heuristic is the objective quantities of its stocks. */
  predicate Consistent(st: State, objectives: seq<string>)
  {
    st.heuristic == Heuristic(st.stocks, objectives)
  }

  /** Objective names listed once each: the objective list and its distinct names coincide. */
  lemma {:induction false} DistinctOfDistinct(xs: seq<string>)
    requires forall i, j :: 0 <= i < j < |xs| ==> xs[i] != xs[j]
    ensures StateSpace.Distinct(xs) == xs
  {
    if |xs| > 0 {
      var pre := xs[..|xs| - 1];
      DistinctOfDistinct(pre);
      assert xs[|xs| - 1] !in pre by {
        forall j | 0 <= j < |pre| ensures pre[j] != xs[|xs| - 1] {
          assert pre[j] == xs[j];
        }
      }
      assert xs == pre + [xs[|xs| - 1]];
    }
  }

  /** With the objectives listed once each, the key of a consistent state is twice its objective sum. */
  lemma KeyIsTwiceSum(st: State, objectives: seq<string>)
    requires Consistent(st, objectives)
    requires forall i, j :: 0 <= i < j < |objectives| ==> objectives[i] != objectives[j]
    ensures Key(st, objectives) == 2 * Sum(st, objectives)
  {
    DistinctOfDistinct(objectives);
  }

  /** Every state ever pushed is consistent. */
  lemma ExpansionConsistent(st: State, ps: seq<Process>, objectives: seq<string>, e: State)
    requires ValidProcesses(ps) && e in Expansion(st, ps, objectives)
    ensures Consistent(e, objectives)
  {
    var p, c := ExpansionOrigin(st, ps, objectives, e);
  }

  /** A present best state always has a positive objective sum. */
  ghost predicate BestPositive(b: Best, objectives: seq<string>)
  {
    b.stocks.Some? ==> b.log.Some? && StateSpace.ObjectiveSum(b.stocks.value, objectives) > 0
  }

  /** A visit keeps a present best state present, and keeps it of positive objective sum. */
  lemma VisitBest(ps: seq<Process>, objectives: seq<string>, rest: seq<State>, visited: set<Stocks>, best: Best, st: State)
    requires ValidProcesses(ps)
    ensures var b := Visit(ps, objectives, rest, visited, best, st).best;
            && (BestPositive(best, objectives) ==> BestPositive(b, objectives))
            && (best.stocks.Some? ==> b.stocks.Some?)
            && (st.stocks !in visited && Sum(st, objectives) > 0 ==> b.stocks == Some(st.stocks))
  {
  }

  lemma {:induction false} RunBestPositive(ps: seq<Process>, objectives: seq<string>, f: Frontier, budget: nat)
    requires ValidProcesses(ps) && BestPositive(f.best, objectives)
    ensures BestPositive(Run(ps, objectives, f, budget), objectives)
    decreases budget
  {
    if |f.heap| > 0 && budget > 0 {
      var i := Top(f.heap, objectives);
      RunVisit(ps, objectives, f, budget, i);
      VisitBest(ps, objectives, Remove(f.heap, i), f.visited, f.best, f.heap[i]);
      RunBestPositive(ps, objectives, Visit(ps, objectives, Remove(f.heap, i), f.visited, f.best, f.heap[i]), budget - 1);
    }
  }

  /** Once a best state is set it stays set. */
  lemma {:induction false} RunKeepsSome(ps: seq<Process>, objectives: seq<string>, f: Frontier, budget: nat)
    requires ValidProcesses(ps) && f.best.stocks.Some?
    ensures Run(ps, objectives, f, budget).stocks.Some?
    decreases budget
  {
    if |f.heap| > 0 && budget > 0 {
      var i := Top(f.heap, objectives);
      RunVisit(ps, objectives, f, budget, i);
      VisitBest(ps, objectives, Remove(f.heap, i), f.visited, f.best, f.heap[i]);
      RunKeepsSome(ps, objectives, Visit(ps, objectives, Remove(f.heap, i), f.visited, f.best, f.heap[i]), budget - 1);
    }
  }

  /** A returned state always has a positive objective sum. */
  lemma OptimizeResultPositive(data: Data, budget: nat)
    requires ValidProcesses(data.processes)
    ensures var r := Outcome(Run(data.processes, data.objectives, Initial(data), budget));
            r.Some? ==> StateSpace.ObjectiveSum(r.value.1, data.objectives) > 0
  {
    RunBestPositive(data.processes, data.objectives, Initial(data), budget);
  }

  lemma FirstVisit(ps: seq<Process>, objectives: seq<string>, f: Frontier, budget: nat)
    requires ValidProcesses(ps) && budget > 0 && |f.heap| == 1 && f.visited == {}
    requires Sum(f.heap[0], objectives) > 0
    ensures Run(ps, objectives, f, budget).stocks.Some?
  {
    var next := Step(ps, objectives, f);
    assert Top(f.heap, objectives) == 0;
    assert next.best.stocks == Some(f.heap[0].stocks);
    RunKeepsSome(ps, objectives, next, budget - 1);
  }

  /** Initial stocks with a positive objective sum make the result `Some` once one state is popped. */
  lemma OptimizeFindsSome(data: Data, budget: nat)
    requires ValidProcesses(data.processes) && budget > 0
    requires StateSpace.ObjectiveSum(data.stocks, data.objectives) > 0
    ensures Outcome(Run(data.processes, data.objectives, Initial(data), budget)).Some?
  {
    FirstVisit(data.processes, data.objectives, Initial(data), budget);
  }
}
