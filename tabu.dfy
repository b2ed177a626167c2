/**
 * The tabu search of `forbidden_name.rs`: from the current state, every
 * process that can run once gives a neighbour; the search moves to the first
 * non-tabu neighbour of strictly greatest positive objective value (or, when
 * there is none, to the first neighbour, tabu or not), remembers the best state
 * on strict improvement, and appends the current stocks to a bounded FIFO tabu
 * list. It runs exactly `maxIterations` iterations.
 */
module Tabu {

  import opened Wrappers
  import opened Resources

  /** `Data::objective_value`. */
  function Value(d: Data): nat
  {
    ObjectiveValue(d.stocks, d.objectives)
  }

  /** `Data::can_execute`: every input, absent counting as 0, is at least its amount. */
  predicate CanExecute(d: Data, p: Process)
  {
    Covers(d.stocks, p.input, 1)
  }

  /** `generate_neighbors` over the processes `ps`: one neighbour per runnable process, in order. */
  function NeighborsOf(d: Data, ps: seq<Process>): seq<(Data, nat)>
  {
    if |ps| == 0 then []
    else
      var p := ps[|ps| - 1];
      NeighborsOf(d, ps[..|ps| - 1]) + (if CanExecute(d, p) then [(d.(stocks := Fire(d.stocks, p, 1)), p.time)] else [])
  }

  function Neighbors(d: Data): seq<(Data, nat)>
  {
    NeighborsOf(d, d.processes)
  }

  /** A neighbour is the state after one run of a runnable process, paired with that process's duration. */
  lemma {:induction false} NeighborMembers(d: Data, ps: seq<Process>, e: (Data, nat))
    ensures e in NeighborsOf(d, ps)
        <==> exists p :: p in ps && CanExecute(d, p) && e == (d.(stocks := Fire(d.stocks, p, 1)), p.time)
  {
    if |ps| > 0 {
      NeighborMembers(d, ps[..|ps| - 1], e);
      assert ps == ps[..|ps| - 1] + [ps[|ps| - 1]];
    }
  }

  /**
   * The selection loop: the first non-tabu neighbour whose value beats every
   * earlier candidate, starting from 0. `None` when no non-tabu neighbour has a
   * positive value.
   */
  function Pick(ns: seq<(Data, nat)>, tabu: seq<Stocks>): (r: Option<nat>)
    ensures r.Some? ==> r.value < |ns| && ns[r.value].0.stocks !in tabu && Value(ns[r.value].0) > 0
    ensures r.Some? ==> forall j :: 0 <= j < |ns| && ns[j].0.stocks !in tabu ==> Value(ns[j].0) <= Value(ns[r.value].0)
    ensures r.Some? ==> forall j :: 0 <= j < r.value && ns[j].0.stocks !in tabu ==> Value(ns[j].0) < Value(ns[r.value].0)
    ensures r.None? <==> forall j :: 0 <= j < |ns| && ns[j].0.stocks !in tabu ==> Value(ns[j].0) == 0
  {
    if |ns| == 0 then None
    else
      var r := Pick(ns[..|ns| - 1], tabu);
      assert forall j :: 0 <= j < |ns| - 1 ==> ns[..|ns| - 1][j] == ns[j];
      var last := ns[|ns| - 1].0;
      var bar := if r.Some? then Value(ns[r.value].0) else 0;
      if last.stocks !in tabu && Value(last) > bar then Some(|ns| - 1) else r
  }

  datatype Search = Search(current: Data, currentTime: nat, best: Data, bestTime: nat, tabu: seq<Stocks>)

  /** Append, then drop the oldest entry once if the list is over its size. */
  function Remember(tabu: seq<Stocks>, s: Stocks, size: nat): seq<Stocks>
  {
    var t := tabu + [s];
    if |t| > size then t[1..] else t
  }

  /** One iteration of the `while iterations < max_iterations` loop. */
  function Step(st: Search, size: nat): Search
  {
    var ns := Neighbors(st.current);
    match Pick(ns, st.tabu)
    case Some(i) =>
      var current := ns[i].0;
      var time := st.currentTime + ns[i].1;
      var improved := Value(current) > Value(st.best);
      Search(current, time, if improved then current else st.best, if improved then time else st.bestTime,
             Remember(st.tabu, current.stocks, size))
    case None =>
      if |ns| > 0 then
        Search(ns[0].0, st.currentTime + ns[0].1, st.best, st.bestTime, Remember(st.tabu, ns[0].0.stocks, size))
      else
        st.(tabu := Remember(st.tabu, st.current.stocks, size))
  }

  function Run(st: Search, size: nat, iterations: nat): Search
    decreases iterations
  {
    if iterations == 0 then st else Run(Step(st, size), size, iterations - 1)
  }

  function Start(data: Data): Search
  {
    Search(data, 0, data, 0, [])
  }

  // ---------------------------------------------------------------------
  // The loops

  method GenerateNeighbors(d: Data) returns (ns: seq<(Data, nat)>)
    requires ValidProcesses(d.processes)
    ensures ns == Neighbors(d)
  {
    ns := [];
    for j := 0 to |d.processes|
      invariant ns == NeighborsOf(d, d.processes[..j])
    {
      assert d.processes[..j + 1][..j] == d.processes[..j];
      var p := d.processes[j];
      if Covers(d.stocks, p.input, 1) {
        assert ValidProcess(p);
        var stocks := ApplyFiring(d.stocks, p, 1);
        ns := ns + [(d.(stocks := stocks), p.time)];
      }
    }
    assert d.processes[..|d.processes|] == d.processes;
  }

  method ObjectiveValueOf(d: Data) returns (v: nat)
    ensures v == Value(d)
  {
    v := 0;
    for j := 0 to |d.objectives|
      invariant v == ObjectiveValue(d.stocks, d.objectives[..j])
    {
      assert d.objectives[..j + 1][..j] == d.objectives[..j];
      var o := d.objectives[j];
      v := v + if o in d.stocks then d.stocks[o] else 0;
    }
    assert d.objectives[..|d.objectives|] == d.objectives;
  }

  method ChooseNeighbor(ns: seq<(Data, nat)>, tabu: seq<Stocks>) returns (r: Option<nat>)
    ensures r == Pick(ns, tabu)
  {
    r := None;
    var bestValue := 0;
    for j := 0 to |ns|
      invariant r == Pick(ns[..j], tabu)
      invariant bestValue == if r.Some? then Value(ns[r.value].0) else 0
    {
      assert ns[..j + 1][..j] == ns[..j];
      assert forall k :: 0 <= k < j ==> ns[..j][k] == ns[k];
      if ns[j].0.stocks !in tabu {
        var value := ObjectiveValueOf(ns[j].0);
        if value > bestValue {
          bestValue := value;
          r := Some(j);
        }
      }
    }
    assert ns[..|ns|] == ns;
  }

  /** The body of the search loop. */
  method Iterate(st: Search, size: nat) returns (next: Search)
    requires ValidProcesses(st.current.processes)
    ensures next == Step(st, size)
  {
    var current, currentTime, best, bestTime := st.current, st.currentTime, st.best, st.bestTime;
    var ns := GenerateNeighbors(current);
    var choice := ChooseNeighbor(ns, st.tabu);
    if choice.Some? {
      var i := choice.value;
      current := ns[i].0;
      currentTime := currentTime + ns[i].1;
      var v := ObjectiveValueOf(current);
      var w := ObjectiveValueOf(best);
      if v > w {
        best, bestTime := current, currentTime;
      }
    } else if |ns| > 0 {
      current := ns[0].0;
      currentTime := currentTime + ns[0].1;
    }
    var tabu := st.tabu + [current.stocks];
    if |tabu| > size {
      tabu := tabu[1..];
    }
    next := Search(current, currentTime, best, bestTime, tabu);
  }

  /** `tabu_search`: the best state seen and the time at which it was reached. */
  method TabuSearch(data: Data, maxIterations: nat, tabuListSize: nat) returns (best: Data, bestTime: nat)
    requires ValidProcesses(data.processes)
    ensures best == Run(Start(data), tabuListSize, maxIterations).best
    ensures bestTime == Run(Start(data), tabuListSize, maxIterations).bestTime
  {
    var st := Start(data);
    var iterations := 0;
    while iterations < maxIterations
      invariant iterations <= maxIterations
      invariant st.current.processes == data.processes
      invariant Run(Start(data), tabuListSize, maxIterations) == Run(st, tabuListSize, maxIterations - iterations)
    {
      NeighborsKeepProcesses(st.current);
      st := Iterate(st, tabuListSize);
      iterations := iterations + 1;
    }
    best, bestTime := st.best, st.bestTime;
  }

  // ---------------------------------------------------------------------
  // Properties

  lemma NeighborsKeepProcesses(d: Data)
    ensures forall j :: 0 <= j < |Neighbors(d)| ==>
              Neighbors(d)[j].0.processes == d.processes && Neighbors(d)[j].0.objectives == d.objectives
  {
    forall j | 0 <= j < |Neighbors(d)|
      ensures Neighbors(d)[j].0.processes == d.processes && Neighbors(d)[j].0.objectives == d.objectives
    {
      NeighborMembers(d, d.processes, Neighbors(d)[j]);
    }
  }

  /**
   * One iteration moves to a state one run of some runnable process away (or
   * stays put when nothing can run), adding that process's duration to the clock.
   */
  lemma StepMoves(st: Search, size: nat)
    ensures var next := Step(st, size);
            || (next.current == st.current && next.currentTime == st.currentTime && Neighbors(st.current) == [])
            || exists p :: p in st.current.processes && CanExecute(st.current, p)
                 && next.current == st.current.(stocks := Fire(st.current.stocks, p, 1))
                 && next.currentTime == st.currentTime + p.time
  {
    var ns := Neighbors(st.current);
    var next := Step(st, size);
    if |ns| > 0 {
      var i := match Pick(ns, st.tabu) case Some(i) => i case None => 0;
      assert next.current == ns[i].0 && next.currentTime == st.currentTime + ns[i].1;
      NeighborMembers(st.current, st.current.processes, ns[i]);
    }
  }

  /** The best state changes only to the new current state, and only on a strict improvement. */
  lemma StepBest(st: Search, size: nat)
    ensures var next := Step(st, size);
            || (next.best == st.best && next.bestTime == st.bestTime)
            || (next.best == next.current && next.bestTime == next.currentTime && Value(next.best) > Value(st.best))
  {
  }

  /** The tabu list stays within its size and always ends with the newest current stocks. */
  lemma StepTabu(st: Search, size: nat)
    requires |st.tabu| <= size
    ensures var next := Step(st, size);
            && |next.tabu| <= size
            && (size > 0 ==> next.tabu[|next.tabu| - 1] == next.current.stocks)
            && (|st.tabu| < size ==> next.tabu == st.tabu + [next.current.stocks])
            && (|st.tabu| == size ==> next.tabu == (st.tabu + [next.current.stocks])[1..])
  {
  }

  /**
   * Over a whole search the best value never decreases, the tabu list stays
   * within its size, and the processes and objectives never change.
   */
  lemma {:induction false} RunInvariants(st: Search, size: nat, iterations: nat)
    requires |st.tabu| <= size
    requires st.best.processes == st.current.processes && st.best.objectives == st.current.objectives
    ensures var final := Run(st, size, iterations);
            && Value(st.best) <= Value(final.best) && |final.tabu| <= size
            && final.current.processes == st.current.processes && final.best.processes == st.current.processes
            && final.current.objectives == st.current.objectives
    decreases iterations
  {
    if iterations > 0 {
      var next := Step(st, size);
      StepBest(st, size);
      StepTabu(st, size);
      StepMoves(st, size);
      RunInvariants(next, size, iterations - 1);
    }
  }
}
