/**
 * The IDA* strategy of `ida_star.rs`: rounds of depth-first search bounded by a
 * threshold on `time + h`, where `h` sums the heuristic scores of the objective
 * names. The recursive search shares one visited set and one best state, which
 * it updates in place; each round starts from the initial state with the
 * visited set cleared, and the next threshold is the smallest bound that cut a
 * branch off. The timer flag is a shared count of the reads that still find
 * it unset.
 */
module IdaStar {

  import opened Wrappers
  import opened Resources
  import opened StateSpace
  import StockScores

  /** The state shared by every call of one search: the visited pairs, the best state and the unset timer reads left. */
  datatype Context = Context(visited: set<(Stocks, nat)>, best: Option<State>, unset: nat)

  /** What a call returns: its state (if any), its threshold, and the shared state afterwards. */
  datatype Answer = Answer(result: Option<State>, threshold: nat, ctx: Context)

  /** The best-state update: the first state is always taken, later ones on an improvement. */
  function Update(best: Option<State>, st: State, objectives: seq<string>): Option<State>
  {
    match best
    case None => Some(st)
    case Some(b) =>
      if Improves(ObjectiveSum(st.stocks, objectives), st.time, ObjectiveSum(b.stocks, objectives), b.time)
      then Some(st) else best
  }

  /** `depth_limited_search` from `st` under `limit`; `h` is the heuristic estimate. */
  function Search(ps: seq<Process>, objectives: seq<string>, h: nat, limit: nat, st: State, c: Context): (r: Answer)
    requires ValidProcesses(ps)
    ensures r.ctx.unset <= c.unset
    decreases c.unset, 0
  {
    var f := st.time + h;
    if f > limit then Answer(None, f, c)
    else if c.unset == 0 then Answer(None, U64_MAX, c)
    else if (st.stocks, st.time) in c.visited then Answer(None, U64_MAX, c.(unset := c.unset - 1))
    else
      var c2 := Context(c.visited + {(st.stocks, st.time)}, Update(c.best, st, objectives), c.unset - 1);
      var a := Children(ps, objectives, h, limit, Successors(st, ps), None, U64_MAX, c2);
      Answer(if a.result.Some? then a.result else a.ctx.best, a.threshold, a.ctx)
  }

  /** The loop over the successors: the last state a child returned, and the smallest child threshold. */
  function Children(ps: seq<Process>, objectives: seq<string>, h: nat, limit: nat, states: seq<State>,
                    local: Option<State>, least: nat, c: Context): (r: Answer)
    requires ValidProcesses(ps)
    ensures r.ctx.unset <= c.unset
    decreases c.unset, 1, |states|
  {
    if |states| == 0 then Answer(local, least, c)
    else
      var a := Search(ps, objectives, h, limit, states[0], c);
      Children(ps, objectives, h, limit, states[1..], if a.result.Some? then a.result else local,
               if a.threshold < least then a.threshold else least, a.ctx)
  }

  /**
   * The rounds of `optimize`, each reading the flag first; a round that returns
   * `u64::MAX` or the same threshold ends the loop.
   */
  function Rounds(ps: seq<Process>, objectives: seq<string>, h: nat, start: State, threshold: nat,
                  best: Option<State>, unset: nat): Option<State>
    requires ValidProcesses(ps)
    decreases unset
  {
    if unset == 0 then best
    else
      var a := Search(ps, objectives, h, threshold, start, Context({}, best, unset - 1));
      var best' := if a.result.Some? then a.result else a.ctx.best;
      if a.threshold == U64_MAX || a.threshold == threshold then best'
      else Rounds(ps, objectives, h, start, a.threshold, best', a.ctx.unset)
  }

  function Max(a: nat, b: nat): nat
  {
    if a >= b then a else b
  }

  function Result(best: Option<State>): Option<(nat, Stocks, seq<LogRecord>)>
  {
    match best
    case None => None
    case Some(st) => Some((st.time, st.stocks, st.log))
  }

  // ---------------------------------------------------------------------
  // The recursion and the round loop

  /** The shared mutable state of one `optimize` call. */
  class Searcher {
    var visited: set<(Stocks, nat)>
    var best: Option<State>
    /** How many more timer reads find the flag unset. */
    var unset: nat

    constructor (unset: nat)
      ensures visited == {} && best == None && this.unset == unset
    {
      visited := {};
      best := None;
      this.unset := unset;
    }

    function Ctx(): Context
      reads this
    {
      Context(visited, best, unset)
    }

    method DepthLimitedSearch(ps: seq<Process>, objectives: seq<string>, h: nat, limit: nat, state: State)
      returns (result: Option<State>, threshold: nat)
      requires ValidProcesses(ps)
      modifies this
      ensures Answer(result, threshold, Ctx()) == Search(ps, objectives, h, limit, state, old(Ctx()))
      decreases unset, 0
    {
      var f := state.time + h;
      if f > limit {
        return None, f;
      }
      if unset == 0 {
        return None, U64_MAX;
      }
      unset := unset - 1;
      if (state.stocks, state.time) in visited {
        return None, U64_MAX;
      }
      visited := visited + {(state.stocks, state.time)};
      best := Update(best, state, objectives);
      var children := ApplyProcesses(state, ps);
      result, threshold := SearchChildren(ps, objectives, h, limit, children);
      if result.None? {
        result := best;
      }
    }

    method SearchChildren(ps: seq<Process>, objectives: seq<string>, h: nat, limit: nat, children: seq<State>)
      returns (result: Option<State>, threshold: nat)
      requires ValidProcesses(ps)
      modifies this
      ensures Answer(result, threshold, Ctx()) == Children(ps, objectives, h, limit, children, None, U64_MAX, old(Ctx()))
      decreases unset, 1
    {
      result, threshold := None, U64_MAX;
      for j := 0 to |children|
        invariant unset <= old(unset)
        invariant Children(ps, objectives, h, limit, children, None, U64_MAX, old(Ctx()))
               == Children(ps, objectives, h, limit, children[j..], result, threshold, Ctx())
      {
        assert children[j..][1..] == children[j + 1..];
        var r, t := DepthLimitedSearch(ps, objectives, h, limit, children[j]);
        if r.Some? {
          result := r;
        }
        if t < threshold {
          threshold := t;
        }
      }
    }
  }

  /** `optimize`: `unset` is the number of timer reads that find the flag unset. */
  method Optimize(data: Data, unset: nat) returns (result: Option<(nat, Stocks, seq<LogRecord>)>)
    requires ValidProcesses(data.processes)
    ensures result == Result(Rounds(data.processes, data.objectives, 0, Start(data), 0, None, unset))
  {
    var ps, objectives := data.processes, data.objectives;
    var scores := StockScores.PrecomputeStockScores(data);
    LevelsAtZero(ps, objectives, scores);
    HeuristicZero(objectives, scores, objectives);
    var h := Heuristic(scores, objectives);
    var start := Start(data);
    var threshold := Max(start.time + h, start.time);
    var searcher := new Searcher(unset);
    while true
      invariant Rounds(ps, objectives, 0, start, 0, None, unset)
             == Rounds(ps, objectives, 0, start, threshold, searcher.best, searcher.unset)
      decreases searcher.unset
    {
      if searcher.unset == 0 {
        break;
      }
      searcher.unset := searcher.unset - 1;
      searcher.visited := {};
      var r, t := searcher.DepthLimitedSearch(ps, objectives, 0, threshold, start);
      if r.Some? {
        searcher.best := r;
      }
      if t == U64_MAX || t == threshold {
        break;
      }
      threshold := t;
    }
    result := Result(searcher.best);
  }

  // ---------------------------------------------------------------------
  // What a search does to the shared state

  /** `b'` is at least as good as `b` under the best-state rule. */
  predicate NotWorse(b: Option<State>, b': Option<State>, objectives: seq<string>)
  {
    b.Some? ==> b'.Some? && (b' == b || Improves(ObjectiveSum(b'.value.stocks, objectives), b'.value.time,
                                                ObjectiveSum(b.value.stocks, objectives), b.value.time))
  }

  lemma NotWorseTrans(b1: Option<State>, b2: Option<State>, b3: Option<State>, objectives: seq<string>)
    requires NotWorse(b1, b2, objectives) && NotWorse(b2, b3, objectives)
    ensures NotWorse(b1, b3, objectives)
  {
  }

  /**
   * A call only adds to the visited set and only improves the best state; a
   * call that returns a state returns the best one at its end, and one that
   * returns none left the best state and the visited set alone; a state is
   * returned exactly when the bound, the timer and the visited set all let it
   * through; and under a limit below `u64::MAX` the threshold returned always
   * exceeds the limit.
   */
  lemma {:induction false} SearchFacts(ps: seq<Process>, objectives: seq<string>, h: nat, limit: nat, st: State, c: Context)
    requires ValidProcesses(ps)
    ensures var a := Search(ps, objectives, h, limit, st, c);
            && c.visited <= a.ctx.visited
            && NotWorse(c.best, a.ctx.best, objectives)
            && (a.result.Some? ==> a.result == a.ctx.best)
            && (a.result.None? ==> a.ctx.best == c.best && a.ctx.visited == c.visited)
            && (a.result.Some? <==> st.time + h <= limit && c.unset > 0 && (st.stocks, st.time) !in c.visited)
            && (limit < U64_MAX ==> a.threshold > limit)
    decreases c.unset, 0
  {
    var f := st.time + h;
    if f <= limit && c.unset > 0 && (st.stocks, st.time) !in c.visited {
      var c2 := Context(c.visited + {(st.stocks, st.time)}, Update(c.best, st, objectives), c.unset - 1);
      ChildrenFacts(ps, objectives, h, limit, Successors(st, ps), None, U64_MAX, c2);
      NotWorseTrans(c.best, c2.best, Children(ps, objectives, h, limit, Successors(st, ps), None, U64_MAX, c2).ctx.best, objectives);
    }
  }

  lemma {:induction false} ChildrenFacts(ps: seq<Process>, objectives: seq<string>, h: nat, limit: nat, states: seq<State>,
                                         local: Option<State>, least: nat, c: Context)
    requires ValidProcesses(ps)
    ensures var a := Children(ps, objectives, h, limit, states, local, least, c);
            && c.visited <= a.ctx.visited
            && NotWorse(c.best, a.ctx.best, objectives)
            && ((local.Some? ==> local == c.best) ==> (a.result.Some? ==> a.result == a.ctx.best))
            && (local.Some? ==> a.result.Some?)
            && (limit < U64_MAX && least > limit ==> a.threshold > limit)
            && (c.best.Some? ==> a.ctx.best.Some?)
    decreases c.unset, 1, |states|
  {
    if |states| > 0 {
      var a := Search(ps, objectives, h, limit, states[0], c);
      SearchFacts(ps, objectives, h, limit, states[0], c);
      var local' := if a.result.Some? then a.result else local;
      var least' := if a.threshold < least then a.threshold else least;
      ChildrenFacts(ps, objectives, h, limit, states[1..], local', least', a.ctx);
      NotWorseTrans(c.best, a.ctx.best, Children(ps, objectives, h, limit, states[1..], local', least', a.ctx).ctx.best, objectives);
    }
  }

  /** Every state a search meets, and so its best state, is explained by its log. */
  lemma {:induction false} SearchTraced(ps: seq<Process>, objectives: seq<string>, h: nat, limit: nat, s0: Stocks,
                                        st: State, c: Context)
    requires ValidProcesses(ps) && DistinctIds(ps) && Traced(ps, s0, st)
    requires c.best.Some? ==> Traced(ps, s0, c.best.value)
    ensures var a := Search(ps, objectives, h, limit, st, c);
            && (a.ctx.best.Some? ==> Traced(ps, s0, a.ctx.best.value))
            && (a.result.Some? ==> Traced(ps, s0, a.result.value))
    decreases c.unset, 0
  {
    var f := st.time + h;
    if f <= limit && c.unset > 0 && (st.stocks, st.time) !in c.visited {
      var c2 := Context(c.visited + {(st.stocks, st.time)}, Update(c.best, st, objectives), c.unset - 1);
      var succ := Successors(st, ps);
      forall e | e in succ ensures Traced(ps, s0, e) {
        SuccessorsTraced(ps, s0, st, e);
      }
      ChildrenTraced(ps, objectives, h, limit, s0, succ, None, U64_MAX, c2);
    }
  }

  lemma {:induction false} ChildrenTraced(ps: seq<Process>, objectives: seq<string>, h: nat, limit: nat, s0: Stocks,
                                          states: seq<State>, local: Option<State>, least: nat, c: Context)
    requires ValidProcesses(ps) && DistinctIds(ps)
    requires forall e :: e in states ==> Traced(ps, s0, e)
    requires c.best.Some? ==> Traced(ps, s0, c.best.value)
    requires local.Some? ==> Traced(ps, s0, local.value)
    ensures var a := Children(ps, objectives, h, limit, states, local, least, c);
            && (a.ctx.best.Some? ==> Traced(ps, s0, a.ctx.best.value))
            && (a.result.Some? ==> Traced(ps, s0, a.result.value))
    decreases c.unset, 1, |states|
  {
    if |states| > 0 {
      assert states[0] in states;
      var a := Search(ps, objectives, h, limit, states[0], c);
      SearchTraced(ps, objectives, h, limit, s0, states[0], c);
      var local' := if a.result.Some? then a.result else local;
      var least' := if a.threshold < least then a.threshold else least;
      forall e | e in states[1..] ensures Traced(ps, s0, e) {
        assert e in states;
      }
      ChildrenTraced(ps, objectives, h, limit, s0, states[1..], local', least', a.ctx);
    }
  }

  // ---------------------------------------------------------------------
  // What the rounds return

  /** Once a best state exists, later rounds keep one. */
  lemma {:induction false} RoundsKeepSome(ps: seq<Process>, objectives: seq<string>, h: nat, start: State, threshold: nat,
                                          best: Option<State>, unset: nat)
    requires ValidProcesses(ps) && best.Some?
    ensures Rounds(ps, objectives, h, start, threshold, best, unset).Some?
    decreases unset
  {
    if unset > 0 {
      var a := Search(ps, objectives, h, threshold, start, Context({}, best, unset - 1));
      SearchFacts(ps, objectives, h, threshold, start, Context({}, best, unset - 1));
      var best' := if a.result.Some? then a.result else a.ctx.best;
      if !(a.threshold == U64_MAX || a.threshold == threshold) {
        RoundsKeepSome(ps, objectives, h, start, a.threshold, best', a.ctx.unset);
      }
    }
  }

  /**
   * With two unset timer reads, one for the round and one for the initial
   * state, the initial state is visited under the first threshold and the
   * result is `Some`.
   */
  lemma OptimizeFindsSome(data: Data, h: nat, unset: nat)
    requires ValidProcesses(data.processes) && unset >= 2
    ensures Rounds(data.processes, data.objectives, h, Start(data), Max(h, 0), None, unset).Some?
  {
    var ps, objectives := data.processes, data.objectives;
    var c := Context({}, None, unset - 1);
    var a := Search(ps, objectives, h, Max(h, 0), Start(data), c);
    SearchFacts(ps, objectives, h, Max(h, 0), Start(data), c);
    var best' := if a.result.Some? then a.result else a.ctx.best;
    assert best'.Some?;
    if !(a.threshold == U64_MAX || a.threshold == Max(h, 0)) {
      RoundsKeepSome(ps, objectives, h, Start(data), a.threshold, best', a.ctx.unset);
    }
  }

  lemma {:induction false} RoundsTraced(ps: seq<Process>, objectives: seq<string>, h: nat, start: State, threshold: nat,
                                        best: Option<State>, unset: nat, s0: Stocks)
    requires ValidProcesses(ps) && DistinctIds(ps) && Traced(ps, s0, start)
    requires best.Some? ==> Traced(ps, s0, best.value)
    ensures var r := Rounds(ps, objectives, h, start, threshold, best, unset);
            r.Some? ==> Traced(ps, s0, r.value)
    decreases unset
  {
    if unset > 0 {
      var a := Search(ps, objectives, h, threshold, start, Context({}, best, unset - 1));
      SearchTraced(ps, objectives, h, threshold, s0, start, Context({}, best, unset - 1));
      var best' := if a.result.Some? then a.result else a.ctx.best;
      if !(a.threshold == U64_MAX || a.threshold == threshold) {
        RoundsTraced(ps, objectives, h, start, a.threshold, best', a.ctx.unset, s0);
      }
    }
  }

  /** When process ids are unique, the returned log replays from the initial stocks to the returned stocks and time. */
  lemma OptimizeResultReplays(data: Data, unset: nat)
    requires ValidProcesses(data.processes) && DistinctIds(data.processes)
    ensures match Result(Rounds(data.processes, data.objectives, 0, Start(data), 0, None, unset))
            case None => true
            case Some(r) => Replay(data.processes, data.stocks, r.2) == Some((r.1, r.0))
  {
    assert Traced(data.processes, data.stocks, Start(data));
    RoundsTraced(data.processes, data.objectives, 0, Start(data), 0, None, unset, data.stocks);
  }
}
