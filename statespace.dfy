/**
 * The search space shared by the A* and IDA* strategies (`a_star.rs`,
 * `ida_star.rs`): a state is a clock, a stock snapshot and the log of firings
 * that led to it; its successors fire one runnable process `c` times for every
 * `c` from 1 to the largest count the stocks allow. The objective map a state
 * carries always holds the current quantity of each distinct objective name, so
 * its sum is computed here from the stocks.
 */
module StateSpace {

  import opened Wrappers
  import opened Resources
  import StockScores

  datatype State = State(time: nat, stocks: Stocks, log: seq<LogRecord>)

  /** `State::new(0, data.stocks, …, vec![])`. */
  function Start(data: Data): State
  {
    State(0, data.stocks, [])
  }

  /** The keys of an objective map built from `objectives`, first occurrence first. */
  function Distinct(xs: seq<string>): (r: seq<string>)
    ensures forall x :: x in r <==> x in xs
    ensures forall i, j :: 0 <= i < j < |r| ==> r[i] != r[j]
  {
    if |xs| == 0 then []
    else
      var d := Distinct(xs[..|xs| - 1]);
      if xs[|xs| - 1] in d then d else d + [xs[|xs| - 1]]
  }

  /** `objectives.values().sum()`: each distinct objective's quantity, absent counting as 0. */
  function ObjectiveSum(s: Stocks, objectives: seq<string>): nat
  {
    ObjectiveValue(s, Distinct(objectives))
  }

  /** `max_executable_times`: the minimum over the inputs of available / amount, absent as 0; 0 without inputs. */
  function MaxCount(s: Stocks, items: seq<(string, nat)>): nat
    requires PositiveAmounts(items)
  {
    if |items| == 0 then 0 else MinRuns(s, items)
  }

  /** The counts `1..=max` are exactly the positive counts the stocks cover, and a process without inputs has none. */
  lemma MaxCountCovers(s: Stocks, items: seq<(string, nat)>, c: nat)
    requires PositiveAmounts(items) && c > 0
    ensures c <= MaxCount(s, items) <==> |items| > 0 && Covers(s, items, c)
  {
    if |items| > 0 {
      MinRunsCovers(s, items, c);
    }
  }

  /** Fire `p` `c` times at once: the clock advances by `c` durations and the log records the new time. */
  function Successor(st: State, p: Process, c: nat): State
  {
    var t := st.time + p.time * c;
    State(t, Fire(st.stocks, p, c), st.log + [LogRecord(p.id, c, t)])
  }

  /** The successors for the counts `1..=k`, in increasing count. */
  function Runs(st: State, p: Process, k: nat): seq<State>
  {
    if k == 0 then [] else Runs(st, p, k - 1) + [Successor(st, p, k)]
  }

  /** `apply_processes`: process by process in declaration order, then by increasing count. */
  function Successors(st: State, ps: seq<Process>): seq<State>
    requires ValidProcesses(ps)
  {
    if |ps| == 0 then []
    else
      var p := ps[|ps| - 1];
      assert ValidProcess(p);
      Successors(st, ps[..|ps| - 1]) + Runs(st, p, MaxCount(st.stocks, p.input))
  }

  lemma {:induction false} RunsMembers(st: State, p: Process, k: nat, e: State)
    ensures e in Runs(st, p, k) <==> exists c :: 1 <= c <= k && e == Successor(st, p, c)
  {
    if k > 0 {
      RunsMembers(st, p, k - 1, e);
    }
  }

  /** Every successor fires a process that has inputs, a positive number of times the stocks cover. */
  lemma {:induction false} SuccessorOrigin(st: State, ps: seq<Process>, e: State) returns (p: Process, c: nat)
    requires ValidProcesses(ps) && e in Successors(st, ps)
    ensures p in ps && |p.input| > 0 && c >= 1 && Covers(st.stocks, p.input, c) && e == Successor(st, p, c)
  {
    var last := ps[|ps| - 1];
    var pre := ps[..|ps| - 1];
    assert ValidProcess(last);
    assert forall q :: q in pre ==> q in ps;
    if e in Successors(st, pre) {
      p, c := SuccessorOrigin(st, pre, e);
    } else {
      RunsMembers(st, last, MaxCount(st.stocks, last.input), e);
      c :| 1 <= c <= MaxCount(st.stocks, last.input) && e == Successor(st, last, c);
      p := last;
      MaxCountCovers(st.stocks, p.input, c);
    }
  }

  /** Every such firing is among the successors. */
  lemma {:induction false} SuccessorPresent(st: State, ps: seq<Process>, p: Process, c: nat)
    requires ValidProcesses(ps) && p in ps && |p.input| > 0 && c >= 1 && Covers(st.stocks, p.input, c)
    ensures Successor(st, p, c) in Successors(st, ps)
  {
    var last := ps[|ps| - 1];
    var pre := ps[..|ps| - 1];
    assert ValidProcess(last);
    assert ps == pre + [last];
    if p in pre {
      SuccessorPresent(st, pre, p, c);
    } else {
      MaxCountCovers(st.stocks, p.input, c);
      RunsMembers(st, p, MaxCount(st.stocks, p.input), Successor(st, p, c));
    }
  }

  /**
   * A successor is exactly one firing, some positive number of times the stocks
   * cover, of a process that has inputs.
   */
  lemma SuccessorMembers(st: State, ps: seq<Process>, e: State)
    requires ValidProcesses(ps)
    ensures e in Successors(st, ps)
        <==> exists p, c :: p in ps && |p.input| > 0 && c >= 1 && Covers(st.stocks, p.input, c) && e == Successor(st, p, c)
  {
    if e in Successors(st, ps) {
      var p, c := SuccessorOrigin(st, ps, e);
    }
    if exists p, c :: p in ps && |p.input| > 0 && c >= 1 && Covers(st.stocks, p.input, c) && e == Successor(st, p, c) {
      var p, c :| p in ps && |p.input| > 0 && c >= 1 && Covers(st.stocks, p.input, c) && e == Successor(st, p, c);
      SuccessorPresent(st, ps, p, c);
    }
  }

  // ---------------------------------------------------------------------
  // The loops of `apply_processes`

  method MaxCountOf(s: Stocks, items: seq<(string, nat)>) returns (m: nat)
    requires PositiveAmounts(items)
    ensures m == MaxCount(s, items)
  {
    if |items| == 0 {
      return 0;
    }
    m := Get(s, items[0].0) / items[0].1;
    for i := 1 to |items|
      invariant m == MinRuns(s, items[..i])
    {
      assert items[..i + 1][..i] == items[..i];
      var q := Get(s, items[i].0) / items[i].1;
      if q < m {
        m := q;
      }
    }
    assert items[..|items|] == items;
  }

  /**
   * The guarded subtraction loop: it stops at the first input short of
   * `amount * count`, which never happens for a count the stocks cover.
   */
  method TryConsume(s: Stocks, items: seq<(string, nat)>, n: nat) returns (valid: bool, r: Stocks)
    requires DistinctNames(items) && Covers(s, items, n)
    ensures valid && r == Consume(s, items, n)
  {
    valid, r := true, s;
    for i := 0 to |items|
      invariant r == Consume(s, items[..i], n)
    {
      assert items[..i + 1][..i] == items[..i];
      ConsumeUntouched(s, items, n, i);
      assert Get(s, items[i].0) >= items[i].1 * n;
      if Get(r, items[i].0) < items[i].1 * n {
        valid := false;
        break;
      }
      r := Take(r, items[i].0, items[i].1 * n);
    }
    assert items[..|items|] == items;
  }

  /** The count loop `for count in 1..=max` for one process. */
  method AddRuns(next: seq<State>, st: State, p: Process, max: nat) returns (r: seq<State>)
    requires ValidProcess(p) && max == MaxCount(st.stocks, p.input)
    ensures r == next + Runs(st, p, max)
  {
    r := next;
    for count := 1 to max + 1
      invariant r == next + Runs(st, p, count - 1)
    {
      MaxCountCovers(st.stocks, p.input, count);
      var valid, stocks := TryConsume(st.stocks, p.input, count);
      if !valid {
        continue;
      }
      stocks := ProduceEntries(stocks, p.output, count);
      var t := st.time + p.time * count;
      r := r + [State(t, stocks, st.log + [LogRecord(p.id, count, t)])];
    }
  }

  method ApplyProcesses(st: State, ps: seq<Process>) returns (next: seq<State>)
    requires ValidProcesses(ps)
    ensures next == Successors(st, ps)
  {
    next := [];
    for j := 0 to |ps|
      invariant next == Successors(st, ps[..j])
    {
      assert ps[..j + 1][..j] == ps[..j];
      var p := ps[j];
      assert ValidProcess(p);
      var max := MaxCountOf(st.stocks, p.input);
      next := AddRuns(next, st, p, max);
    }
    assert ps[..|ps|] == ps;
  }

  // ---------------------------------------------------------------------
  // The heuristic estimate

  /** The sum over the objective names of their heuristic scores, 0 for a name without one. */
  function Heuristic(scores: map<string, nat>, objectives: seq<string>): nat
  {
    if |objectives| == 0 then 0
    else
      var o := objectives[|objectives| - 1];
      Heuristic(scores, objectives[..|objectives| - 1]) + (if o in scores then scores[o] else 0)
  }

  /** Every objective is scored 0. */
  predicate ObjectivesAtZero(scores: map<string, nat>, objectives: seq<string>)
  {
    forall o :: o in objectives ==> o in scores && scores[o] == 0
  }

  /** The stock-score table gives every objective 0 ... */
  lemma LevelsAtZero(ps: seq<Process>, objectives: seq<string>, scores: map<string, nat>)
    requires StockScores.Levels(ps, objectives, scores)
    ensures ObjectivesAtZero(scores, objectives)
  {
  }

  /** ... so the estimate added to the clock, a sum over objective names, is always 0. */
  lemma {:induction false} HeuristicZero(objectives: seq<string>, scores: map<string, nat>, names: seq<string>)
    requires ObjectivesAtZero(scores, objectives)
    requires forall o :: o in names ==> o in objectives
    ensures Heuristic(scores, names) == 0
  {
    if |names| > 0 {
      assert names[|names| - 1] in names;
      HeuristicZero(objectives, scores, names[..|names| - 1]);
    }
  }

  // ---------------------------------------------------------------------
  // The best-state rule and the log as a witness

  /** A strictly larger objective sum, or the same sum reached strictly earlier. */
  predicate Improves(sum: nat, time: nat, bestSum: nat, bestTime: nat)
  {
    sum > bestSum || (sum == bestSum && time < bestTime)
  }

  predicate DistinctIds(ps: seq<Process>)
  {
    forall i, j :: 0 <= i < j < |ps| ==> ps[i].id != ps[j].id
  }

  /**
   * Replaying a log from `s0`: each record names a process by id and fires it
   * `count` times, which the stocks must cover, ending at the recorded time.
   * `None` when some record cannot be replayed.
   */
  function Replay(ps: seq<Process>, s0: Stocks, log: seq<LogRecord>): Option<(Stocks, nat)>
  {
    if |log| == 0 then Some((s0, 0))
    else
      var r := log[|log| - 1];
      match Replay(ps, s0, log[..|log| - 1])
      case None => None
      case Some(prev) =>
        match Find(ps, r.id)
        case None => None
        case Some(p) =>
          if r.count >= 1 && Covers(prev.0, p.input, r.count) && r.time == prev.1 + p.time * r.count
          then Some((Fire(prev.0, p, r.count), r.time))
          else None
  }

  /** A state its own log explains: replaying the log from `s0` yields its stocks and its clock. */
  predicate Traced(ps: seq<Process>, s0: Stocks, st: State)
  {
    Replay(ps, s0, st.log) == Some((st.stocks, st.time))
  }

  lemma FindDistinct(ps: seq<Process>, p: Process)
    requires DistinctIds(ps) && p in ps
    ensures Find(ps, p.id) == Some(p)
  {
    var i :| 0 <= i < |ps| && ps[i] == p;
    if i > 0 {
      assert ps[0].id != p.id;
      assert p in ps[1..] by { assert ps[1..][i - 1] == p; }
      assert DistinctIds(ps[1..]) by {
        forall a, b | 0 <= a < b < |ps| - 1 ensures ps[1..][a].id != ps[1..][b].id {
          assert ps[1..][a] == ps[a + 1] && ps[1..][b] == ps[b + 1];
        }
      }
      FindDistinct(ps[1..], p);
    }
  }

  /** Firing a process of `ps` a covered positive number of times keeps a state traced. */
  lemma SuccessorTraced(ps: seq<Process>, s0: Stocks, st: State, p: Process, c: nat)
    requires DistinctIds(ps) && Traced(ps, s0, st) && p in ps && c >= 1 && Covers(st.stocks, p.input, c)
    ensures Traced(ps, s0, Successor(st, p, c))
  {
    var e := Successor(st, p, c);
    FindDistinct(ps, p);
    assert e.log[..|e.log| - 1] == st.log;
    assert e.log[|e.log| - 1] == LogRecord(p.id, c, e.time);
  }

  /** Every successor of a traced state is traced: its log explains it. */
  lemma SuccessorsTraced(ps: seq<Process>, s0: Stocks, st: State, e: State)
    requires ValidProcesses(ps) && DistinctIds(ps) && Traced(ps, s0, st) && e in Successors(st, ps)
    ensures Traced(ps, s0, e)
  {
    var p, c := SuccessorOrigin(st, ps, e);
    SuccessorTraced(ps, s0, st, p, c);
  }
}
