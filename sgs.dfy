/**
 * `sgs_algorithm`, the greedy schedule: at every step collect the processes
 * whose inputs are all present in sufficient quantity, pick the one with the
 * highest static score (the earliest on ties), fire it as many times as the
 * stocks allow, log it at the current time, and advance the clock by its
 * duration once. The loop stops when nothing is eligible or the timer flag is
 * set; the flag is modelled as `budget`, the number of loop tests that read it
 * unset.
 */
module Sgs {

  import opened Wrappers
  import opened Resources

  // ---------------------------------------------------------------------
  // The static score of a process

  /** Sum of the output amounts whose stock is an objective. */
  function OutputGain(outputs: seq<(string, nat)>, objectives: seq<string>): nat
  {
    if |outputs| == 0 then 0
    else
      var last := outputs[|outputs| - 1];
      OutputGain(outputs[..|outputs| - 1], objectives) + (if last.0 in objectives then last.1 else 0)
  }

  /** Objective inputs cost their amount, other inputs half of it (rounded down). */
  function InputCost(inputs: seq<(string, nat)>, objectives: seq<string>): nat
  {
    if |inputs| == 0 then 0
    else
      var last := inputs[|inputs| - 1];
      InputCost(inputs[..|inputs| - 1], objectives) + (if last.0 in objectives then last.1 else last.1 / 2)
  }

  /** `score_process`; the stock snapshot the source passes in is never read. */
  function Score(p: Process, objectives: seq<string>): int
  {
    OutputGain(p.output, objectives) - InputCost(p.input, objectives)
  }

  function Total(items: seq<(string, nat)>): nat
  {
    if |items| == 0 then 0 else Total(items[..|items| - 1]) + items[|items| - 1].1
  }

  /** The gain is at most the whole output; the cost is at least every input halved and at most every input whole. */
  lemma {:induction false} ScoreParts(p: Process, objectives: seq<string>)
    ensures OutputGain(p.output, objectives) <= Total(p.output)
    ensures HalvesOf(p.input) <= InputCost(p.input, objectives) <= Total(p.input)
    ensures -(Total(p.input) as int) <= Score(p, objectives) <= Total(p.output)
  {
    GainBound(p.output, objectives);
    CostBound(p.input, objectives);
  }

  lemma {:induction false} GainBound(outputs: seq<(string, nat)>, objectives: seq<string>)
    ensures OutputGain(outputs, objectives) <= Total(outputs)
  {
    if |outputs| > 0 {
      GainBound(outputs[..|outputs| - 1], objectives);
    }
  }

  lemma {:induction false} CostBound(inputs: seq<(string, nat)>, objectives: seq<string>)
    ensures HalvesOf(inputs) <= InputCost(inputs, objectives) <= Total(inputs)
  {
    if |inputs| > 0 {
      CostBound(inputs[..|inputs| - 1], objectives);
    }
  }

  /** An objective-free process scores exactly minus half of each input, summed. */
  lemma {:induction false} ScoreWithoutObjectives(p: Process)
    ensures Score(p, []) == -(HalvesOf(p.input) as int)
  {
    NoGain(p.output);
    NoObjectiveCost(p.input);
  }

  function HalvesOf(items: seq<(string, nat)>): nat
  {
    if |items| == 0 then 0 else HalvesOf(items[..|items| - 1]) + items[|items| - 1].1 / 2
  }

  lemma {:induction false} NoGain(outputs: seq<(string, nat)>)
    ensures OutputGain(outputs, []) == 0
  {
    if |outputs| > 0 {
      NoGain(outputs[..|outputs| - 1]);
    }
  }

  lemma {:induction false} NoObjectiveCost(inputs: seq<(string, nat)>)
    ensures InputCost(inputs, []) == HalvesOf(inputs)
  {
    if |inputs| > 0 {
      NoObjectiveCost(inputs[..|inputs| - 1]);
    }
  }

  /** The two accumulation loops of `score_process`. */
  method ScoreProcess(p: Process, objectives: seq<string>) returns (score: int)
    ensures score == Score(p, objectives)
  {
    score := 0;
    for j := 0 to |p.output|
      invariant score == OutputGain(p.output[..j], objectives)
    {
      assert p.output[..j + 1][..j] == p.output[..j];
      if p.output[j].0 in objectives {
        score := score + p.output[j].1;
      }
    }
    assert p.output[..|p.output|] == p.output;
    ghost var gain := score;
    for j := 0 to |p.input|
      invariant score == gain - InputCost(p.input[..j], objectives)
    {
      assert p.input[..j + 1][..j] == p.input[..j];
      if p.input[j].0 in objectives {
        score := score - p.input[j].1;
      } else {
        score := score - p.input[j].1 / 2;
      }
    }
    assert p.input[..|p.input|] == p.input;
  }

  // ---------------------------------------------------------------------
  // Eligibility and choice

  /** The eligible processes, in declaration order: every input present with at least its amount. */
  function Eligible(s: Stocks, ps: seq<Process>): seq<Process>
  {
    if |ps| == 0 then []
    else Eligible(s, ps[..|ps| - 1]) + (if Holds(s, ps[|ps| - 1].input) then [ps[|ps| - 1]] else [])
  }

  lemma {:induction false} EligibleMembers(s: Stocks, ps: seq<Process>, p: Process)
    ensures p in Eligible(s, ps) <==> p in ps && Holds(s, p.input)
  {
    if |ps| > 0 {
      EligibleMembers(s, ps[..|ps| - 1], p);
      assert ps == ps[..|ps| - 1] + [ps[|ps| - 1]];
    }
  }

  /**
   * The first element after the stable sort on the negated score: the highest
   * score, and nothing before it scores as much.
   */
  function Best(es: seq<Process>, objectives: seq<string>): (r: nat)
    requires |es| > 0
    ensures r < |es|
    ensures forall j :: 0 <= j < |es| ==> Score(es[j], objectives) <= Score(es[r], objectives)
    ensures forall j :: 0 <= j < r ==> Score(es[j], objectives) < Score(es[r], objectives)
  {
    if |es| == 1 then 0
    else
      var b := Best(es[..|es| - 1], objectives);
      assert forall j :: 0 <= j < |es| - 1 ==> es[..|es| - 1][j] == es[j];
      if Score(es[|es| - 1], objectives) > Score(es[b], objectives) then |es| - 1 else b
  }

  /** The inner input loop of the eligibility test, with its early `break`. */
  method IsEligible(s: Stocks, p: Process) returns (eligible: bool)
    ensures eligible == Holds(s, p.input)
  {
    eligible := true;
    var i := 0;
    while i < |p.input|
      invariant 0 <= i <= |p.input|
      invariant eligible == Holds(s, p.input[..i])
    {
      var (name, amount) := p.input[i];
      if name in s {
        if s[name] < amount {
          eligible := false;
          assert !Holds(s, p.input) by { assert p.input[i].0 in s && s[p.input[i].0] < p.input[i].1; }
          return;
        }
      } else {
        eligible := false;
        assert !Holds(s, p.input) by { assert p.input[i].0 !in s; }
        return;
      }
      assert p.input[..i + 1] == p.input[..i] + [p.input[i]];
      i := i + 1;
    }
    assert p.input[..i] == p.input;
  }

  method EligibleProcesses(s: Stocks, ps: seq<Process>) returns (es: seq<Process>)
    ensures es == Eligible(s, ps)
  {
    es := [];
    for j := 0 to |ps|
      invariant es == Eligible(s, ps[..j])
    {
      assert ps[..j + 1][..j] == ps[..j];
      var ok := IsEligible(s, ps[j]);
      if ok {
        es := es + [ps[j]];
      }
    }
    assert ps[..|ps|] == ps;
  }

  // ---------------------------------------------------------------------
  // How many times the chosen process fires

  function Min(a: nat, b: nat): nat
  {
    if a <= b then a else b
  }

  /** `max_executions`: from `u64::MAX`, the minimum of stock / amount over the present inputs. */
  function MaxExecutions(s: Stocks, inputs: seq<(string, nat)>): nat
    requires PositiveAmounts(inputs)
  {
    if |inputs| == 0 then U64_MAX
    else
      var last := inputs[|inputs| - 1];
      var m := MaxExecutions(s, inputs[..|inputs| - 1]);
      if last.0 in s then Min(m, s[last.0] / last.1) else m
  }

  /**
   * For an eligible process the run count is the largest the stocks cover,
   * capped at `u64::MAX`; it is at least 1, and with no inputs it is `u64::MAX`.
   */
  lemma {:induction false} MaxExecutionsCovers(s: Stocks, inputs: seq<(string, nat)>)
    requires PositiveAmounts(inputs) && Holds(s, inputs)
    ensures MaxExecutions(s, inputs) >= 1 && Covers(s, inputs, MaxExecutions(s, inputs))
    ensures |inputs| == 0 ==> MaxExecutions(s, inputs) == U64_MAX
    ensures |inputs| > 0 ==> MaxExecutions(s, inputs) == Min(U64_MAX, MinRuns(s, inputs))
  {
    if |inputs| > 0 {
      var pre := inputs[..|inputs| - 1];
      assert Holds(s, pre) by {
        forall i | 0 <= i < |pre| ensures pre[i].0 in s && s[pre[i].0] >= pre[i].1 {
          assert pre[i] == inputs[i];
        }
      }
      MaxExecutionsCovers(s, pre);
      HoldsIffCovers(s, inputs);
      MinRunsCovers(s, inputs, 1);
      MinRunsCovers(s, inputs, MaxExecutions(s, inputs));
    }
  }

  method CountExecutions(s: Stocks, inputs: seq<(string, nat)>) returns (n: nat)
    requires PositiveAmounts(inputs)
    ensures n == MaxExecutions(s, inputs)
  {
    n := U64_MAX;
    for i := 0 to |inputs|
      invariant n == MaxExecutions(s, inputs[..i])
    {
      assert inputs[..i + 1][..i] == inputs[..i];
      var (name, amount) := inputs[i];
      if name in s {
        n := Min(n, s[name] / amount);
      }
    }
    assert inputs[..|inputs|] == inputs;
  }

  // ---------------------------------------------------------------------
  // The schedule

  datatype Schedule = Schedule(stocks: Stocks, time: nat, log: seq<LogRecord>)

  /** One iteration: `None` when nothing is eligible (the loop's `break`). */
  function Step(ps: seq<Process>, objectives: seq<string>, st: Schedule): Option<Schedule>
    requires ValidProcesses(ps)
  {
    var es := Eligible(st.stocks, ps);
    if |es| == 0 then None
    else
      var p := es[Best(es, objectives)];
      EligibleMembers(st.stocks, ps, p);
      var n := MaxExecutions(st.stocks, p.input);
      Some(Schedule(Fire(st.stocks, p, n), st.time + p.time, st.log + [LogRecord(p.id, n, st.time)]))
  }

  /** At most `budget` iterations, stopping early when nothing is eligible. */
  function Run(ps: seq<Process>, objectives: seq<string>, st: Schedule, budget: nat): Schedule
    requires ValidProcesses(ps)
    decreases budget
  {
    if budget == 0 then st
    else
      match Step(ps, objectives, st)
      case None => st
      case Some(next) => Run(ps, objectives, next, budget - 1)
  }

  /** `sgs_algorithm`: only the stocks of the problem change. */
  method SgsAlgorithm(data: Data, budget: nat) returns (result: Data, totalTime: nat, log: seq<LogRecord>)
    requires ValidProcesses(data.processes)
    ensures var final := Run(data.processes, data.objectives, Schedule(data.stocks, 0, []), budget);
            result == data.(stocks := final.stocks) && totalTime == final.time && log == final.log
  {
    var ps, objectives := data.processes, data.objectives;
    var stocks := data.stocks;
    totalTime, log := 0, [];
    var remaining := budget;
    while remaining > 0
      invariant Run(ps, objectives, Schedule(data.stocks, 0, []), budget)
             == Run(ps, objectives, Schedule(stocks, totalTime, log), remaining)
      decreases remaining
    {
      var eligible := EligibleProcesses(stocks, ps);
      if |eligible| == 0 {
        break;
      }
      var p := eligible[Best(eligible, objectives)];
      EligibleMembers(stocks, ps, p);
      var n := CountExecutions(stocks, p.input);
      MaxExecutionsCovers(stocks, p.input);
      stocks := ApplyFiring(stocks, p, n);
      log := log + [LogRecord(p.id, n, totalTime)];
      totalTime := totalTime + p.time;
      remaining := remaining - 1;
    }
    result := data.(stocks := stocks);
  }

  // ---------------------------------------------------------------------
  // What one step and a whole run do

  /**
   * A step fires an eligible process of the highest score, as often as the
   * stocks allow (and at least once), logs it at the time before the step and
   * advances the clock by its duration once.
   */
  lemma StepFires(ps: seq<Process>, objectives: seq<string>, st: Schedule) returns (p: Process, n: nat)
    requires ValidProcesses(ps) && Step(ps, objectives, st).Some?
    ensures p in ps && Holds(st.stocks, p.input) && n >= 1 && Covers(st.stocks, p.input, n)
    ensures |p.input| > 0 && MinRuns(st.stocks, p.input) < U64_MAX ==> !Covers(st.stocks, p.input, n + 1)
    ensures forall q :: q in ps && Holds(st.stocks, q.input) ==> Score(q, objectives) <= Score(p, objectives)
    ensures Step(ps, objectives, st).value
         == Schedule(Fire(st.stocks, p, n), st.time + p.time, st.log + [LogRecord(p.id, n, st.time)])
  {
    var es := Eligible(st.stocks, ps);
    p := es[Best(es, objectives)];
    EligibleMembers(st.stocks, ps, p);
    n := MaxExecutions(st.stocks, p.input);
    MaxExecutionsCovers(st.stocks, p.input);
    if |p.input| > 0 && MinRuns(st.stocks, p.input) < U64_MAX {
      MinRunsCovers(st.stocks, p.input, n + 1);
    }
    forall q | q in ps && Holds(st.stocks, q.input) ensures Score(q, objectives) <= Score(p, objectives) {
      EligibleMembers(st.stocks, ps, q);
      var j :| 0 <= j < |es| && es[j] == q;
    }
  }

  /** The loop breaks exactly when no process has all its inputs present in sufficient quantity. */
  lemma StepStops(ps: seq<Process>, objectives: seq<string>, st: Schedule)
    requires ValidProcesses(ps)
    ensures Step(ps, objectives, st).None? <==> forall p :: p in ps ==> !Holds(st.stocks, p.input)
  {
    var es := Eligible(st.stocks, ps);
    if |es| > 0 {
      EligibleMembers(st.stocks, ps, es[0]);
    } else {
      forall p | p in ps ensures !Holds(st.stocks, p.input) {
        EligibleMembers(st.stocks, ps, p);
      }
    }
  }

  /**
   * A run only appends to the log, one entry per step taken; the logged times
   * never decrease, none is later than the clock, and every count is at least 1.
   */
  lemma {:induction false} RunLog(ps: seq<Process>, objectives: seq<string>, st: Schedule, budget: nat)
    requires ValidProcesses(ps) && WellLogged(st)
    ensures var final := Run(ps, objectives, st, budget);
            && WellLogged(final) && st.log <= final.log && |final.log| <= |st.log| + budget
            && st.time <= final.time
    decreases budget
  {
    if budget > 0 {
      match Step(ps, objectives, st)
      case None =>
      case Some(next) =>
        StepLog(ps, objectives, st);
        RunLog(ps, objectives, next, budget - 1);
    }
  }

  lemma StepLog(ps: seq<Process>, objectives: seq<string>, st: Schedule)
    requires ValidProcesses(ps) && WellLogged(st) && Step(ps, objectives, st).Some?
    ensures var next := Step(ps, objectives, st).value;
            WellLogged(next) && st.log <= next.log && |next.log| == |st.log| + 1 && st.time <= next.time
  {
    var p, n := StepFires(ps, objectives, st);
  }

  /** Log times non-decreasing, none after the clock, every count at least 1. */
  predicate WellLogged(st: Schedule)
  {
    && (forall i, j :: 0 <= i < j < |st.log| ==> st.log[i].time <= st.log[j].time)
    && (forall i :: 0 <= i < |st.log| ==> st.log[i].time <= st.time && st.log[i].count >= 1)
  }
}
