/**
 * The trace verifier `krpsim_verif`: it reads a result file into a list of
 * timed executions and a final stock table, replays the executions against the
 * problem, and accepts the trace when every execution was affordable and the
 * replay ends on the announced final stocks.
 *
 * Replay works in ticks: consecutive executions with the same time stamp form
 * one tick. Their inputs come out of the current stocks immediately, their
 * outputs wait in a buffer that is merged into the current stocks only when the
 * time stamp changes (and once more at the end). So an execution never sees
 * what another execution of its own tick produced.
 */
module Verifier {

  import opened Wrappers
  import opened Resources
  import opened Text

  /** One line `time:process` of a result file. */
  datatype Execution = Execution(time: nat, processName: string)

  /** The three ways a trace is rejected, with the values the error message reports. */
  datatype CheckError =
    | ProcessNotFound(name: string, time: nat)
    | NotEnoughStock(process: string, time: nat, needed: nat, stock: string, available: nat)
    | FinalMismatch(expected: Stocks, found: Stocks)

  datatype Verdict = Valid | Invalid(error: CheckError)

  /** The replay state: stocks usable now, outputs waiting for the next tick, the current tick's time. */
  datatype Replay = Replay(current: Stocks, buffered: Stocks, previous: Option<nat>)

  // ---------------------------------------------------------------------
  // Replay, as functions

  /** Adding every buffered quantity into the current stocks; an absent stock starts at 0. */
  function Merge(current: Stocks, buffered: Stocks): (r: Stocks)
    ensures r.Keys == current.Keys + buffered.Keys
    ensures forall k :: Get(r, k) == Get(current, k) + Get(buffered, k)
  {
    map k | k in current.Keys + buffered.Keys :: Get(current, k) + Get(buffered, k)
  }

  /** The first input entry, from index `j` on, whose stock is below its amount. */
  function FirstShortFrom(s: Stocks, items: seq<(string, nat)>, j: nat): (r: Option<nat>)
    requires j <= |items|
    ensures r.Some? ==> j <= r.value < |items| && Get(s, items[r.value].0) < items[r.value].1
    ensures r.None? ==> forall i :: j <= i < |items| ==> Get(s, items[i].0) >= items[i].1
    decreases |items| - j
  {
    if j == |items| then None
    else if Get(s, items[j].0) < items[j].1 then Some(j)
    else FirstShortFrom(s, items, j + 1)
  }

  /** Entering the tick at time `t`: a new time stamp first merges the buffer. */
  function Tick(st: Replay, t: nat): Replay
  {
    if st.previous == Some(t) then st
    else Replay(Merge(st.current, st.buffered), map[], Some(t))
  }

  /** One execution: look the process up, check each input in order, take inputs, buffer outputs. */
  function Step(ps: seq<Process>, st: Replay, e: Execution): Result<Replay, CheckError>
  {
    var v := Tick(st, e.time);
    match Find(ps, e.processName)
    case None => Failure(ProcessNotFound(e.processName, e.time))
    case Some(p) =>
      match FirstShortFrom(v.current, p.input, 0)
      case Some(i) =>
        Failure(NotEnoughStock(p.id, e.time, p.input[i].1, p.input[i].0, Get(v.current, p.input[i].0)))
      case None =>
        Success(Replay(Consume(v.current, p.input, 1), Produce(v.buffered, p.output, 1), v.previous))
  }

  /** Replaying a trace from the initial stocks; the first failing execution decides the error. */
  function Run(ps: seq<Process>, init: Stocks, execs: seq<Execution>): Result<Replay, CheckError>
  {
    if |execs| == 0 then Success(Replay(init, map[], None))
    else
      match Run(ps, init, execs[..|execs| - 1])
      case Failure(err) => Failure(err)
      case Success(st) => Step(ps, st, execs[|execs| - 1])
  }

  /** The verdict: replay, merge the last buffer, compare with the announced final stocks. */
  function Check(data: Data, execs: seq<Execution>, finalStocks: Stocks): Verdict
  {
    match Run(data.processes, data.stocks, execs)
    case Failure(err) => Invalid(err)
    case Success(st) =>
      var total := Merge(st.current, st.buffered);
      if total == finalStocks then Valid else Invalid(FinalMismatch(finalStocks, total))
  }

  // ---------------------------------------------------------------------
  // Replay, as the source writes it

  /** Moving one buffered entry into the current stocks leaves the merge unchanged. */
  lemma MergeMove(r: Stocks, rest: Stocks, k: string)
    requires k in rest
    ensures Merge(r[k := Get(r, k) + rest[k]], rest - {k}) == Merge(r, rest)
  {
    var a, b := Merge(r[k := Get(r, k) + rest[k]], rest - {k}), Merge(r, rest);
    forall x ensures Get(a, x) == Get(b, x) {
      if x == k {
        assert Get(rest - {k}, x) == 0;
      }
    }
    StocksExt(a, b);
  }

  lemma MergeEmpty(r: Stocks)
    ensures Merge(r, map[]) == r
  {
    StocksExt(Merge(r, map[]), r);
  }

  /** `for (name, qty) in buffered.drain() { *current.entry(name).or_insert(0) += qty }` */
  method DrainInto(current: Stocks, buffered: Stocks) returns (r: Stocks)
    ensures r == Merge(current, buffered)
  {
    r := current;
    var rest := buffered;
    while |rest| > 0
      invariant Merge(r, rest) == Merge(current, buffered)
      decreases |rest|
    {
      var k :| k in rest;
      MergeMove(r, rest, k);
      r := r[k := Get(r, k) + rest[k]];
      rest := rest - {k};
    }
    assert rest == map[];
    MergeEmpty(r);
  }

  /** The input check loop: the index of the first input the stocks cannot cover, if any. */
  method FindShortage(s: Stocks, items: seq<(string, nat)>) returns (r: Option<nat>)
    ensures r == FirstShortFrom(s, items, 0)
  {
    var j := 0;
    while j < |items|
      invariant 0 <= j <= |items|
      invariant FirstShortFrom(s, items, 0) == FirstShortFrom(s, items, j)
    {
      var (name, qty) := items[j];
      if Get(s, name) < qty {
        return Some(j);
      }
      j := j + 1;
    }
    return None;
  }

  /** The body of the replay loop for one execution: tick, look up, check, fire. */
  method ReplayOne(ps: seq<Process>, st: Replay, e: Execution) returns (res: Result<Replay, CheckError>)
    requires ValidProcesses(ps)
    ensures res == Step(ps, st, e)
  {
    var current, buffered, previous := st.current, st.buffered, st.previous;
    if previous != Some(e.time) {
      current := DrainInto(current, buffered);
      buffered := map[];
      previous := Some(e.time);
    }
    assert Replay(current, buffered, previous) == Tick(st, e.time);
    var found := Find(ps, e.processName);
    if found.None? {
      return Failure(ProcessNotFound(e.processName, e.time));
    }
    var p := found.value;
    assert ValidProcess(p) by { ValidMember(ps, p); }
    var short := FindShortage(current, p.input);
    if short.Some? {
      var (name, qty) := p.input[short.value];
      return Failure(NotEnoughStock(p.id, e.time, qty, name, Get(current, name)));
    }
    assert Covers(current, p.input, 1);
    current := ConsumeChecked(current, p.input, 1);
    buffered := ProduceEntries(buffered, p.output, 1);
    return Success(Replay(current, buffered, previous));
  }

  method CheckExecution(data: Data, executions: seq<Execution>, finalStocks: Stocks) returns (v: Verdict)
    requires ValidProcesses(data.processes)
    ensures v == Check(data, executions, finalStocks)
  {
    var st := Replay(data.stocks, map[], None);
    var i := 0;
    while i < |executions|
      invariant 0 <= i <= |executions|
      invariant Run(data.processes, data.stocks, executions[..i]) == Success(st)
    {
      RunNext(data.processes, data.stocks, executions, i, st);
      var res := ReplayOne(data.processes, st, executions[i]);
      if res.Failure? {
        CheckFails(data, executions, finalStocks, i + 1);
        return Invalid(res.error);
      }
      st := res.value;
      i := i + 1;
    }
    var total := DrainInto(st.current, st.buffered);
    CheckCompares(data, executions, finalStocks, st);
    if total == finalStocks {
      v := Valid;
    } else {
      v := Invalid(FinalMismatch(finalStocks, total));
    }
  }

  lemma {:induction false} CheckFails(data: Data, execs: seq<Execution>, finalStocks: Stocks, i: nat)
    requires i <= |execs| && Run(data.processes, data.stocks, execs[..i]).Failure?
    ensures Check(data, execs, finalStocks) == Invalid(Run(data.processes, data.stocks, execs[..i]).error)
  {
    FailureSticks(data.processes, data.stocks, execs, i);
  }

  lemma {:induction false} CheckCompares(data: Data, execs: seq<Execution>, finalStocks: Stocks, st: Replay)
    requires Run(data.processes, data.stocks, execs[..|execs|]) == Success(st)
    ensures var total := Merge(st.current, st.buffered);
      Check(data, execs, finalStocks) == if total == finalStocks then Valid else Invalid(FinalMismatch(finalStocks, total))
  {
    assert execs[..|execs|] == execs;
  }

  lemma {:induction false} RunNext(ps: seq<Process>, init: Stocks, execs: seq<Execution>, i: nat, st: Replay)
    requires i < |execs| && Run(ps, init, execs[..i]) == Success(st)
    ensures Run(ps, init, execs[..i + 1]) == Step(ps, st, execs[i])
  {
    assert execs[..i + 1][..i] == execs[..i];
  }

  lemma ValidMember(ps: seq<Process>, p: Process)
    requires ValidProcesses(ps) && p in ps
    ensures ValidProcess(p)
  {
    var i :| 0 <= i < |ps| && ps[i] == p;
  }

  /** Once a prefix of the trace fails, the whole trace fails with the same error. */
  lemma {:induction false} FailureSticks(ps: seq<Process>, init: Stocks, execs: seq<Execution>, i: nat)
    requires i <= |execs| && Run(ps, init, execs[..i]).Failure?
    ensures Run(ps, init, execs) == Run(ps, init, execs[..i])
    decreases |execs| - i
  {
    if i < |execs| {
      assert execs[..i + 1][..i] == execs[..i];
      FailureSticks(ps, init, execs, i + 1);
    } else {
      assert execs[..i] == execs;
    }
  }

  // ---------------------------------------------------------------------
  // What a replay computes

  /** How much of `k` execution `e` takes; an unknown process takes nothing. */
  function Uses(ps: seq<Process>, e: Execution, k: string): nat
  {
    match Find(ps, e.processName)
    case None => 0
    case Some(p) => Amount(p.input, k)
  }

  function Yields(ps: seq<Process>, e: Execution, k: string): nat
  {
    match Find(ps, e.processName)
    case None => 0
    case Some(p) => Amount(p.output, k)
  }

  function Taken(ps: seq<Process>, execs: seq<Execution>, k: string): nat
  {
    if |execs| == 0 then 0 else Taken(ps, execs[..|execs| - 1], k) + Uses(ps, execs[|execs| - 1], k)
  }

  function Given(ps: seq<Process>, execs: seq<Execution>, k: string): nat
  {
    if |execs| == 0 then 0 else Given(ps, execs[..|execs| - 1], k) + Yields(ps, execs[|execs| - 1], k)
  }

  /** Where the last tick starts: the last run of equal consecutive time stamps. */
  function TickStart(execs: seq<Execution>): (r: nat)
    ensures r <= |execs| && (|execs| > 0 ==> r < |execs|)
  {
    if |execs| <= 1 then 0
    else if execs[|execs| - 2].time == execs[|execs| - 1].time then TickStart(execs[..|execs| - 1])
    else |execs| - 1
  }

  lemma {:induction false} GivenSplit(ps: seq<Process>, execs: seq<Execution>, a: nat, k: string)
    requires a <= |execs|
    ensures Given(ps, execs[..a], k) + Given(ps, execs[a..], k) == Given(ps, execs, k)
  {
    if a == |execs| {
      assert execs[..a] == execs;
    } else {
      var pre := execs[..|execs| - 1];
      GivenSplit(ps, pre, a, k);
      assert pre[..a] == execs[..a];
      var tail := execs[a..];
      SuffixOfPrefix(execs, a);
      assert Given(ps, tail, k) == Given(ps, pre[a..], k) + Yields(ps, execs[|execs| - 1], k);
    }
  }

  lemma {:induction false} SuffixOfPrefix(execs: seq<Execution>, a: nat)
    requires a < |execs|
    ensures var tail := execs[a..]; tail[..|tail| - 1] == execs[..|execs| - 1][a..] && tail[|tail| - 1] == execs[|execs| - 1]
  {
  }

  lemma GivenOne(ps: seq<Process>, e: Execution, k: string)
    ensures Given(ps, [e], k) == Yields(ps, e, k)
  {
    assert [e][..0] == [];
  }

  /** A successful step takes the process's inputs from the tick's stocks and buffers its outputs. */
  lemma StepState(ps: seq<Process>, st: Replay, e: Execution)
    requires ValidProcesses(ps) && Step(ps, st, e).Success?
    ensures Step(ps, st, e).value.previous == Some(e.time)
    ensures forall k :: Get(Step(ps, st, e).value.current, k) + Uses(ps, e, k) == Get(Tick(st, e.time).current, k)
    ensures forall k :: Get(Step(ps, st, e).value.buffered, k) == Get(Tick(st, e.time).buffered, k) + Yields(ps, e, k)
  {
    var v := Tick(st, e.time);
    var p := Find(ps, e.processName).value;
    ValidMember(ps, p);
    assert FirstShortFrom(v.current, p.input, 0) == None;
    assert Covers(v.current, p.input, 1);
    var r := Step(ps, st, e).value;
    assert r == Replay(Consume(v.current, p.input, 1), Produce(v.buffered, p.output, 1), v.previous);
    forall k ensures Get(r.current, k) + Uses(ps, e, k) == Get(v.current, k)
                  && Get(r.buffered, k) == Get(v.buffered, k) + Yields(ps, e, k) {
      assert Uses(ps, e, k) == Amount(p.input, k) && Yields(ps, e, k) == Amount(p.output, k);
      ConsumeGet(v.current, p.input, 1, k);
      ProduceGet(v.buffered, p.output, 1, k);
    }
  }

  /**
   * The replay state after a successful prefix: the current stocks are the initial
   * ones minus every input taken so far plus the outputs of all executions before
   * the last tick; the buffer holds exactly the last tick's outputs. So no
   * execution is checked against what its own tick produced.
   */
  lemma {:induction false} RunState(ps: seq<Process>, init: Stocks, execs: seq<Execution>)
    requires ValidProcesses(ps) && Run(ps, init, execs).Success?
    ensures Run(ps, init, execs).value.previous == (if |execs| == 0 then None else Some(execs[|execs| - 1].time))
    ensures forall k :: Get(Run(ps, init, execs).value.current, k) + Taken(ps, execs, k)
                     == Get(init, k) + Given(ps, execs[..TickStart(execs)], k)
    ensures forall k :: Get(Run(ps, init, execs).value.buffered, k) == Given(ps, execs[TickStart(execs)..], k)
  {
    if |execs| > 0 {
      var n := |execs|;
      var pre, e := execs[..n - 1], execs[n - 1];
      assert Run(ps, init, pre).Success?;
      RunState(ps, init, pre);
      var st0 := Run(ps, init, pre).value;
      StepState(ps, st0, e);
      if st0.previous == Some(e.time) {
        SameTick(ps, execs);
      } else {
        NewTick(ps, execs);
      }
    }
  }

  /** Bookkeeping for an execution that continues the current tick. */
  lemma SameTick(ps: seq<Process>, execs: seq<Execution>)
    requires |execs| >= 2 && execs[|execs| - 2].time == execs[|execs| - 1].time
    ensures var pre := execs[..|execs| - 1];
      && TickStart(execs) == TickStart(pre)
      && (forall k :: Taken(ps, execs, k) == Taken(ps, pre, k) + Uses(ps, execs[|execs| - 1], k))
      && (forall k :: Given(ps, execs[..TickStart(execs)], k) == Given(ps, pre[..TickStart(pre)], k))
      && (forall k :: Given(ps, execs[TickStart(execs)..], k)
                   == Given(ps, pre[TickStart(pre)..], k) + Yields(ps, execs[|execs| - 1], k))
  {
    var pre := execs[..|execs| - 1];
    var ts := TickStart(execs);
    assert execs[..ts] == pre[..ts];
    assert execs[ts..][..|execs[ts..]| - 1] == pre[ts..];
  }

  /** Bookkeeping for an execution that opens a new tick. */
  lemma NewTick(ps: seq<Process>, execs: seq<Execution>)
    requires |execs| >= 1 && (|execs| >= 2 ==> execs[|execs| - 2].time != execs[|execs| - 1].time)
    ensures var pre := execs[..|execs| - 1];
      && (forall k :: Taken(ps, execs, k) == Taken(ps, pre, k) + Uses(ps, execs[|execs| - 1], k))
      && (forall k :: Given(ps, execs[..TickStart(execs)], k)
                   == Given(ps, pre[..TickStart(pre)], k) + Given(ps, pre[TickStart(pre)..], k))
      && (forall k :: Given(ps, execs[TickStart(execs)..], k) == Yields(ps, execs[|execs| - 1], k))
  {
    var pre := execs[..|execs| - 1];
    var ts := TickStart(execs);
    assert ts == |execs| - 1;
    assert execs[..ts] == pre && execs[ts..] == [execs[|execs| - 1]];
    forall k ensures Given(ps, execs[..ts], k) == Given(ps, pre[..TickStart(pre)], k) + Given(ps, pre[TickStart(pre)..], k)
                  && Given(ps, execs[ts..], k) == Yields(ps, execs[|execs| - 1], k) {
      GivenSplit(ps, pre, TickStart(pre), k);
      GivenOne(ps, execs[|execs| - 1], k);
    }
  }

  /** An accepted trace conserves every stock: final plus all inputs is initial plus all outputs. */
  lemma ValidTraceConserves(data: Data, execs: seq<Execution>, finalStocks: Stocks)
    requires ValidProcesses(data.processes) && Check(data, execs, finalStocks) == Valid
    ensures forall k :: Get(finalStocks, k) + Taken(data.processes, execs, k)
                     == Get(data.stocks, k) + Given(data.processes, execs, k)
  {
    RunState(data.processes, data.stocks, execs);
    forall k {
      GivenSplit(data.processes, execs, TickStart(execs), k);
    }
  }

  /** With no executions, the trace is accepted exactly when the final stocks are the initial ones. */
  lemma EmptyTrace(data: Data, finalStocks: Stocks)
    ensures Check(data, [], finalStocks) == Valid <==> finalStocks == data.stocks
  {
    MergeEmpty(data.stocks);
  }

  /** The first failing execution of a rejected replay. */
  lemma {:induction false} FailureWitness(ps: seq<Process>, init: Stocks, execs: seq<Execution>)
    returns (i: nat)
    requires Run(ps, init, execs).Failure?
    ensures i < |execs| && Run(ps, init, execs[..i]).Success?
    ensures Step(ps, Run(ps, init, execs[..i]).value, execs[i]) == Run(ps, init, execs)
  {
    var pre := execs[..|execs| - 1];
    if Run(ps, init, pre).Failure? {
      i := FailureWitness(ps, init, pre);
      assert pre[..i] == execs[..i] && pre[i] == execs[i];
    } else {
      i := |execs| - 1;
    }
  }

  /** Every rejection names a real culprit: an unknown process, a short input, or a final mismatch. */
  lemma RejectionExplained(data: Data, execs: seq<Execution>, finalStocks: Stocks)
    requires Check(data, execs, finalStocks).Invalid?
    ensures match Check(data, execs, finalStocks).error
      case ProcessNotFound(name, t) =>
        Find(data.processes, name).None? && exists i :: 0 <= i < |execs| && execs[i] == Execution(t, name)
      case NotEnoughStock(id, t, needed, stock, available) =>
        && available < needed
        && Find(data.processes, id).Some? && (stock, needed) in Find(data.processes, id).value.input
        && exists i :: 0 <= i < |execs| && execs[i] == Execution(t, id)
      case FinalMismatch(expected, found) =>
        && expected == finalStocks && found != finalStocks
        && Run(data.processes, data.stocks, execs).Success?
        && found == Merge(Run(data.processes, data.stocks, execs).value.current,
                          Run(data.processes, data.stocks, execs).value.buffered)
  {
    if Run(data.processes, data.stocks, execs).Failure? {
      var i := FailureWitness(data.processes, data.stocks, execs);
      var e := execs[i];
      var st := Run(data.processes, data.stocks, execs[..i]).value;
      var v := Tick(st, e.time);
      if Find(data.processes, e.processName).Some? {
        var p := Find(data.processes, e.processName).value;
        var j := FirstShortFrom(v.current, p.input, 0).value;
        assert p.input[j] in p.input;
      }
    }
  }

  /** Two processes where the second needs what the first makes. */
  const Demo := Data(map["a" := 1],
                     [Process("make", [("a", 1)], [("b", 1)], 1), Process("use", [("b", 1)], [("c", 1)], 1)],
                     ["c"])

  const DemoFinal: Stocks := map["a" := 0, "b" := 0, "c" := 1]

  /** After `make` in the first tick: `a` used up, one `b` waiting in the buffer. */
  lemma DemoAfterMake(t: nat)
    ensures Run(Demo.processes, Demo.stocks, [Execution(t, "make")])
         == Success(Replay(map["a" := 0], map["b" := 1], Some(t)))
  {
    var ps := Demo.processes;
    var make := ps[0];
    assert Find(ps, "make") == Some(make);
    assert [Execution(t, "make")][..0] == [];
    var st0 := Replay(Demo.stocks, map[], None);
    assert Run(ps, Demo.stocks, []) == Success(st0);
    MergeEmpty(Demo.stocks);
    var v := Tick(st0, t);
    assert v == Replay(Demo.stocks, map[], Some(t));
    assert FirstShortFrom(v.current, make.input, 0) == None by {
      assert FirstShortFrom(v.current, make.input, 1) == None;
    }
    assert make.input[..0] == [] && make.output[..0] == [];
    assert Consume(v.current, make.input, 1) == map["a" := 0] by {
      StocksExt(Consume(v.current, make.input, 1), map["a" := 0]);
    }
    assert Produce(map[], make.output, 1) == map["b" := 1];
  }

  /** In the same tick, `use` does not see the `b` that `make` produced. */
  lemma SameTickRejected()
    ensures Check(Demo, [Execution(0, "make"), Execution(0, "use")], DemoFinal)
         == Invalid(NotEnoughStock("use", 0, 1, "b", 0))
  {
    var execs := [Execution(0, "make"), Execution(0, "use")];
    assert execs[..1] == [Execution(0, "make")];
    DemoAfterMake(0);
    assert Find(Demo.processes, "use") == Some(Demo.processes[1]);
  }

  /**
   * In any other tick, `use` sees it and the trace is accepted. Time stamps are not
   * required to increase: an earlier stamp is just another tick.
   */
  lemma OtherTickAccepted(t: nat, u: nat)
    requires t != u
    ensures Check(Demo, [Execution(t, "make"), Execution(u, "use")], DemoFinal) == Valid
  {
    var execs := [Execution(t, "make"), Execution(u, "use")];
    assert execs[..1] == [Execution(t, "make")];
    DemoAfterMake(t);
    DemoUseNextTick(t, u);
    var st := Replay(map["a" := 0, "b" := 0], map["c" := 1], Some(u));
    assert Run(Demo.processes, Demo.stocks, execs) == Success(st);
    DemoFinalMerge();
  }

  lemma DemoFinalMerge()
    ensures Merge(map["a" := 0, "b" := 0], map["c" := 1]) == DemoFinal
  {
    var fin := Merge(map["a" := 0, "b" := 0], map["c" := 1]);
    assert fin.Keys == DemoFinal.Keys;
    StocksExt(fin, DemoFinal);
  }

  lemma DemoUseNextTick(t: nat, u: nat)
    requires t != u
    ensures Step(Demo.processes, Replay(map["a" := 0], map["b" := 1], Some(t)), Execution(u, "use"))
         == Success(Replay(map["a" := 0, "b" := 0], map["c" := 1], Some(u)))
  {
    var use := Demo.processes[1];
    assert Find(Demo.processes, "use") == Some(use);
    var s2 := Merge(map["a" := 0], map["b" := 1]);
    assert s2 == map["a" := 0, "b" := 1] by {
      StocksExt(s2, map["a" := 0, "b" := 1]);
    }
    assert FirstShortFrom(s2, use.input, 0) == None by {
      assert FirstShortFrom(s2, use.input, 1) == None;
    }
    assert use.input[..0] == [] && use.output[..0] == [];
    var s3 := Consume(s2, use.input, 1);
    assert s3 == map["a" := 0, "b" := 0] by {
      StocksExt(s3, map["a" := 0, "b" := 0]);
    }
    assert Produce(map[], use.output, 1) == map["c" := 1];
  }
}
