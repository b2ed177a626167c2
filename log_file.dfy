/**
 * The log writer `generate_log_file`: the initial stocks, one `time:process`
 * line per run of every log entry, the finish time and the final stocks, each
 * written with `writeln!`. The file is modelled as the sequence of lines
 * written; the two stock tables are hash maps, so they are given here as
 * listings in the map's iteration order.
 */
module LogFile {

  import opened Wrappers
  import opened Resources
  import opened Text
  import opened Verifier
  import opened ResultFile

  function Repeat<T>(x: T, n: nat): (r: seq<T>)
    ensures |r| == n && forall i :: 0 <= i < n ==> r[i] == x
  {
    if n == 0 then [] else Repeat(x, n - 1) + [x]
  }

  /** `stock:amount`, one line per listed stock. */
  function StockLines(listing: seq<(string, nat)>): seq<string>
  {
    if |listing| == 0 then []
    else
      var (name, amount) := listing[|listing| - 1];
      StockLines(listing[..|listing| - 1]) + [name + ":" + Decimal(amount)]
  }

  /** `time:process`, repeated once per run of each log entry. */
  function RunLines(log: seq<LogRecord>): seq<string>
  {
    if |log| == 0 then []
    else
      var e := log[|log| - 1];
      RunLines(log[..|log| - 1]) + Repeat(Decimal(e.time) + ":" + e.id, e.count)
  }

  const InitialHeader: string := "Initial stocks:"

  const FinishedPrefix: string := "Finished at time "

  /** The whole file, line by line. */
  function LogLines(initial: seq<(string, nat)>, final: seq<(string, nat)>, log: seq<LogRecord>, finish: nat)
    : seq<string>
  {
    [InitialHeader] + StockLines(initial) + [""] + RunLines(log) + [""]
      + [FinishedPrefix + Decimal(finish)] + [""] + [FinalMarker] + StockLines(final)
  }

  method GenerateLogFile(initial: seq<(string, nat)>, final: seq<(string, nat)>, log: seq<LogRecord>, finish: nat)
    returns (lines: seq<string>)
    ensures lines == LogLines(initial, final, log, finish)
  {
    lines := [InitialHeader];
    for i := 0 to |initial|
      invariant lines == [InitialHeader] + StockLines(initial[..i])
    {
      assert initial[..i + 1][..i] == initial[..i];
      var (stock, amount) := initial[i];
      lines := lines + [stock + ":" + Decimal(amount)];
    }
    assert initial[..|initial|] == initial;
    lines := lines + [""];
    ghost var head := lines;
    for i := 0 to |log|
      invariant lines == head + RunLines(log[..i])
    {
      assert log[..i + 1][..i] == log[..i];
      var LogRecord(process, count, time) := log[i];
      for c := 0 to count
        invariant lines == head + RunLines(log[..i]) + Repeat(Decimal(time) + ":" + process, c)
      {
        lines := lines + [Decimal(time) + ":" + process];
      }
    }
    assert log[..|log|] == log;
    lines := lines + [""];
    lines := lines + [FinishedPrefix + Decimal(finish)];
    lines := lines + [""];
    lines := lines + [FinalMarker];
    head := lines;
    for i := 0 to |final|
      invariant lines == head + StockLines(final[..i])
    {
      assert final[..i + 1][..i] == final[..i];
      var (stock, amount) := final[i];
      lines := lines + [stock + ":" + Decimal(amount)];
    }
    assert final[..|final|] == final;
  }

  // ---------------------------------------------------------------------
  // Reading a generated log back

  /** The executions a log stands for: each entry repeated `count` times. */
  function Expand(log: seq<LogRecord>): seq<Execution>
  {
    if |log| == 0 then []
    else
      var e := log[|log| - 1];
      Expand(log[..|log| - 1]) + Repeat(Execution(e.time, e.id), e.count)
  }

  /** The table a listing writes: each entry inserted in order, a later one overwriting. */
  function Table(base: Stocks, listing: seq<(string, nat)>): Stocks
  {
    if |listing| == 0 then base
    else Table(base, listing[..|listing| - 1])[listing[|listing| - 1].0 := listing[|listing| - 1].1]
  }

  /** Names and quantities as the parser and the strategies produce them. */
  predicate PlainListing(listing: seq<(string, nat)>)
  {
    forall i :: 0 <= i < |listing| ==> PlainName(listing[i].0) && listing[i].1 <= Text.U64_MAX
  }

  predicate PlainLog(log: seq<LogRecord>)
  {
    forall i :: 0 <= i < |log| ==> PlainName(log[i].id) && log[i].time <= Text.U64_MAX
  }

  /** A listing enumerates a map: every entry once, with its quantity. */
  predicate Lists(listing: seq<(string, nat)>, m: Stocks)
  {
    && DistinctNames(listing) && Names(listing) == m.Keys
    && forall i :: 0 <= i < |listing| ==> m[listing[i].0] == listing[i].1
  }

  lemma ReadFromAppend(r: Reading, a: seq<string>, b: seq<string>, rule: TimeField)
    ensures ReadFrom(r, a + b, rule) == ReadFrom(ReadFrom(r, a, rule), b, rule)
  {
    FoldAppend(r, a, b, Reader(rule));
  }

  lemma ReadFromOne(r: Reading, line: string, rule: TimeField)
    ensures ReadFrom(r, [line], rule) == ReadLine(r, line, rule)
  {
    assert [line][..0] == [];
    assert Fold(r, [line], Reader(rule)) == Reader(rule)(r, line);
  }

  /** A blank line changes nothing. */
  lemma ReadBlank(r: Reading, rule: TimeField)
    ensures ReadLine(r, "", rule) == r
  {
  }

  /** Before the marker, the initial stock lines are skipped when unreadable times are. */
  lemma {:induction false} ReadInitialStocks(r: Reading, listing: seq<(string, nat)>)
    requires !r.inFinal && PlainListing(listing)
    ensures ReadFrom(r, StockLines(listing), SkipIfUnreadable) == r
  {
    if |listing| > 0 {
      var pre := listing[..|listing| - 1];
      var (name, amount) := listing[|listing| - 1];
      assert PlainListing(pre);
      ReadInitialStocks(r, pre);
      ReadFromAppend(r, StockLines(pre), [name + ":" + Decimal(amount)], SkipIfUnreadable);
      ReadFromOne(r, name + ":" + Decimal(amount), SkipIfUnreadable);
      ReadStockLineEarly(r, name, amount, SkipIfUnreadable);
    }
  }

  /** After the marker, the stock lines build the final table. */
  lemma {:induction false} ReadFinalStocks(r: Reading, listing: seq<(string, nat)>, rule: TimeField)
    requires r.inFinal && PlainListing(listing)
    ensures ReadFrom(r, StockLines(listing), rule) == r.(finalStocks := Table(r.finalStocks, listing))
  {
    if |listing| > 0 {
      var pre := listing[..|listing| - 1];
      var (name, amount) := listing[|listing| - 1];
      assert PlainListing(pre);
      ReadFinalStocks(r, pre, rule);
      var mid := r.(finalStocks := Table(r.finalStocks, pre));
      ReadFromAppend(r, StockLines(pre), [name + ":" + Decimal(amount)], rule);
      ReadFromOne(mid, name + ":" + Decimal(amount), rule);
      ReadStockLine(mid, name, amount, rule);
    }
  }

  lemma {:induction false} ReadRepeat(r: Reading, t: nat, name: string, n: nat, rule: TimeField)
    requires !r.inFinal && t <= Text.U64_MAX && PlainName(name)
    ensures ReadFrom(r, Repeat(Decimal(t) + ":" + name, n), rule)
         == r.(executions := r.executions + Repeat(Execution(t, name), n))
  {
    if n > 0 {
      var line := Decimal(t) + ":" + name;
      var lines := Repeat(line, n);
      ReadRepeat(r, t, name, n - 1, rule);
      var mid := r.(executions := r.executions + Repeat(Execution(t, name), n - 1));
      assert lines[..n - 1] == Repeat(line, n - 1);
      ReadFromLast(r, lines, rule);
      ReadExecutionLine(mid, t, name, rule);
      assert r.executions + Repeat(Execution(t, name), n - 1) + [Execution(t, name)]
          == r.executions + Repeat(Execution(t, name), n);
    }
  }

  /** Before the marker, the run lines are read back as the expanded log. */
  lemma {:induction false} ReadRuns(r: Reading, log: seq<LogRecord>, rule: TimeField)
    requires !r.inFinal && PlainLog(log)
    ensures ReadFrom(r, RunLines(log), rule) == r.(executions := r.executions + Expand(log))
  {
    if |log| > 0 {
      var pre := log[..|log| - 1];
      var e := log[|log| - 1];
      assert PlainLog(pre);
      ReadRuns(r, pre, rule);
      var mid := r.(executions := r.executions + Expand(pre));
      ReadFromAppend(r, RunLines(pre), Repeat(Decimal(e.time) + ":" + e.id, e.count), rule);
      ReadRepeat(mid, e.time, e.id, e.count, rule);
    }
  }

  /** The header line: as written an execution of process "" at time 0; skipped otherwise. */
  lemma ReadHeader(r: Reading, rule: TimeField)
    requires !r.inFinal
    ensures ReadLine(r, InitialHeader, rule)
         == if rule == SkipIfUnreadable then r else r.(executions := r.executions + [Execution(0, "")])
  {
    HeaderFields();
  }

  /** How the reader takes the header line apart. */
  lemma HeaderFields()
    ensures Trim(InitialHeader) == InitialHeader && !StartsWith(InitialHeader, FinalMarker)
    ensures ':' in InitialHeader && Split(InitialHeader, ':') == ["Initial stocks", ""]
    ensures Trim("Initial stocks") == "Initial stocks" && Trim("") == ""
    ensures ParseU64("Initial stocks").None?
  {
    HeaderTrim();
    HeaderNotMarker();
    HeaderSplit();
    HeaderTimeUnreadable();
  }

  lemma HeaderTrim()
    ensures Trim(InitialHeader) == InitialHeader
    ensures Trim("Initial stocks") == "Initial stocks" && Trim("") == ""
  {
    HeaderTrimLine();
    HeaderTrimField();
  }

  lemma HeaderTrimLine()
    ensures Trim(InitialHeader) == InitialHeader
  {
    TrimNoOp(InitialHeader);
  }

  lemma HeaderTrimField()
    ensures Trim("Initial stocks") == "Initial stocks"
  {
    TrimNoOp("Initial stocks");
  }

  lemma HeaderNotMarker()
    ensures !StartsWith(InitialHeader, FinalMarker)
  {
    assert InitialHeader[..|FinalMarker|][0] == 'I';
  }

  lemma HeaderSplit()
    ensures ':' in InitialHeader && Split(InitialHeader, ':') == ["Initial stocks", ""]
  {
    assert InitialHeader[14] == ':';
    SplitOnce("Initial stocks", ':', "");
    assert InitialHeader == "Initial stocks" + [':'] + "";
  }

  lemma HeaderTimeUnreadable()
    ensures ParseU64("Initial stocks").None?
  {
    assert !AllDigits("Initial stocks") by { assert !IsDigit("Initial stocks"[0]); }
  }

  /** The finish-time line has no ':' and is never an execution. */
  lemma ReadFinished(r: Reading, finish: nat, rule: TimeField)
    requires !r.inFinal
    ensures ReadLine(r, FinishedPrefix + Decimal(finish), rule) == r
  {
    var d := Decimal(finish);
    var line := FinishedPrefix + d;
    assert line[0] == 'F' && line[|line| - 1] == d[|d| - 1];
    assert !IsWhitespace(d[|d| - 1]) by { assert IsDigit(d[|d| - 1]); }
    TrimNoOp(line);
    assert !StartsWith(line, FinalMarker) by {
      assert line[3] == 'i' && FinalMarker[3] == 'a';
      assert line[..|FinalMarker|][3] == line[3];
    }
    DigitsNoColon(d);
    assert ':' !in line by {
      forall i | 0 <= i < |line| ensures line[i] != ':' {
        if i >= |FinishedPrefix| {
          assert line[i] == d[i - |FinishedPrefix|];
        }
      }
    }
  }

  lemma ReadMarker(r: Reading, rule: TimeField)
    ensures ReadLine(r, FinalMarker, rule) == r.(inFinal := true)
  {
    TrimNoOp(FinalMarker);
  }

  /** The header, initial stock and blank lines leave a fresh reader as it was. */
  lemma ReadPrelude(initial: seq<(string, nat)>)
    requires PlainListing(initial)
    ensures ReadFrom(Start, [InitialHeader] + StockLines(initial) + [""], SkipIfUnreadable) == Start
  {
    var rule := SkipIfUnreadable;
    ReadFromAppend(Start, [InitialHeader], StockLines(initial), rule);
    ReadFromAppend(Start, [InitialHeader] + StockLines(initial), [""], rule);
    ReadFromOne(Start, InitialHeader, rule);
    ReadHeader(Start, rule);
    ReadInitialStocks(Start, initial);
    ReadFromOne(Start, "", rule);
    ReadBlank(Start, rule);
  }

  /** The blank, finish-time, blank and marker lines between the runs and the final stocks. */
  lemma ReadTail(r: Reading, finish: nat, rule: TimeField)
    requires !r.inFinal
    ensures ReadFrom(r, [""] + [FinishedPrefix + Decimal(finish)] + [""] + [FinalMarker], rule) == r.(inFinal := true)
  {
    var gap := ["", FinishedPrefix + Decimal(finish), ""];
    ReadGap(r, finish, rule);
    ReadFromAppend(r, gap, [FinalMarker], rule);
    ReadFromOne(r, FinalMarker, rule);
    ReadMarker(r, rule);
    Singletons("", FinishedPrefix + Decimal(finish), "", FinalMarker);
  }

  /** Four one-line pieces make the same lines as three lines and one more. */
  lemma Singletons<T>(a: T, b: T, c: T, d: T)
    ensures [a] + [b] + [c] + [d] == [a, b, c] + [d]
  {
  }

  lemma ReadGap(r: Reading, finish: nat, rule: TimeField)
    requires !r.inFinal
    ensures ReadFrom(r, ["", FinishedPrefix + Decimal(finish), ""], rule) == r
  {
    var lines := ["", FinishedPrefix + Decimal(finish), ""];
    ReadBlank(r, rule);
    ReadFinished(r, finish, rule);
    assert Reader(rule)(r, "") == r;
    assert Reader(rule)(r, FinishedPrefix + Decimal(finish)) == r;
    FoldSame(r, lines, Reader(rule));
  }

  /**
   * With unreadable times skipped, a generated log reads back as exactly the
   * expanded log and the final table the listing writes.
   */
  lemma GeneratedLogReadsBack(initial: seq<(string, nat)>, final: seq<(string, nat)>, log: seq<LogRecord>, finish: nat)
    requires PlainListing(initial) && PlainListing(final) && PlainLog(log)
    ensures ReadLines(LogLines(initial, final, log, finish), SkipIfUnreadable)
         == Reading(Expand(log), Table(map[], final), true)
  {
    var rule := SkipIfUnreadable;
    var a := [InitialHeader] + StockLines(initial) + [""];
    var b := [""] + [FinishedPrefix + Decimal(finish)] + [""] + [FinalMarker];
    var r1 := Start.(executions := Expand(log));
    ReadPrelude(initial);
    ReadRuns(Start, log, rule);
    ReadTail(r1, finish, rule);
    ReadFinalStocks(r1.(inFinal := true), final, rule);
    FoldChain(Start, a, Start, RunLines(log), r1, b, r1.(inFinal := true),
              StockLines(final), Reading(Expand(log), Table(map[], final), true), Reader(rule));
    LogSections(initial, final, log, finish);
  }

  /** A log file is its prelude, its runs, its closing lines and its final stocks. */
  lemma LogSections(initial: seq<(string, nat)>, final: seq<(string, nat)>, log: seq<LogRecord>, finish: nat)
    ensures LogLines(initial, final, log, finish)
         == ([InitialHeader] + StockLines(initial) + [""]) + RunLines(log)
          + ([""] + [FinishedPrefix + Decimal(finish)] + [""] + [FinalMarker]) + StockLines(final)
  {
  }

  /** A listing that enumerates a map writes back exactly that map. */
  lemma {:induction false} TableOfListing(listing: seq<(string, nat)>, m: Stocks)
    requires Lists(listing, m)
    ensures Table(map[], listing) == m
  {
    if |listing| > 0 {
      var pre := listing[..|listing| - 1];
      var (k, v) := listing[|listing| - 1];
      LastNotInPrefix(listing);
      NamesPrefix(listing);
      var m' := m - {k};
      assert Lists(pre, m') by {
        forall i | 0 <= i < |pre| ensures pre[i].0 != k && m'[pre[i].0] == pre[i].1 {
          assert pre[i] == listing[i];
        }
      }
      TableOfListing(pre, m');
      assert m == m'[k := v];
    }
  }

  /** Read leniently, a file whose first line is the initial header starts with an execution of "" at time 0. */
  lemma HeaderExecution(lines: seq<string>)
    requires |lines| > 0 && lines[0] == InitialHeader
    ensures var execs := ReadLines(lines, ZeroIfUnreadable).executions;
            |execs| > 0 && execs[0] == Execution(0, "")
  {
    assert lines[..1] == [InitialHeader];
    ReadFromOne(Start, InitialHeader, ZeroIfUnreadable);
    ReadHeader(Start, ZeroIfUnreadable);
    ExecutionsGrow(lines, 1, ZeroIfUnreadable);
  }

  /**
   * As written, the header line `Initial stocks:` is read as an execution of a
   * process called "" at time 0, so the verifier rejects every generated log of
   * a problem whose processes have names.
   */
  lemma GeneratedLogRejected(data: Data, initial: seq<(string, nat)>, final: seq<(string, nat)>,
                             log: seq<LogRecord>, finish: nat, finalStocks: Stocks)
    requires forall i :: 0 <= i < |data.processes| ==> data.processes[i].id != ""
    ensures Check(data, ReadLines(LogLines(initial, final, log, finish), ZeroIfUnreadable).executions, finalStocks)
         == Invalid(ProcessNotFound("", 0))
  {
    var lines := LogLines(initial, final, log, finish);
    var execs := ReadLines(lines, ZeroIfUnreadable).executions;
    assert lines[0] == InitialHeader;
    HeaderExecution(lines);
    assert execs[..1] == [Execution(0, "")];
    assert execs[..1][..0] == [];
    assert Run(data.processes, data.stocks, execs[..1]) == Failure(ProcessNotFound("", 0));
    FailureSticks(data.processes, data.stocks, execs, 1);
  }
}
