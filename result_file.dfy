/**
 * The result-file reader of `krpsim_verif`. Each line is trimmed. A line starting
 * with "Final stocks:" switches to the final section; before it, every non-empty
 * line with a ':' that splits into exactly two fields is an execution
 * `time:process`; after it, every such line is a final stock `name:quantity`.
 * Unreadable numbers count as 0 and lines with the wrong number of fields are
 * skipped (the source reports them on the error stream).
 */
module ResultFile {

  import opened Wrappers
  import opened Resources
  import opened Text
  import opened Verifier

  /**
   * What happens to an execution line whose time field is not a number: the
   * source reads it as time 0; `SkipIfUnreadable` is the reading a generated log
   * needs (see the log file module).
   */
  datatype TimeField = ZeroIfUnreadable | SkipIfUnreadable

  /** What the reader has collected so far, and whether it is in the final section. */
  datatype Reading = Reading(executions: seq<Execution>, finalStocks: Stocks, inFinal: bool)

  const FinalMarker: string := "Final stocks:"

  const Start := Reading([], map[], false)

  function ReadLine(r: Reading, raw: string, rule: TimeField): Reading
  {
    var line := Trim(raw);
    if StartsWith(line, FinalMarker) then r.(inFinal := true)
    else if r.inFinal then
      if |line| == 0 then r
      else
        var parts := Split(line, ':');
        if |parts| == 2 then r.(finalStocks := r.finalStocks[Trim(parts[0]) := ParseOrZero(Trim(parts[1]))])
        else r
    else if |line| > 0 && ':' in line then
      var parts := Split(line, ':');
      if |parts| != 2 then r
      else if rule == SkipIfUnreadable && ParseU64(Trim(parts[0])).None? then r
      else r.(executions := r.executions + [Execution(ParseOrZero(Trim(parts[0])), Trim(parts[1]))])
    else r
  }

  /** Feeding `lines`, in order, through a line reader `f`, starting from `r`. */
  function Fold(r: Reading, lines: seq<string>, f: (Reading, string) -> Reading): Reading
  {
    if |lines| == 0 then r
    else f(Fold(r, lines[..|lines| - 1], f), lines[|lines| - 1])
  }

  function Reader(rule: TimeField): (Reading, string) -> Reading
  {
    (r, line) => ReadLine(r, line, rule)
  }

  /** Reading `lines` on from the state `r`. */
  function ReadFrom(r: Reading, lines: seq<string>, rule: TimeField): Reading
  {
    Fold(r, lines, Reader(rule))
  }

  /** Reading `a + b` is reading `a`, then `b`. */
  lemma {:induction false} FoldAppend(r: Reading, a: seq<string>, b: seq<string>, f: (Reading, string) -> Reading)
    ensures Fold(r, a + b, f) == Fold(Fold(r, a, f), b, f)
  {
    if |b| == 0 {
      assert a + b == a;
    } else {
      FoldAppend(r, a, b[..|b| - 1], f);
      assert (a + b)[..|a + b| - 1] == a + b[..|b| - 1];
    }
  }

  /** Lines that each leave `r` unchanged leave it unchanged together. */
  lemma {:induction false} FoldSame(r: Reading, lines: seq<string>, f: (Reading, string) -> Reading)
    requires forall line :: line in lines ==> f(r, line) == r
    ensures Fold(r, lines, f) == r
  {
    if |lines| > 0 {
      assert lines[|lines| - 1] in lines;
      FoldSame(r, lines[..|lines| - 1], f);
    }
  }

  /** Reading four pieces in a row, each taking the state one step further. */
  lemma FoldChain(r0: Reading, a: seq<string>, r1: Reading, b: seq<string>, r2: Reading,
                  c: seq<string>, r3: Reading, d: seq<string>, r4: Reading, f: (Reading, string) -> Reading)
    requires Fold(r0, a, f) == r1 && Fold(r1, b, f) == r2 && Fold(r2, c, f) == r3 && Fold(r3, d, f) == r4
    ensures Fold(r0, a + b + c + d, f) == r4
  {
    FoldAppend(r0, a, b, f);
    FoldAppend(r0, a + b, c, f);
    FoldAppend(r0, a + b + c, d, f);
  }

  lemma ReadFromLast(r: Reading, lines: seq<string>, rule: TimeField)
    requires |lines| > 0
    ensures ReadFrom(r, lines, rule) == ReadLine(ReadFrom(r, lines[..|lines| - 1], rule), lines[|lines| - 1], rule)
  {
  }

  function ReadLines(lines: seq<string>, rule: TimeField): Reading
  {
    ReadFrom(Start, lines, rule)
  }

  /** The reading loop of the verifier, as written (unreadable times count as 0). */
  method ParseResultFile(lines: seq<string>) returns (executions: seq<Execution>, finalStocks: Stocks)
    ensures executions == ReadLines(lines, ZeroIfUnreadable).executions
    ensures finalStocks == ReadLines(lines, ZeroIfUnreadable).finalStocks
  {
    executions := [];
    finalStocks := map[];
    var parsingFinal := false;
    for i := 0 to |lines|
      invariant ReadLines(lines[..i], ZeroIfUnreadable) == Reading(executions, finalStocks, parsingFinal)
    {
      assert lines[..i + 1][..i] == lines[..i];
      var line := Trim(lines[i]);
      if StartsWith(line, FinalMarker) {
        parsingFinal := true;
        continue;
      }
      if parsingFinal {
        if |line| > 0 {
          var parts := Split(line, ':');
          if |parts| == 2 {
            finalStocks := finalStocks[Trim(parts[0]) := ParseOrZero(Trim(parts[1]))];
          }
        }
      } else if |line| > 0 && ':' in line {
        var parts := Split(line, ':');
        if |parts| == 2 {
          executions := executions + [Execution(ParseOrZero(Trim(parts[0])), Trim(parts[1]))];
        }
      }
    }
    assert lines[..|lines|] == lines;
  }

  // ---------------------------------------------------------------------
  // Properties of the reader

  /** Reading more lines only ever appends executions. */
  lemma {:induction false} ExecutionsGrow(lines: seq<string>, i: nat, rule: TimeField)
    requires i <= |lines|
    ensures ReadLines(lines[..i], rule).executions <= ReadLines(lines, rule).executions
  {
    if i < |lines| {
      var pre := lines[..|lines| - 1];
      ExecutionsGrow(pre, i, rule);
      assert pre[..i] == lines[..i];
    } else {
      assert lines[..i] == lines;
    }
  }

  /** After the final-stocks marker no line is read as an execution, and the reader stays in the final section. */
  lemma {:induction false} MarkerEndsExecutions(lines: seq<string>, i: nat, rule: TimeField)
    requires i < |lines| && StartsWith(Trim(lines[i]), FinalMarker)
    ensures ReadLines(lines, rule).inFinal
    ensures ReadLines(lines, rule).executions == ReadLines(lines[..i], rule).executions
  {
    var pre := lines[..|lines| - 1];
    if i == |lines| - 1 {
      assert pre == lines[..i];
      ReadLineKeepsExecutions(ReadLines(pre, rule), lines[i], rule);
    } else {
      MarkerEndsExecutions(pre, i, rule);
      assert pre[..i] == lines[..i];
      ReadLineKeepsExecutions(ReadLines(pre, rule), lines[|lines| - 1], rule);
    }
  }

  /** In the final section, or on the marker line, a line never adds an execution. */
  lemma ReadLineKeepsExecutions(r: Reading, raw: string, rule: TimeField)
    requires r.inFinal || StartsWith(Trim(raw), FinalMarker)
    ensures ReadLine(r, raw, rule).inFinal && ReadLine(r, raw, rule).executions == r.executions
  {
  }

  /** A name as the lexer produces it: starts with a letter, no ':' or ' ', no whitespace at the end. */
  predicate PlainName(s: string)
  {
    && |s| > 0 && !IsDigit(s[0]) && s[0] != '+' && !IsWhitespace(s[0]) && !IsWhitespace(s[|s| - 1])
    && ':' !in s && ' ' !in s
  }

  lemma DigitsNoColon(d: string)
    requires AllDigits(d)
    ensures ':' !in d && ' ' !in d
  {
    forall i | 0 <= i < |d| ensures d[i] != ':' && d[i] != ' ' {
      assert IsDigit(d[i]);
    }
  }

  /** A line `<name>:<rest>` with a plain name is never the final-stocks marker. */
  lemma NotMarker(name: string, rest: string)
    requires PlainName(name)
    ensures !StartsWith(name + ":" + rest, FinalMarker)
  {
    var line := name + ":" + rest;
    var j := if |name| >= 6 then 5 else |name|;
    assert line[j] != FinalMarker[j] by {
      if |name| >= 6 {
        assert line[5] == name[5] && name[5] in name;
      } else {
        assert line[|name|] == ':';
      }
    }
    if |line| >= |FinalMarker| {
      assert line[..|FinalMarker|][j] == line[j];
    }
  }

  /** A line `<digits>:<rest>` is never the final-stocks marker. */
  lemma NumberNotMarker(d: string, rest: string)
    requires |d| > 0 && AllDigits(d)
    ensures !StartsWith(d + ":" + rest, FinalMarker)
  {
    var line := d + ":" + rest;
    assert line[0] == d[0] && IsDigit(d[0]);
    if |line| >= |FinalMarker| {
      assert line[..|FinalMarker|][0] == line[0];
    }
  }

  /** Before the marker, a written execution line `t:name` is read back as that execution. */
  lemma ReadExecutionLine(r: Reading, t: nat, name: string, rule: TimeField)
    requires !r.inFinal && t <= Text.U64_MAX && PlainName(name)
    ensures ReadLine(r, Decimal(t) + ":" + name, rule) == r.(executions := r.executions + [Execution(t, name)])
  {
    var d := Decimal(t);
    var line := d + ":" + name;
    assert line[0] == d[0] && line[|line| - 1] == name[|name| - 1];
    assert !IsWhitespace(d[0]) by { assert IsDigit(d[0]); }
    TrimNoOp(line);
    NumberNotMarker(d, name);
    DigitsNoColon(d);
    SplitOnce(d, ':', name);
    assert ':' in line by { assert line[|d|] == ':'; }
    assert !IsWhitespace(d[|d| - 1]) by { assert IsDigit(d[|d| - 1]); }
    TrimNoOp(d);
    TrimNoOp(name);
    ParseDecimal(t);
  }

  /** After the marker, a written stock line `name:q` sets that final stock to q. */
  lemma ReadStockLine(r: Reading, name: string, q: nat, rule: TimeField)
    requires r.inFinal && q <= Text.U64_MAX && PlainName(name)
    ensures ReadLine(r, name + ":" + Decimal(q), rule) == r.(finalStocks := r.finalStocks[name := q])
  {
    var d := Decimal(q);
    var line := name + ":" + d;
    assert line[0] == name[0] && line[|line| - 1] == d[|d| - 1];
    assert !IsWhitespace(d[|d| - 1]) by { assert IsDigit(d[|d| - 1]); }
    TrimNoOp(line);
    NotMarker(name, d);
    DigitsNoColon(d);
    SplitOnce(name, ':', d);
    assert !IsWhitespace(d[0]) by { assert IsDigit(d[0]); }
    TrimNoOp(d);
    TrimNoOp(name);
    ParseDecimal(q);
  }

  /**
   * Before the marker, a stock line `name:q` is an execution line too: as written
   * it becomes an execution at time 0 of a process called like the quantity; with
   * unreadable times skipped, it is ignored.
   */
  lemma ReadStockLineEarly(r: Reading, name: string, q: nat, rule: TimeField)
    requires !r.inFinal && q <= Text.U64_MAX && PlainName(name)
    ensures ReadLine(r, name + ":" + Decimal(q), rule)
         == if rule == SkipIfUnreadable then r
            else r.(executions := r.executions + [Execution(0, Decimal(q))])
  {
    var d := Decimal(q);
    var line := name + ":" + d;
    assert line[0] == name[0] && line[|line| - 1] == d[|d| - 1];
    assert !IsWhitespace(d[|d| - 1]) by { assert IsDigit(d[|d| - 1]); }
    TrimNoOp(line);
    NotMarker(name, d);
    DigitsNoColon(d);
    SplitOnce(name, ':', d);
    assert ':' in line by { assert line[|name|] == ':'; }
    TrimNoOp(name);
    assert !AllDigits(name) by { assert !IsDigit(name[0]); }
    assert ParseU64(name).None? && ParseOrZero(name) == 0;
    assert !IsWhitespace(d[0]) by { assert IsDigit(d[0]); }
    TrimNoOp(d);
    assert Trim(line) == line && Split(line, ':') == [name, d] && Trim(name) == name && Trim(d) == d;
  }
}
