/**
 * The recursive-descent parser of `parser.rs` over a token sequence. A
 * configuration is made of stock lines `name:quantity`, process lines
 * `name:(in:q;...):(out:q;...):time` and one line `optimize:(a;b;...)`,
 * separated by new lines. The functions below say what each parsing routine
 * does, as a cursor position moved over the tokens and a configuration built
 * up; the class `Parser` holds the same state in fields and is proved against
 * them.
 */
module Parsing {

  import opened Wrappers
  import opened Resources
  import opened Tokens
  import StateSpace

  datatype Error =
    | ExpectedLine
    | MissingOptimize
    | MissingStocks
    | MissingProcess
    | DuplicatedOptimize
    | DuplicatedIdentifier
    | UnexpectedEOF
    | UnexpectedToken(token: Token)
    /** Never produced: the check of input stocks is commented out in the source. */
    | UndefinedStock(stock: string)
    | ExpectedToken(expected: Token, found: Token)

  /** What the parser has read so far: the public fields of `Parser`. */
  datatype Config = Config(stocks: map<string, nat>, processes: seq<Process>, optimize: Option<seq<string>>)

  const Empty := Config(map[], [], None)

  /** Where a line-level routine leaves the parser: its result, the cursor and the configuration. */
  datatype Outcome = Outcome(result: Result<(), Error>, pos: nat, config: Config)

  // ---------------------------------------------------------------------
  // Token-level routines: a result and the new cursor

  function TokenAt(tokens: seq<Token>, pos: nat): Option<Token>
  {
    if pos < |tokens| then Some(tokens[pos]) else None
  }

  /** `consume`: on the expected token step over it; otherwise report what was found, or the end. */
  function Expect(tokens: seq<Token>, pos: nat, t: Token): (r: (Result<(), Error>, nat))
    ensures r.0.Success? <==> pos < |tokens| && tokens[pos] == t
    ensures r.1 == if r.0.Success? then pos + 1 else pos
    ensures r.0.Failure? ==> r.0.error == if pos < |tokens| then ExpectedToken(t, tokens[pos]) else UnexpectedEOF
  {
    if pos < |tokens| && tokens[pos] == t then (Success(()), pos + 1)
    else if pos < |tokens| then (Failure(ExpectedToken(t, tokens[pos])), pos)
    else (Failure(UnexpectedEOF), pos)
  }

  /** `consume_ident`: the name of an identifier token, stepping over it. */
  function ExpectIdent(tokens: seq<Token>, pos: nat): (r: (Result<string, Error>, nat))
    ensures r.0.Success? <==> pos < |tokens| && tokens[pos].Identifier?
    ensures r.0.Success? ==> r.0.value == tokens[pos].name && r.1 == pos + 1
    ensures r.0.Failure? ==> r.1 == pos
  {
    if pos < |tokens| && tokens[pos].Identifier? then (Success(tokens[pos].name), pos + 1)
    else if pos < |tokens| then (Failure(ExpectedToken(Identifier(""), tokens[pos])), pos)
    else (Failure(UnexpectedEOF), pos)
  }

  /** `consume_number`: the value of a number token; at the end of the tokens the error is `MissingProcess`. */
  function ExpectNumber(tokens: seq<Token>, pos: nat): (r: (Result<nat, Error>, nat))
    ensures r.0.Success? <==> pos < |tokens| && tokens[pos].Number?
    ensures r.0.Success? ==> r.0.value == tokens[pos].value && r.1 == pos + 1
    ensures r.0.Failure? ==> r.1 == pos && (pos >= |tokens| <==> r.0.error == MissingProcess)
  {
    if pos < |tokens| && tokens[pos].Number? then (Success(tokens[pos].value), pos + 1)
    else if pos < |tokens| then (Failure(ExpectedToken(Number(0), tokens[pos])), pos)
    else (Failure(MissingProcess), pos)
  }

  /** The loop of `parse_tuple` after its `(`: `name:number` pairs separated by `;` up to `)`. */
  function TupleItems(tokens: seq<Token>, pos: nat, acc: seq<(string, nat)>): (r: (Result<seq<(string, nat)>, Error>, nat))
    requires pos <= |tokens|
    ensures pos <= r.1 <= |tokens|
    ensures r.0.Success? ==> |r.0.value| > |acc| && r.0.value[..|acc|] == acc
    decreases |tokens| - pos, 1
  {
    var (name, p1) := ExpectIdent(tokens, pos);
    if name.Failure? then (Failure(name.error), p1)
    else
      var (colon, p2) := Expect(tokens, p1, Colon);
      if colon.Failure? then (Failure(colon.error), p2)
      else
        var (amount, p3) := ExpectNumber(tokens, p2);
        if amount.Failure? then (Failure(amount.error), p3)
        else
          var items := acc + [(name.value, amount.value)];
          var r := TupleNext(tokens, p3, items);
          assert r.0.Success? ==> r.0.value[..|acc|] == r.0.value[..|items|][..|acc|];
          r
  }

  /** What `parse_tuple` does after a pair: `)` ends the tuple, `;` reads another pair. */
  function TupleNext(tokens: seq<Token>, pos: nat, items: seq<(string, nat)>): (r: (Result<seq<(string, nat)>, Error>, nat))
    requires pos <= |tokens|
    ensures pos <= r.1 <= |tokens|
    ensures r.0.Success? ==> |r.0.value| >= |items| && r.0.value[..|items|] == items
    decreases |tokens| - pos, 0
  {
    if pos == |tokens| then (Failure(UnexpectedEOF), pos)
    else if tokens[pos] == RightParen then (Success(items), pos + 1)
    else if tokens[pos] == Semicolon then TupleItems(tokens, pos + 1, items)
    else (Failure(UnexpectedToken(tokens[pos])), pos)
  }

  /** `parse_tuple`: `(`, then at least one pair. */
  function Tuple(tokens: seq<Token>, pos: nat): (r: (Result<seq<(string, nat)>, Error>, nat))
    requires pos <= |tokens|
    ensures pos <= r.1 <= |tokens|
    ensures r.0.Success? ==> |r.0.value| > 0 && r.1 > pos
  {
    var (open, p1) := Expect(tokens, pos, LeftParen);
    if open.Failure? then (Failure(open.error), p1) else TupleItems(tokens, p1, [])
  }

  /** The loop of `parse_optimize` after its `(`: names or `time`, separated by `;` up to `)`. */
  function OptimizeItems(tokens: seq<Token>, pos: nat, acc: seq<string>): (r: (Result<seq<string>, Error>, nat))
    requires pos <= |tokens|
    ensures pos <= r.1 <= |tokens|
    ensures r.0.Success? ==> |r.0.value| > |acc| && r.0.value[..|acc|] == acc
    decreases |tokens| - pos, 1
  {
    if pos == |tokens| then (Failure(UnexpectedEOF), pos)
    else if !tokens[pos].Time? && !tokens[pos].Identifier? then (Failure(UnexpectedToken(tokens[pos])), pos)
    else
      var names := acc + [if tokens[pos].Time? then "time" else tokens[pos].name];
      var r := OptimizeNext(tokens, pos + 1, names);
      assert r.0.Success? ==> r.0.value[..|acc|] == r.0.value[..|names|][..|acc|];
      r
  }

  /** What `parse_optimize` does after a name: `)` ends the list, `;` reads another name. */
  function OptimizeNext(tokens: seq<Token>, pos: nat, names: seq<string>): (r: (Result<seq<string>, Error>, nat))
    requires pos <= |tokens|
    ensures pos <= r.1 <= |tokens|
    ensures r.0.Success? ==> |r.0.value| >= |names| && r.0.value[..|names|] == names
    decreases |tokens| - pos, 0
  {
    if pos == |tokens| then (Failure(UnexpectedEOF), pos)
    else if tokens[pos] == RightParen then (Success(names), pos + 1)
    else if tokens[pos] == Semicolon then OptimizeItems(tokens, pos + 1, names)
    else (Failure(UnexpectedToken(tokens[pos])), pos)
  }

  // ---------------------------------------------------------------------
  // Line-level routines

  /**
   * What no line takes back: processes are only appended, stock names only
   * added, and an optimize list once read stays.
   */
  ghost predicate Grows(before: Config, after: Config)
  {
    && before.processes <= after.processes
    && before.stocks.Keys <= after.stocks.Keys
    && (before.optimize.Some? ==> after.optimize == before.optimize)
  }

  /** No two processes share an id, and none is named like the process `id` about to be added. */
  predicate Fresh(cfg: Config, id: string)
  {
    id !in cfg.stocks && forall i :: 0 <= i < |cfg.processes| ==> cfg.processes[i].id != id
  }

  /** The loop over the outputs of `parse_process`: each output stock not yet known is added with quantity 0. */
  function AddOutputs(stocks: map<string, nat>, items: seq<(string, nat)>): (r: map<string, nat>)
    ensures r.Keys == stocks.Keys + Names(items)
    ensures forall k :: k in stocks ==> r[k] == stocks[k]
    ensures forall k :: k in r && k !in stocks ==> r[k] == 0
  {
    if |items| == 0 then stocks
    else
      var before := AddOutputs(stocks, items[..|items| - 1]);
      NamesPrefix(items);
      var k := items[|items| - 1].0;
      if k in before then before else before[k := 0]
  }

  /** `parse_optimize`, called on the `optimize` token: a second optimize line is refused. */
  function OptimizeLine(tokens: seq<Token>, pos: nat, cfg: Config): (r: Outcome)
    requires pos < |tokens|
    ensures pos <= r.pos <= |tokens|
    ensures r.result.Success? ==> r.pos > pos
    ensures r.config.stocks == cfg.stocks && r.config.processes == cfg.processes
    ensures cfg.optimize.Some? ==> r == Outcome(Failure(DuplicatedOptimize), pos, cfg)
    ensures r.result.Success? <==> r.config.optimize != cfg.optimize
    ensures r.result.Success? ==> r.config.optimize.Some? && |r.config.optimize.value| > 0 && tokens[r.pos - 1] == NewLine
  {
    if cfg.optimize.Some? then Outcome(Failure(DuplicatedOptimize), pos, cfg)
    else
      var (colon, p1) := Expect(tokens, pos + 1, Colon);
      if colon.Failure? then Outcome(Failure(colon.error), p1, cfg)
      else
        var (open, p2) := Expect(tokens, p1, LeftParen);
        if open.Failure? then Outcome(Failure(open.error), p2, cfg)
        else
          var (names, p3) := OptimizeItems(tokens, p2, []);
          if names.Failure? then Outcome(Failure(names.error), p3, cfg)
          else
            var (newline, p4) := Expect(tokens, p3, NewLine);
            if newline.Failure? then Outcome(Failure(newline.error), p4, cfg)
            else Outcome(Success(()), p4, cfg.(optimize := Some(names.value)))
  }

  /**
   * `parse_process`, called after `id:`. The id may be neither a stock nor a
   * process already; the inputs are not checked; unknown outputs are added
   * with 0 as soon as the output tuple has been read, even when the rest of
   * the line then fails.
   */
  function ProcessLine(tokens: seq<Token>, pos: nat, cfg: Config, id: string): (r: Outcome)
    requires pos <= |tokens|
    ensures pos <= r.pos <= |tokens|
    ensures r.result.Success? ==> r.pos > pos
    ensures !Fresh(cfg, id) ==> r == Outcome(Failure(DuplicatedIdentifier), pos, cfg)
    ensures r.config.optimize == cfg.optimize
    ensures r.result.Failure? ==> r.config.processes == cfg.processes
    ensures cfg.stocks.Keys <= r.config.stocks.Keys
    ensures forall k :: k in r.config.stocks ==> r.config.stocks[k] == if k in cfg.stocks then cfg.stocks[k] else 0
    ensures r.result.Success? ==>
      && Fresh(cfg, id)
      && |r.config.processes| == |cfg.processes| + 1
      && r.config.processes[..|cfg.processes|] == cfg.processes
      && var p := r.config.processes[|cfg.processes|];
         p.id == id && |p.input| > 0 && |p.output| > 0 && r.config.stocks == AddOutputs(cfg.stocks, p.output)
  {
    if id in cfg.stocks || Find(cfg.processes, id).Some? then Outcome(Failure(DuplicatedIdentifier), pos, cfg)
    else
      var (input, p1) := Tuple(tokens, pos);
      if input.Failure? then Outcome(Failure(input.error), p1, cfg)
      else
        var (colon, p2) := Expect(tokens, p1, Colon);
        if colon.Failure? then Outcome(Failure(colon.error), p2, cfg)
        else
          var (output, p3) := Tuple(tokens, p2);
          if output.Failure? then Outcome(Failure(output.error), p3, cfg)
          else
            var withOutputs := cfg.(stocks := AddOutputs(cfg.stocks, output.value));
            var (colon2, p4) := Expect(tokens, p3, Colon);
            if colon2.Failure? then Outcome(Failure(colon2.error), p4, withOutputs)
            else
              var (time, p5) := ExpectNumber(tokens, p4);
              if time.Failure? then Outcome(Failure(time.error), p5, withOutputs)
              else
                var p := Process(id, input.value, output.value, time.value);
                Outcome(Success(()), p5, withOutputs.(processes := cfg.processes + [p]))
  }

  /** `parse_stock`, called after `name:`: the quantity is stored even when the name is a duplicate. */
  function StockLine(tokens: seq<Token>, pos: nat, cfg: Config, name: string): (r: Outcome)
    requires pos <= |tokens|
    ensures pos <= r.pos <= |tokens|
    ensures r.result.Success? ==> r.pos > pos
    ensures r.config.processes == cfg.processes && r.config.optimize == cfg.optimize
    ensures r.config.stocks == if pos < |tokens| && tokens[pos].Number? then cfg.stocks[name := tokens[pos].value] else cfg.stocks
    ensures name in cfg.stocks && pos < |tokens| && tokens[pos].Number? ==> r.result == Failure(DuplicatedIdentifier)
    ensures r.result.Success? ==> name !in cfg.stocks && r.pos == pos + 2 && tokens[pos + 1] == NewLine
  {
    var (amount, p1) := ExpectNumber(tokens, pos);
    if amount.Failure? then Outcome(Failure(amount.error), p1, cfg)
    else
      var stored := cfg.(stocks := cfg.stocks[name := amount.value]);
      if name in cfg.stocks then Outcome(Failure(DuplicatedIdentifier), p1, stored)
      else
        var (newline, p2) := Expect(tokens, p1, NewLine);
        Outcome(newline, p2, stored)
  }

  /** The identifier branch of `parse_line`, after the name: `:` and then a process or a stock. */
  function Declaration(tokens: seq<Token>, pos: nat, cfg: Config, name: string): (r: Outcome)
    requires pos <= |tokens|
    ensures pos <= r.pos <= |tokens|
    ensures r.result.Success? ==> r.pos > pos
  {
    var (colon, p1) := Expect(tokens, pos, Colon);
    if colon.Failure? then Outcome(Failure(colon.error), p1, cfg)
    else if p1 == |tokens| then Outcome(Failure(UnexpectedEOF), p1, cfg)
    else if tokens[p1] == LeftParen then ProcessLine(tokens, p1, cfg, name)
    else if tokens[p1].Number? then StockLine(tokens, p1, cfg, name)
    else Outcome(Failure(UnexpectedToken(tokens[p1])), p1, cfg)
  }

  /** `parse_line`: dispatch on the first token. A successful line always moves the cursor. */
  function Line(tokens: seq<Token>, pos: nat, cfg: Config): (r: Outcome)
    requires pos <= |tokens|
    ensures pos <= r.pos <= |tokens|
    ensures r.result.Success? ==> r.pos > pos
  {
    if pos == |tokens| then Outcome(Failure(ExpectedLine), pos, cfg)
    else
      match tokens[pos]
      case Optimize => OptimizeLine(tokens, pos, cfg)
      case Identifier(name) => Declaration(tokens, pos + 1, cfg, name)
      case NewLine => Outcome(Success(()), pos + 1, cfg)
      case _ => Outcome(Failure(UnexpectedToken(tokens[pos])), pos, cfg)
  }

  /**
   * `parse`: lines until the tokens run out, then the three completeness
   * checks in order: an optimize line, at least one stock, at least one
   * process.
   */
  function Parsed(tokens: seq<Token>, pos: nat, cfg: Config): (r: Outcome)
    requires pos <= |tokens|
    ensures pos <= r.pos <= |tokens|
    ensures pos == |tokens| ==> r.config == cfg
    ensures pos == |tokens| ==>
      (r.result.Success? <==> cfg.optimize.Some? && |cfg.stocks| > 0 && |cfg.processes| > 0)
    ensures r.result.Success? ==>
      r.pos == |tokens| && r.config.optimize.Some? && |r.config.stocks| > 0 && |r.config.processes| > 0
    decreases |tokens| - pos
  {
    if pos == |tokens| then
      if cfg.optimize.None? then Outcome(Failure(MissingOptimize), pos, cfg)
      else if |cfg.stocks| == 0 then Outcome(Failure(MissingStocks), pos, cfg)
      else if |cfg.processes| == 0 then Outcome(Failure(MissingProcess), pos, cfg)
      else Outcome(Success(()), pos, cfg)
    else
      var line := Line(tokens, pos, cfg);
      if line.result.Failure? then line else Parsed(tokens, line.pos, line.config)
  }

  /** One line only appends a process, adds stock names or sets the objectives once, and keeps ids distinct. */
  lemma LineGrows(tokens: seq<Token>, pos: nat, cfg: Config)
    requires pos <= |tokens|
    ensures var r := Line(tokens, pos, cfg);
      && Grows(cfg, r.config)
      && |r.config.processes| <= |cfg.processes| + 1
      && (StateSpace.DistinctIds(cfg.processes) ==> StateSpace.DistinctIds(r.config.processes))
  {
    var r := Line(tokens, pos, cfg);
    if pos < |tokens| && tokens[pos].Identifier? && r.result.Success? && |r.config.processes| > |cfg.processes| {
      var (_, p1) := Expect(tokens, pos + 1, Colon);
      assert r == ProcessLine(tokens, p1, cfg, tokens[pos].name);
    }
  }

  /**
   * What `parse` builds only grows: processes are appended in order, stock
   * names never disappear, the objectives once read stay, and process ids stay
   * distinct.
   */
  lemma {:induction false} ParsedGrows(tokens: seq<Token>, pos: nat, cfg: Config)
    requires pos <= |tokens|
    ensures var r := Parsed(tokens, pos, cfg);
      && Grows(cfg, r.config)
      && (StateSpace.DistinctIds(cfg.processes) ==> StateSpace.DistinctIds(r.config.processes))
    decreases |tokens| - pos
  {
    if pos < |tokens| {
      var line := Line(tokens, pos, cfg);
      LineGrows(tokens, pos, cfg);
      if line.result.Success? {
        ParsedGrows(tokens, line.pos, line.config);
      }
    }
  }

  // ---------------------------------------------------------------------
  // Round trips: the tokens of a well-formed line parse back to what they spell

  /** The inside of a tuple: `name:q` pairs joined by `;`. */
  function Pairs(items: seq<(string, nat)>): (r: seq<Token>)
    requires |items| > 0
    ensures |r| == 4 * |items| - 1
  {
    var head := [Identifier(items[0].0), Colon, Number(items[0].1)];
    if |items| == 1 then head else head + [Semicolon] + Pairs(items[1..])
  }

  function TupleTokens(items: seq<(string, nat)>): seq<Token>
    requires |items| > 0
  {
    [LeftParen] + Pairs(items) + [RightParen]
  }

  /** The first pair of a tuple body, and what follows it. */
  lemma {:induction false} PairsHead(tokens: seq<Token>, prefix: seq<Token>, items: seq<(string, nat)>, rest: seq<Token>)
    requires |items| > 0 && tokens == prefix + Pairs(items) + [RightParen] + rest
    ensures var p := |prefix|;
      && p + 3 < |tokens|
      && tokens[p] == Identifier(items[0].0) && tokens[p + 1] == Colon && tokens[p + 2] == Number(items[0].1)
      && tokens[p + 3] == (if |items| == 1 then RightParen else Semicolon)
    ensures |items| > 1 ==>
      tokens == (prefix + [Identifier(items[0].0), Colon, Number(items[0].1), Semicolon]) + Pairs(items[1..]) + [RightParen] + rest
  {
    var head := [Identifier(items[0].0), Colon, Number(items[0].1)];
    assert Pairs(items)[..3] == head;
    if |items| > 1 {
      assert Pairs(items) == head + [Semicolon] + Pairs(items[1..]);
      assert head + [Semicolon] == [Identifier(items[0].0), Colon, Number(items[0].1), Semicolon];
    }
  }

  /**
   * Proof helper for `PairsRead` and `ObjectivesRead`: appending the head of
   * `xs`, then its tail, appends all of `xs`.
   */
  lemma AppendHead<T>(acc: seq<T>, xs: seq<T>)
    requires |xs| > 0
    ensures acc + [xs[0]] + xs[1..] == acc + xs
  {
    assert xs == [xs[0]] + xs[1..];
  }

  /** One `name:q` pair of a tuple body, read where the tokens spell it. */
  lemma PairStep(tokens: seq<Token>, p: nat, acc: seq<(string, nat)>, item: (string, nat))
    requires p + 3 < |tokens| && tokens[p] == Identifier(item.0) && tokens[p + 1] == Colon && tokens[p + 2] == Number(item.1)
    ensures TupleItems(tokens, p, acc) == TupleNext(tokens, p + 3, acc + [item])
  {
  }

  lemma {:induction false} PairsRead(tokens: seq<Token>, prefix: seq<Token>, items: seq<(string, nat)>, rest: seq<Token>, acc: seq<(string, nat)>)
    requires |items| > 0 && tokens == prefix + Pairs(items) + [RightParen] + rest
    ensures TupleItems(tokens, |prefix|, acc) == (Success(acc + items), |prefix| + |Pairs(items)| + 1)
    decreases |items|
  {
    PairsHead(tokens, prefix, items, rest);
    PairStep(tokens, |prefix|, acc, items[0]);
    if |items| == 1 {
      assert acc + [items[0]] == acc + items;
    } else {
      var before := prefix + [Identifier(items[0].0), Colon, Number(items[0].1), Semicolon];
      PairsRead(tokens, before, items[1..], rest, acc + [items[0]]);
      AppendHead(acc, items);
    }
  }


  /** `parse_tuple` reads back exactly the pairs of a rendered tuple, in order, and stops after its `)`. */
  lemma TupleRoundTrip(tokens: seq<Token>, prefix: seq<Token>, items: seq<(string, nat)>, rest: seq<Token>)
    requires |items| > 0 && tokens == prefix + TupleTokens(items) + rest
    ensures Tuple(tokens, |prefix|) == (Success(items), |prefix| + |TupleTokens(items)|)
  {
    PairsRead(tokens, prefix + [LeftParen], items, rest, []);
    assert [] + items == items;
  }

  /** An objective as written: the name `time` is the keyword token. */
  function Objective(name: string): Token
  {
    if name == "time" then Time else Identifier(name)
  }

  function Objectives(names: seq<string>): (r: seq<Token>)
    requires |names| > 0
    ensures |r| == 2 * |names| - 1
  {
    if |names| == 1 then [Objective(names[0])] else [Objective(names[0]), Semicolon] + Objectives(names[1..])
  }

  function OptimizeTokens(names: seq<string>): seq<Token>
    requires |names| > 0
  {
    [Optimize, Colon, LeftParen] + Objectives(names) + [RightParen, NewLine]
  }

  /** One objective, read where the tokens spell it. */
  lemma ObjectiveStep(tokens: seq<Token>, p: nat, acc: seq<string>, name: string)
    requires p < |tokens| && tokens[p] == Objective(name)
    ensures OptimizeItems(tokens, p, acc) == OptimizeNext(tokens, p + 1, acc + [name])
  {
  }

  lemma {:induction false} ObjectivesRead(tokens: seq<Token>, prefix: seq<Token>, names: seq<string>, rest: seq<Token>, acc: seq<string>)
    requires |names| > 0 && tokens == prefix + Objectives(names) + [RightParen] + rest
    ensures OptimizeItems(tokens, |prefix|, acc) == (Success(acc + names), |prefix| + |Objectives(names)| + 1)
    decreases |names|
  {
    var p := |prefix|;
    assert tokens[p] == Objective(names[0]);
    ObjectiveStep(tokens, p, acc, names[0]);
    if |names| == 1 {
      assert tokens[p + 1] == RightParen;
      assert acc + [names[0]] == acc + names;
    } else {
      var before := prefix + [Objective(names[0]), Semicolon];
      assert tokens[p + 1] == Semicolon;
      ObjectivesRead(tokens, before, names[1..], rest, acc + [names[0]]);
      AppendHead(acc, names);
    }
  }

  /** A rendered optimize line sets the objectives, `time` included, when none were set. */
  lemma OptimizeRoundTrip(tokens: seq<Token>, prefix: seq<Token>, names: seq<string>, rest: seq<Token>, cfg: Config)
    requires |names| > 0 && cfg.optimize.None? && tokens == prefix + OptimizeTokens(names) + rest
    ensures Line(tokens, |prefix|, cfg) == Outcome(Success(()), |prefix| + |OptimizeTokens(names)|, cfg.(optimize := Some(names)))
  {
    var p := |prefix|;
    assert tokens[p] == Optimize && tokens[p + 1] == Colon && tokens[p + 2] == LeftParen;
    ObjectivesRead(tokens, prefix + [Optimize, Colon, LeftParen], names, [NewLine] + rest, []);
    assert [] + names == names;
    assert tokens[p + 3 + |Objectives(names)| + 1] == NewLine;
  }

  function StockTokens(name: string, quantity: nat): seq<Token>
  {
    [Identifier(name), Colon, Number(quantity), NewLine]
  }

  /** A rendered stock line with a new name stores its quantity. */
  lemma StockRoundTrip(tokens: seq<Token>, prefix: seq<Token>, name: string, quantity: nat, rest: seq<Token>, cfg: Config)
    requires name !in cfg.stocks && tokens == prefix + StockTokens(name, quantity) + rest
    ensures Line(tokens, |prefix|, cfg) == Outcome(Success(()), |prefix| + 4, cfg.(stocks := cfg.stocks[name := quantity]))
  {
    var p := |prefix|;
    assert tokens[p] == Identifier(name) && tokens[p + 1] == Colon;
    assert tokens[p + 2] == Number(quantity) && tokens[p + 3] == NewLine;
  }

  /**
   * A stock line for a name already in the map, including one an earlier
   * process created from its outputs, fails with `DuplicatedIdentifier`, and
   * the map holds the new quantity when it does.
   */
  lemma StockRedeclared(tokens: seq<Token>, prefix: seq<Token>, name: string, quantity: nat, rest: seq<Token>, cfg: Config)
    requires name in cfg.stocks && tokens == prefix + StockTokens(name, quantity) + rest
    ensures Line(tokens, |prefix|, cfg)
         == Outcome(Failure(DuplicatedIdentifier), |prefix| + 3, cfg.(stocks := cfg.stocks[name := quantity]))
  {
    var p := |prefix|;
    assert tokens[p] == Identifier(name) && tokens[p + 1] == Colon && tokens[p + 2] == Number(quantity);
  }

  /** The part of a process line after `id:`. */
  function ProcessBody(p: Process): seq<Token>
    requires |p.input| > 0 && |p.output| > 0
  {
    TupleTokens(p.input) + [Colon] + TupleTokens(p.output) + [Colon, Number(p.time)]
  }

  /** A process line as written: `id:(inputs):(outputs):time`, without its new line. */
  function ProcessTokens(p: Process): seq<Token>
    requires |p.input| > 0 && |p.output| > 0
  {
    [Identifier(p.id), Colon] + ProcessBody(p)
  }

  /** `parse_process` over tokens whose five parts read as `p`'s parts. */
  lemma ProcessLineReads(tokens: seq<Token>, pos: nat, p1: nat, p3: nat, p: Process, cfg: Config)
    requires pos <= p1 < p3 && p3 + 2 <= |tokens| && Fresh(cfg, p.id)
    requires Tuple(tokens, pos) == (Success(p.input), p1)
    requires Expect(tokens, p1, Colon) == (Success(()), p1 + 1)
    requires Tuple(tokens, p1 + 1) == (Success(p.output), p3)
    requires Expect(tokens, p3, Colon) == (Success(()), p3 + 1)
    requires ExpectNumber(tokens, p3 + 1) == (Success(p.time), p3 + 2)
    ensures ProcessLine(tokens, pos, cfg, p.id)
         == Outcome(Success(()), p3 + 2, Config(AddOutputs(cfg.stocks, p.output), cfg.processes + [p], cfg.optimize))
  {
    assert Find(cfg.processes, p.id).None?;
  }

  /** The input tuple of a process body reads back, and a colon follows it. */
  lemma ProcessInputRead(tokens: seq<Token>, prefix: seq<Token>, p: Process, rest: seq<Token>)
    requires |p.input| > 0 && |p.output| > 0 && tokens == prefix + ProcessBody(p) + rest
    ensures var p1 := |prefix| + |TupleTokens(p.input)|;
      p1 < |tokens| && Tuple(tokens, |prefix|) == (Success(p.input), p1) && tokens[p1] == Colon
  {
    var tail := [Colon] + TupleTokens(p.output) + [Colon, Number(p.time)] + rest;
    assert tokens == prefix + TupleTokens(p.input) + tail;
    TupleRoundTrip(tokens, prefix, p.input, tail);
  }

  /** The output tuple of a process body reads back, and `: time` follows it. */
  lemma ProcessOutputRead(tokens: seq<Token>, prefix: seq<Token>, p: Process, rest: seq<Token>)
    requires |p.input| > 0 && |p.output| > 0 && tokens == prefix + ProcessBody(p) + rest
    ensures var p1 := |prefix| + |TupleTokens(p.input)|;
      var p3 := p1 + 1 + |TupleTokens(p.output)|;
      && p3 + 2 <= |tokens| && Tuple(tokens, p1 + 1) == (Success(p.output), p3)
      && tokens[p3] == Colon && tokens[p3 + 1] == Number(p.time)
      && p3 + 2 == |prefix| + |ProcessBody(p)|
  {
    var head := prefix + TupleTokens(p.input) + [Colon];
    assert tokens == head + TupleTokens(p.output) + ([Colon, Number(p.time)] + rest);
    TupleRoundTrip(tokens, head, p.output, [Colon, Number(p.time)] + rest);
  }

  lemma ProcessBodyRead(tokens: seq<Token>, prefix: seq<Token>, p: Process, rest: seq<Token>, cfg: Config)
    requires |p.input| > 0 && |p.output| > 0 && Fresh(cfg, p.id) && tokens == prefix + ProcessBody(p) + rest
    ensures ProcessLine(tokens, |prefix|, cfg, p.id)
         == Outcome(Success(()), |prefix| + |ProcessBody(p)|,
                    Config(AddOutputs(cfg.stocks, p.output), cfg.processes + [p], cfg.optimize))
  {
    ProcessInputRead(tokens, prefix, p, rest);
    ProcessOutputRead(tokens, prefix, p, rest);
    var p1 := |prefix| + |TupleTokens(p.input)|;
    var p3 := p1 + 1 + |TupleTokens(p.output)|;
    ProcessLineReads(tokens, |prefix|, p1, p3, p, cfg);
  }

  lemma ProcessRoundTrip(tokens: seq<Token>, prefix: seq<Token>, p: Process, rest: seq<Token>, cfg: Config)
    requires |p.input| > 0 && |p.output| > 0 && Fresh(cfg, p.id) && tokens == prefix + ProcessTokens(p) + rest
    ensures Line(tokens, |prefix|, cfg)
         == Outcome(Success(()), |prefix| + |ProcessTokens(p)|,
                    Config(AddOutputs(cfg.stocks, p.output), cfg.processes + [p], cfg.optimize))
  {
    var at := |prefix|;
    assert tokens[at] == Identifier(p.id) && tokens[at + 1] == Colon && tokens[at + 2] == LeftParen;
    ProcessBodyRead(tokens, prefix + [Identifier(p.id), Colon], p, rest, cfg);
  }

  // ---------------------------------------------------------------------
  // The parser object

  /**
   * `Parser`: a cursor over a fixed token sequence and the configuration read
   * so far. Every method is the routine of the same name and does what the
   * function above for it says, on the fields.
   */
  class Parser {
    const tokens: seq<Token>
    var current: nat
    var stocks: map<string, nat>
    var processes: seq<Process>
    var optimize: Option<seq<string>>

    ghost predicate Valid()
      reads this
    {
      current <= |tokens|
    }

    function State(): Config
      reads this
    {
      Config(stocks, processes, optimize)
    }

    /** `Parser::new`, given the tokens the lexer produced. */
    constructor (tokens: seq<Token>)
      ensures this.tokens == tokens && current == 0 && State() == Empty && Valid()
    {
      this.tokens := tokens;
      current := 0;
      stocks := map[];
      processes := [];
      optimize := None;
    }

    method Peek() returns (t: Option<Token>)
      ensures t == TokenAt(tokens, current)
    {
      t := if current < |tokens| then Some(tokens[current]) else None;
    }

    /** `advance`: the source panics past the end, so callers first peek. */
    method Advance() returns (t: Token)
      requires current < |tokens|
      modifies this`current
      ensures current == old(current) + 1 && t == tokens[old(current)]
    {
      t := tokens[current];
      current := current + 1;
    }

    method Consume(expected: Token) returns (r: Result<(), Error>)
      requires Valid()
      modifies this`current
      ensures Valid() && (r, current) == Expect(tokens, old(current), expected)
    {
      var t := Peek();
      if t.Some? && t.value == expected {
        var _ := Advance();
        r := Success(());
      } else if t.Some? {
        r := Failure(ExpectedToken(expected, t.value));
      } else {
        r := Failure(UnexpectedEOF);
      }
    }

    method ConsumeIdent() returns (r: Result<string, Error>)
      requires Valid()
      modifies this`current
      ensures Valid() && (r, current) == ExpectIdent(tokens, old(current))
    {
      if current < |tokens| {
        match tokens[current]
        case Identifier(name) =>
          current := current + 1;
          r := Success(name);
        case _ =>
          r := Failure(ExpectedToken(Identifier(""), tokens[current]));
      } else {
        r := Failure(UnexpectedEOF);
      }
    }

    method ConsumeNumber() returns (r: Result<nat, Error>)
      requires Valid()
      modifies this`current
      ensures Valid() && (r, current) == ExpectNumber(tokens, old(current))
    {
      if current < |tokens| {
        match tokens[current]
        case Number(n) =>
          current := current + 1;
          r := Success(n);
        case _ =>
          r := Failure(ExpectedToken(Number(0), tokens[current]));
      } else {
        r := Failure(MissingProcess);
      }
    }

    method ParseTuple() returns (r: Result<seq<(string, nat)>, Error>)
      requires Valid()
      modifies this`current
      ensures Valid() && (r, current) == Tuple(tokens, old(current))
    {
      var open := Consume(LeftParen);
      if open.Failure? {
        return Failure(open.error);
      }
      var res: seq<(string, nat)> := [];
      ghost var goal := TupleItems(tokens, current, []);
      assert goal == Tuple(tokens, old(current));
      while true
        invariant Valid()
        invariant TupleItems(tokens, current, res) == goal
        decreases |tokens| - current
      {
        var ident := ConsumeIdent();
        if ident.Failure? {
          return Failure(ident.error);
        }
        var colon := Consume(Colon);
        if colon.Failure? {
          return Failure(colon.error);
        }
        var n := ConsumeNumber();
        if n.Failure? {
          return Failure(n.error);
        }
        res := res + [(ident.value, n.value)];
        var next := Peek();
        if next.None? {
          return Failure(UnexpectedEOF);
        }
        if next.value == RightParen {
          var _ := Advance();
          return Success(res);
        } else if next.value == Semicolon {
          var _ := Advance();
        } else {
          return Failure(UnexpectedToken(next.value));
        }
      }
    }

    method ParseOptimize() returns (r: Result<(), Error>)
      requires Valid() && current < |tokens|
      modifies this`current, this`optimize
      ensures Valid() && Outcome(r, current, State()) == OptimizeLine(tokens, old(current), old(State()))
    {
      ghost var goal := OptimizeLine(tokens, current, State());
      if optimize.Some? {
        return Failure(DuplicatedOptimize);
      }
      var _ := Advance();
      var colon := Consume(Colon);
      if colon.Failure? {
        return Failure(colon.error);
      }
      var open := Consume(LeftParen);
      if open.Failure? {
        return Failure(open.error);
      }
      var res := ParseObjectives();
      if res.Failure? {
        return Failure(res.error);
      }
      var newline := Consume(NewLine);
      if newline.Failure? {
        return Failure(newline.error);
      }
      optimize := Some(res.value);
      r := Success(());
    }

    /** The loop of `parse_optimize`: objective names up to the closing `)`. */
    method ParseObjectives() returns (r: Result<seq<string>, Error>)
      requires Valid()
      modifies this`current
      ensures Valid() && (r, current) == OptimizeItems(tokens, old(current), [])
    {
      var res: seq<string> := [];
      ghost var goal := OptimizeItems(tokens, current, []);
      while true
        invariant Valid()
        invariant OptimizeItems(tokens, current, res) == goal
        decreases |tokens| - current
      {
        var t := Peek();
        if t.None? {
          return Failure(UnexpectedEOF);
        }
        if t.value.Time? {
          var _ := Advance();
          res := res + ["time"];
        } else if t.value.Identifier? {
          var name := ConsumeIdent();
          res := res + [name.value];
        } else {
          return Failure(UnexpectedToken(t.value));
        }
        var next := Peek();
        if next.None? {
          return Failure(UnexpectedEOF);
        }
        if next.value == RightParen {
          var _ := Advance();
          return Success(res);
        } else if next.value == Semicolon {
          var _ := Advance();
        } else {
          return Failure(UnexpectedToken(next.value));
        }
      }
    }

    method ParseStock(name: string) returns (r: Result<(), Error>)
      requires Valid()
      modifies this`current, this`stocks
      ensures Valid() && Outcome(r, current, State()) == StockLine(tokens, old(current), old(State()), name)
    {
      var n := ConsumeNumber();
      if n.Failure? {
        return Failure(n.error);
      }
      var present := name in stocks;
      stocks := stocks[name := n.value];
      if present {
        r := Failure(DuplicatedIdentifier);
      } else {
        r := Consume(NewLine);
      }
    }

    method ParseProcess(id: string) returns (r: Result<(), Error>)
      requires Valid()
      modifies this`current, this`stocks, this`processes
      ensures Valid() && Outcome(r, current, State()) == ProcessLine(tokens, old(current), old(State()), id)
    {
      if id in stocks || Find(processes, id).Some? {
        return Failure(DuplicatedIdentifier);
      }
      var input := ParseTuple();
      if input.Failure? {
        return Failure(input.error);
      }
      var colon := Consume(Colon);
      if colon.Failure? {
        return Failure(colon.error);
      }
      var output := ParseTuple();
      if output.Failure? {
        return Failure(output.error);
      }
      AddOutputStocks(output.value);
      var colon2 := Consume(Colon);
      if colon2.Failure? {
        return Failure(colon2.error);
      }
      var time := ConsumeNumber();
      if time.Failure? {
        return Failure(time.error);
      }
      processes := processes + [Process(id, input.value, output.value, time.value)];
      r := Success(());
    }

    /** The loop of `parse_process` that inserts each unknown output stock with 0. */
    method AddOutputStocks(output: seq<(string, nat)>)
      modifies this`stocks
      ensures stocks == AddOutputs(old(stocks), output)
    {
      for i := 0 to |output|
        invariant stocks == AddOutputs(old(stocks), output[..i])
      {
        assert output[..i + 1][..i] == output[..i];
        if output[i].0 !in stocks {
          stocks := stocks[output[i].0 := 0];
        }
      }
      assert output[..|output|] == output;
    }

    /** The identifier branch of `parse_line`, once the name is consumed. */
    method ParseDeclaration(name: string) returns (r: Result<(), Error>)
      requires Valid()
      modifies this
      ensures Valid() && Outcome(r, current, State()) == Declaration(tokens, old(current), old(State()), name)
    {
      var colon := Consume(Colon);
      if colon.Failure? {
        return Failure(colon.error);
      }
      var next := Peek();
      if next.None? {
        return Failure(UnexpectedEOF);
      }
      if next.value == LeftParen {
        r := ParseProcess(name);
      } else if next.value.Number? {
        r := ParseStock(name);
      } else {
        r := Failure(UnexpectedToken(next.value));
      }
    }

    method ParseLine() returns (r: Result<(), Error>)
      requires Valid()
      modifies this
      ensures Valid() && Outcome(r, current, State()) == Line(tokens, old(current), old(State()))
    {
      var t := Peek();
      if t.None? {
        return Failure(ExpectedLine);
      }
      match t.value
      case Optimize =>
        assert Line(tokens, current, State()) == OptimizeLine(tokens, current, State());
        r := ParseOptimize();
      case Identifier(name) =>
        assert Line(tokens, current, State()) == Declaration(tokens, current + 1, State(), name);
        var ident := ConsumeIdent();
        r := ParseDeclaration(ident.value);
      case NewLine =>
        r := Consume(NewLine);
      case _ =>
        r := Failure(UnexpectedToken(t.value));
    }

    method Parse() returns (r: Result<(), Error>)
      requires Valid()
      modifies this
      ensures Valid() && Outcome(r, current, State()) == Parsed(tokens, old(current), old(State()))
      decreases |tokens| - current
    {
      if current >= |tokens| {
        if optimize.None? {
          return Failure(MissingOptimize);
        }
        if |stocks| == 0 {
          return Failure(MissingStocks);
        }
        if |processes| == 0 {
          return Failure(MissingProcess);
        }
        return Success(());
      }
      r := ParseLine();
      if r.Failure? {
        return;
      }
      r := Parse();
    }
  }
}
