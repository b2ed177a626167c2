/**
 * The lexer (`lexer.rs`): one `Lexer` per line of the configuration file, a
 * cursor `current` over the line's characters that pushes tokens through the
 * mutually recursive routines `tokenize`, `advance` and `identifier`, and
 * `lex`, which runs a fresh lexer over every line that is not a comment.
 *
 * On some lines those routines call one another forever without moving the
 * cursor (a space, a tab, a carriage return). The model cannot recurse
 * forever; it returns `None` at exactly the call that would never return.
 */
module Lexer {

  import opened Wrappers
  import opened Tokens
  import Text

  // ---------------------------------------------------------------------
  // Characters and words

  /** `DELIMITER`: the characters that end a word. */
  predicate IsDelimiter(c: char)
  {
    c == ' ' || c == '\t' || c == '\n' || c == '\r' || c == '(' || c == ')' || c == ';' || c == ':'
  }

  /** The delimiters that are not punctuation: `tokenize` has no case that moves past them. */
  predicate IsBlank(c: char)
  {
    c == ' ' || c == '\t' || c == '\n' || c == '\r'
  }

  /** `char::is_alphabetic`, restricted to the ASCII letters. */
  predicate IsAlphabetic(c: char)
  {
    'a' <= c <= 'z' || 'A' <= c <= 'Z'
  }

  predicate IsAscii(s: string)
  {
    forall k :: 0 <= k < |s| ==> s[k] as int < 0x80
  }

  /** The number of bytes UTF-8 spends on `c`. */
  function Utf8Width(c: char): (n: nat)
    ensures 1 <= n <= 4
    ensures n == 1 <==> c as int < 0x80
  {
    if c as int < 0x80 then 1 else if c as int < 0x800 then 2 else if c as int < 0x1_0000 then 3 else 4
  }

  /** `String::len`: the length of `s` in UTF-8 bytes, which the cursor, counting characters, is moved by. */
  function ByteLength(s: string): (n: nat)
    ensures |s| <= n <= 4 * |s|
  {
    if |s| == 0 then 0 else ByteLength(s[..|s| - 1]) + Utf8Width(s[|s| - 1])
  }

  /**
   * The word `identifier` collects: the characters from `i` on, up to the
   * first delimiter or the end of the line.
   */
  function Word(s: string, i: nat): (w: string)
    requires i <= |s|
    ensures i + |w| <= |s| && w == s[i..i + |w|]
    ensures forall k :: 0 <= k < |w| ==> !IsDelimiter(w[k])
    ensures i + |w| == |s| || IsDelimiter(s[i + |w|])
    decreases |s| - i
  {
    if i == |s| || IsDelimiter(s[i]) then "" else [s[i]] + Word(s, i + 1)
  }

  /** The token `identifier` makes of a word. */
  function Classify(w: string): (t: Token)
    ensures t.Identifier? ==> t.name == w
    ensures t.Invalid? ==> t.text == w && |w| > 0
    ensures t.NewLine? ==> w == "\n"
  {
    if w == "optimize" then Optimize
    else if w == "time" then Time
    else if w == "\n" then NewLine
    else if |w| > 0 && Text.IsDigit(w[0]) then
      match Text.ParseU64(w)
      case Some(n) => Number(n)
      case None => Invalid(w)
    else if |w| > 0 && !IsAlphabetic(w[0]) then Invalid(w)
    else Identifier(w)
  }

  /** The single-character tokens `tokenize` pushes directly. */
  function Punctuation(c: char): (t: Option<Token>)
    ensures t.Some? <==> c in {':', ';', '(', ')'}
  {
    if c == ':' then Some(Colon)
    else if c == ';' then Some(Semicolon)
    else if c == '(' then Some(LeftParen)
    else if c == ')' then Some(RightParen)
    else None
  }

  /** `u64::ilog10` of a positive `n`. */
  function Log10(n: nat): nat
    requires n > 0
  {
    if n < 10 then 0 else 1 + Log10(n / 10)
  }

  /** `checked_ilog10`: no logarithm for 0. */
  function CheckedLog10(n: nat): Option<nat>
  {
    if n == 0 then None else Some(Log10(n))
  }

  /** How far `advance` moves the cursor past `t`. */
  function Width(t: Token): nat
  {
    match t
    case Identifier(name) => ByteLength(name)
    case Invalid(text) => ByteLength(text)
    case Number(n) => (match CheckedLog10(n) case Some(l) => l case None => 0) + 1
    case Time => 4
    case Optimize => 8
    case _ => 1
  }

  // ---------------------------------------------------------------------
  // The tokens of one line

  /** `ts` after `tokens`, or nothing when the lexer never gets there. */
  function Then(tokens: seq<Token>, ts: Option<seq<Token>>): Option<seq<Token>>
  {
    match ts
    case None => None
    case Some(more) => Some(tokens + more)
  }

  lemma ThenThen(a: seq<Token>, b: seq<Token>, ts: Option<seq<Token>>)
    ensures Then(a + b, ts) == Then(a, Then(b, ts))
  {
    if ts.Some? {
      assert a + b + ts.value == a + (b + ts.value);
    }
  }

  function Rest(s: string, i: nat): nat
  {
    if i < |s| then |s| - i else 0
  }

  /** The token `tokenize` reads at `i`: a punctuation mark, or what `identifier` makes of the word there. */
  function TokenAt(s: string, i: nat): Token
    requires i < |s|
  {
    match Punctuation(s[i])
    case Some(t) => t
    case None => Classify(Word(s, i))
  }

  /**
   * The tokens `tokenize` pushes from position `i` to the end of the line,
   * ending with the one NewLine of the line; `None` when it recurses forever.
   * A space recurses without moving the cursor.
   */
  function TokensFrom(s: string, i: nat): Option<seq<Token>>
    decreases Rest(s, i), 1
  {
    if i >= |s| then Some([NewLine])
    else if s[i] == ' ' then None
    else Emit(s, i, TokenAt(s, i))
  }

  /**
   * What `advance` pushes for `t` read at `i`, followed by the rest of the
   * line. A token of width 0 (the empty word in front of a tab or a carriage
   * return) leaves the cursor where it is, so the same empty word comes back
   * forever.
   */
  function Emit(s: string, i: nat, t: Token): Option<seq<Token>>
    requires i < |s|
    decreases Rest(s, i), 0
  {
    if Width(t) == 0 then None else Then([t], TokensFrom(s, i + Width(t)))
  }

  /** The tokens of one line, as a fresh lexer pushes them. */
  function LexLine(s: string): Option<seq<Token>>
  {
    TokensFrom(s, 0)
  }

  // ---------------------------------------------------------------------
  // The lexer object

  /** `Lexer`: one line of text and a cursor into it, counted in characters. */
  class Lexer {
    const source: string
    var current: nat

    constructor (source: string)
      ensures this.source == source && current == 0
    {
      this.source := source;
      current := 0;
    }

    /**
     * `tokenize`: pushes the tokens from the cursor to the end of the line
     * after `tokens`. When it returns, the cursor is at or past the end.
     */
    method Tokenize(tokens: seq<Token>) returns (r: Option<seq<Token>>)
      modifies this
      ensures r == Then(tokens, TokensFrom(source, old(current)))
      ensures r.Some? ==> current >= |source|
      decreases Rest(source, current), 2
    {
      if current >= |source| {
        return Some(tokens + [NewLine]);
      }
      var c := source[current];
      if c == ':' {
        r := Advance(Colon, tokens);
      } else if c == ';' {
        r := Advance(Semicolon, tokens);
      } else if c == '(' {
        r := Advance(LeftParen, tokens);
      } else if c == ')' {
        r := Advance(RightParen, tokens);
      } else if c == ' ' {
        // `tokenize` calls itself with nothing changed: that call never returns.
        r := None;
      } else {
        r := Identifier(tokens);
      }
    }

    /** `advance`: moves the cursor past `token`, pushes it and goes on tokenizing. */
    method Advance(token: Token, tokens: seq<Token>) returns (r: Option<seq<Token>>)
      requires current < |source|
      modifies this
      ensures r == Then(tokens, Emit(source, old(current), token))
      ensures r.Some? ==> current >= |source|
      decreases Rest(source, current), 0
    {
      var start := current;
      current := current + Width(token);
      if current == start {
        // `tokenize` starts again where this token was read and reads it again: it never returns.
        return None;
      }
      r := Tokenize(tokens + [token]);
      ThenThen(tokens, [token], TokensFrom(source, start + Width(token)));
      assert Emit(source, start, token) == Then([token], TokensFrom(source, start + Width(token)));
    }

    /** `identifier`: reads the word at the cursor and advances past the token it makes. */
    method Identifier(tokens: seq<Token>) returns (r: Option<seq<Token>>)
      requires current < |source|
      modifies this
      ensures r == Then(tokens, Emit(source, old(current), Classify(Word(source, old(current)))))
      ensures r.Some? ==> current >= |source|
      decreases Rest(source, current), 1
    {
      var word := Word(source, current);
      r := Advance(Classify(word), tokens);
    }
  }

  // ---------------------------------------------------------------------
  // The whole file

  /** The lines `lex` tokenizes: those that do not start with `#`. */
  function CodeLines(lines: seq<string>): nat
    ensures CodeLines(lines) <= |lines|
  {
    if |lines| == 0 then 0
    else CodeLines(lines[..|lines| - 1]) + (if Text.StartsWith(lines[|lines| - 1], "#") then 0 else 1)
  }

  /**
   * The tokens `lex` collects from `lines`, skipping comment lines; `None`
   * when the lexer never finishes one of them.
   */
  function LexLines(lines: seq<string>): Option<seq<Token>>
  {
    if |lines| == 0 then Some([])
    else
      var before := LexLines(lines[..|lines| - 1]);
      var line := lines[|lines| - 1];
      if before.None? || Text.StartsWith(line, "#") then before
      else Then(before.value, LexLine(line))
  }

  /** `lex` without the file reading: the lines are given. */
  method Lex(lines: seq<string>) returns (r: Option<seq<Token>>)
    ensures r == LexLines(lines)
  {
    var tokens: seq<Token> := [];
    for i := 0 to |lines|
      invariant LexLines(lines[..i]) == Some(tokens)
    {
      assert lines[..i + 1][..i] == lines[..i];
      if Text.StartsWith(lines[i], "#") {
        continue;
      }
      var lexer := new Lexer(lines[i]);
      var out := lexer.Tokenize(tokens);
      if out.None? {
        NeverFinishes(lines, i + 1);
        return None;
      }
      tokens := out.value;
    }
    assert lines[..|lines|] == lines;
    return Some(tokens);
  }

  /** Once a line never finishes, neither does the file. */
  lemma {:induction false} NeverFinishes(lines: seq<string>, n: nat)
    requires n <= |lines| && LexLines(lines[..n]).None?
    ensures LexLines(lines).None?
    decreases |lines| - n
  {
    if n < |lines| {
      assert lines[..n + 1][..n] == lines[..n];
      NeverFinishes(lines, n + 1);
    } else {
      assert lines[..n] == lines;
    }
  }

  // ---------------------------------------------------------------------
  // Widths

  /** `ilog10(n) + 1` is the number of decimal digits of `n`. */
  lemma {:induction false} Log10Digits(n: nat)
    requires n > 0
    ensures Log10(n) + 1 == |Text.Decimal(n)|
  {
    if n >= 10 {
      Log10Digits(n / 10);
    }
  }

  /** A number moves the cursor by the length of its decimal text, written without leading zeros. */
  lemma {:induction false} NumberWidth(n: nat)
    ensures Width(Number(n)) == |Text.Decimal(n)|
  {
    if n > 0 {
      Log10Digits(n);
    }
  }

  /** A run of digits is at least as long as the decimal text of its value. */
  lemma {:induction false} DigitsCover(w: string)
    requires |w| > 0 && Text.AllDigits(w)
    ensures |Text.Decimal(Text.DecimalValue(w))| <= |w|
  {
    var init := w[..|w| - 1];
    var v := Text.DecimalValue(w);
    if |init| > 0 && v >= 10 {
      DigitsCover(init);
      assert v / 10 == Text.DecimalValue(init);
    }
  }

  /** On ASCII text `String::len` counts characters. */
  lemma {:induction false} AsciiByteLength(s: string)
    requires IsAscii(s)
    ensures ByteLength(s) == |s|
  {
    if |s| > 0 {
      AsciiByteLength(s[..|s| - 1]);
    }
  }

  /**
   * A word of ASCII text moves the cursor at least one character and at most
   * to the end of the word: only a number with leading zeros stops short.
   */
  lemma {:induction false} ClassifyWidth(w: string)
    requires |w| > 0 && IsAscii(w) && !IsDelimiter(w[0])
    ensures 1 <= Width(Classify(w)) <= |w|
  {
    var t := Classify(w);
    if t.Number? {
      assert Text.AllDigits(w) && Text.DecimalValue(w) == t.value;
      NumberWidth(t.value);
      DigitsCover(w);
    } else if t.Identifier? || t.Invalid? {
      AsciiByteLength(w);
    }
  }

  lemma {:induction false} WordWidth(s: string, i: nat)
    requires IsAscii(s) && i < |s| && !IsDelimiter(s[i])
    ensures var w := Word(s, i); 1 <= Width(Classify(w)) <= |w|
  {
    var w := Word(s, i);
    assert w[0] == s[i];
    assert IsAscii(w) by {
      forall k | 0 <= k < |w| ensures w[k] as int < 0x80 {
        assert w[k] == s[i + k];
      }
    }
    ClassifyWidth(w);
  }

  // ---------------------------------------------------------------------
  // What a line yields

  /** `tokenize` never reads a NewLine inside a line: a word holds no delimiter, so it is never "\n". */
  lemma TokenNotNewLine(s: string, i: nat)
    requires i < |s|
    ensures TokenAt(s, i) != NewLine
  {
    if Punctuation(s[i]).None? {
      var w := Word(s, i);
      if |w| == 1 {
        assert !IsDelimiter(w[0]);
      }
    }
  }

  /** A line that is lexed to the end yields exactly one NewLine, and it comes last. */
  lemma {:induction false} OneNewLine(s: string, i: nat)
    requires TokensFrom(s, i).Some?
    ensures var ts := TokensFrom(s, i).value;
      |ts| > 0 && ts[|ts| - 1] == NewLine && NewLine !in ts[..|ts| - 1]
    decreases Rest(s, i)
  {
    if i < |s| {
      var t := TokenAt(s, i);
      TokenNotNewLine(s, i);
      OneNewLine(s, i + Width(t));
      var rest := TokensFrom(s, i + Width(t)).value;
      assert TokensFrom(s, i).value == [t] + rest;
      assert ([t] + rest)[..|rest|] == [t] + rest[..|rest| - 1];
    }
  }

  /** Some space, tab, newline or carriage return lies at `i` or later. */
  predicate HasBlank(s: string, i: nat)
  {
    exists k :: i <= k < |s| && IsBlank(s[k])
  }

  lemma BlankShift(s: string, i: nat, n: nat)
    requires i + n <= |s| && forall k :: i <= k < i + n ==> !IsBlank(s[k])
    ensures HasBlank(s, i) <==> HasBlank(s, i + n)
  {
    if HasBlank(s, i) {
      var k :| i <= k < |s| && IsBlank(s[k]);
      assert i + n <= k;
    }
  }

  lemma {:induction false} TokenAtWidth(s: string, i: nat)
    requires IsAscii(s) && i < |s| && !IsBlank(s[i])
    ensures 1 <= Width(TokenAt(s, i)) && i + Width(TokenAt(s, i)) <= |s|
    ensures forall k :: i <= k < i + Width(TokenAt(s, i)) ==> !IsBlank(s[k])
    ensures TokensFrom(s, i) == Then([TokenAt(s, i)], TokensFrom(s, i + Width(TokenAt(s, i))))
  {
    if Punctuation(s[i]).None? {
      var w := Word(s, i);
      WordWidth(s, i);
      forall k | i <= k < i + Width(TokenAt(s, i))
        ensures !IsBlank(s[k])
      {
        assert s[k] == w[k - i];
      }
    }
  }

  /**
   * An ASCII line is lexed to the end exactly when it holds no space, tab,
   * newline or carriage return from `i` on: at the first one `tokenize`
   * recurses forever.
   */
  lemma {:induction false} BlankNeverEnds(s: string, i: nat)
    requires IsAscii(s)
    ensures TokensFrom(s, i).None? <==> HasBlank(s, i)
    decreases Rest(s, i)
  {
    if i < |s| {
      if IsBlank(s[i]) {
        if s[i] != ' ' {
          assert Word(s, i) == "";
        }
      } else {
        TokenAtWidth(s, i);
        var n := Width(TokenAt(s, i));
        BlankNeverEnds(s, i + n);
        BlankShift(s, i, n);
      }
    }
  }

  /** Every line that reaches its end contributes its tokens and one NewLine; comment lines contribute nothing. */
  lemma {:induction false} NewLinePerLine(lines: seq<string>)
    requires LexLines(lines).Some?
    ensures multiset(LexLines(lines).value)[NewLine] == CodeLines(lines)
  {
    if |lines| > 0 {
      var init, line := lines[..|lines| - 1], lines[|lines| - 1];
      NewLinePerLine(init);
      if !Text.StartsWith(line, "#") {
        OneNewLine(line, 0);
        var ts := LexLine(line).value;
        assert ts == ts[..|ts| - 1] + [NewLine];
        assert multiset(ts)[NewLine] == 1 by {
          assert multiset(ts) == multiset(ts[..|ts| - 1]) + multiset{NewLine};
        }
        assert LexLines(lines).value == LexLines(init).value + ts;
      }
    }
  }

  // ---------------------------------------------------------------------
  // Reading back what a line is written as

  /** The text a token is written as. */
  function Spelling(t: Token): string
  {
    match t
    case Identifier(name) => name
    case Number(n) => Text.Decimal(n)
    case Optimize => "optimize"
    case Time => "time"
    case Colon => ":"
    case Semicolon => ";"
    case LeftParen => "("
    case RightParen => ")"
    case NewLine => "\n"
    case Invalid(text) => text
  }

  /** Tokens that are written as a word rather than as a punctuation mark. */
  predicate IsWord(t: Token)
  {
    t.Identifier? || t.Number? || t.Optimize? || t.Time?
  }

  /** The tokens a configuration line is made of, in a form the lexer gives back. */
  predicate Readable(t: Token)
  {
    match t
    case Identifier(name) =>
      && |name| > 0 && IsAscii(name) && IsAlphabetic(name[0]) && name != "optimize" && name != "time"
      && forall k :: 0 <= k < |name| ==> !IsDelimiter(name[k])
    case Number(n) => n <= Text.U64_MAX
    case NewLine => false
    case Invalid(_) => false
    case _ => true
  }

  /** A line written as `ts`, with `sep` after every token. */
  function Spell(ts: seq<Token>, sep: string): string
  {
    if |ts| == 0 then "" else Spelling(ts[0]) + sep + Spell(ts[1..], sep)
  }

  /** No two words follow each other, so written without separators they stay apart. */
  predicate Separated(ts: seq<Token>)
  {
    forall k :: 0 < k < |ts| ==> !(IsWord(ts[k - 1]) && IsWord(ts[k]))
  }

  lemma {:induction false} WordIs(s: string, i: nat, w: string)
    requires i + |w| <= |s| && s[i..i + |w|] == w
    requires forall k :: 0 <= k < |w| ==> !IsDelimiter(w[k])
    requires i + |w| == |s| || IsDelimiter(s[i + |w|])
    ensures Word(s, i) == w
    decreases |w|
  {
    if |w| > 0 {
      assert s[i] == w[0];
      assert s[i + 1..i + |w|] == w[1..];
      WordIs(s, i + 1, w[1..]);
    }
  }

  lemma {:induction false} SpellingFacts(t: Token)
    requires Readable(t)
    ensures |Spelling(t)| > 0 && !IsBlank(Spelling(t)[0])
    ensures IsWord(t) <==> !IsDelimiter(Spelling(t)[0])
    ensures !IsWord(t) ==> |Spelling(t)| == 1 && Punctuation(Spelling(t)[0]) == Some(t)
    ensures forall k :: 0 <= k < |Spelling(t)| ==> IsWord(t) ==> !IsDelimiter(Spelling(t)[k])
  {
    if t.Number? {
      var d := Text.Decimal(t.value);
      assert forall k :: 0 <= k < |d| ==> Text.IsDigit(d[k]);
    }
  }

  /** `identifier` makes each readable word back out of its text, and moves past all of it. */
  lemma {:induction false} ClassifySpelling(t: Token)
    requires Readable(t) && IsWord(t)
    ensures Classify(Spelling(t)) == t && Width(t) == |Spelling(t)|
  {
    match t
    case Identifier(name) =>
      assert name != "\n" by {
        assert IsAlphabetic(name[0]);
      }
      AsciiByteLength(name);
    case Number(n) =>
      var d := Text.Decimal(n);
      assert d != "optimize" && d != "time" && d != "\n" by {
        assert Text.IsDigit(d[0]);
      }
      Text.ParseDecimal(n);
      NumberWidth(n);
    case _ =>
  }

  /** A readable token written at `|p|` and ended by a delimiter or the end of the line is read back as itself. */
  lemma {:induction false} ReadToken(s: string, p: string, t: Token, q: string)
    requires Readable(t) && s == p + Spelling(t) + q
    requires IsWord(t) ==> |q| == 0 || IsDelimiter(q[0])
    ensures |p| < |s| && !IsBlank(s[|p|])
    ensures TokenAt(s, |p|) == t && Width(t) == |Spelling(t)|
  {
    var w := Spelling(t);
    SpellingFacts(t);
    assert s[|p|] == w[0];
    if IsWord(t) {
      assert s[|p|..|p| + |w|] == w;
      assert |p| + |w| < |s| ==> s[|p| + |w|] == q[0];
      WordIs(s, |p|, w);
      ClassifySpelling(t);
    }
  }

  /** The lexer emits a token it can read and continues past its width. */
  lemma {:induction false} TokensStep(s: string, i: nat, t: Token, j: nat)
    requires i < |s| && !IsBlank(s[i]) && TokenAt(s, i) == t && Width(t) > 0 && j == i + Width(t)
    ensures TokensFrom(s, i) == Then([t], TokensFrom(s, j))
  {
  }

  /**
   * Proof helper for `ChainRead`, `SpacedChain` and `TightChain`: the first
   * token, the rest and the end of the line make up the whole line.
   */
  lemma {:induction false} WithNewLine(ts: seq<Token>)
    requires |ts| > 0
    ensures [ts[0]] + (ts[1..] + [NewLine]) == ts + [NewLine]
  {
  }

  /**
   * Proof helper for `ChainRead`, `SpacedChain` and `TightChain`: an empty
   * line of tokens is just its end.
   */
  lemma {:induction false} OnlyNewLine(ts: seq<Token>)
    requires |ts| == 0
    ensures ts + [NewLine] == [NewLine]
  {
  }

  /**
   * Both lexers find the tokens `ts` in `s` from `i` on, each as long as its
   * spelling and right after the one before, and then the end of the line.
   */
  predicate LexReadsAt(s: string, i: nat, ts: seq<Token>)
    decreases |ts|
  {
    if |ts| == 0 then i == |s|
    else
      && i < |s| && !IsBlank(s[i]) && TokenAt(s, i) == ts[0] && FixedWidth(s, i) == |Spelling(ts[0])|
      && LexReadsAt(s, i + FixedWidth(s, i), ts[1..])
  }

  /** `advance` moves past a readable token by the length of its spelling. */
  lemma {:induction false} SpelledWidth(t: Token)
    requires Readable(t)
    ensures Width(t) == |Spelling(t)| > 0
  {
    SpellingFacts(t);
    if IsWord(t) {
      ClassifySpelling(t);
    }
  }

  /** One step of `ChainRead`: the lexer emits the first token and goes on where the corrected lexer does. */
  lemma {:induction false} ChainStep(s: string, i: nat, ts: seq<Token>)
    requires |ts| > 0 && LexReadsAt(s, i, ts) && AllReadable(ts)
    ensures TokensFrom(s, i) == Then([ts[0]], TokensFrom(s, i + FixedWidth(s, i)))
    ensures LexReadsAt(s, i + FixedWidth(s, i), ts[1..]) && AllReadable(ts[1..])
  {
    SpelledWidth(ts[0]);
    TokensStep(s, i, ts[0], i + FixedWidth(s, i));
  }

  /** The lexer reads back the readable tokens the corrected lexer finds next to each other, then a NewLine. */
  lemma {:induction false} ChainRead(s: string, i: nat, ts: seq<Token>)
    requires LexReadsAt(s, i, ts) && AllReadable(ts)
    ensures TokensFrom(s, i) == Some(ts + [NewLine])
    decreases |ts|
  {
    if |ts| > 0 {
      WithNewLine(ts);
      ChainStep(s, i, ts);
      ChainRead(s, i + FixedWidth(s, i), ts[1..]);
    } else {
      OnlyNewLine(ts);
    }
  }

  /**
   * Proof helper for `SpacedHead`: a written line is its first
   * token, its separator and the rest of the line.
   */
  lemma {:induction false} SpellFirst(s: string, p: string, ts: seq<Token>, sep: string)
    requires |ts| > 0 && s == p + Spell(ts, sep)
    ensures s == p + Spelling(ts[0]) + (sep + Spell(ts[1..], sep))
    ensures s == p + Spelling(ts[0]) + sep + Spell(ts[1..], sep)
    ensures |p + Spelling(ts[0]) + sep| == |p| + |Spelling(ts[0])| + |sep|
  {
  }

  /** Every token of `ts` is readable, stated one token at a time. */
  predicate AllReadable(ts: seq<Token>)
    decreases |ts|
  {
    |ts| == 0 || (Readable(ts[0]) && AllReadable(ts[1..]))
  }

  lemma {:induction false} ReadableAll(ts: seq<Token>)
    requires forall k :: 0 <= k < |ts| ==> Readable(ts[k])
    ensures AllReadable(ts)
    decreases |ts|
  {
    if |ts| > 0 {
      var rest := ts[1..];
      forall k | 0 <= k < |rest| ensures Readable(rest[k]) {
        assert rest[k] == ts[k + 1];
      }
      ReadableAll(rest);
    }
  }

  lemma {:induction false} SeparatedRest(ts: seq<Token>)
    requires |ts| > 0 && Separated(ts)
    ensures Separated(ts[1..])
  {
    var rest := ts[1..];
    forall k | 0 < k < |rest| ensures !(IsWord(rest[k - 1]) && IsWord(rest[k])) {
      assert rest[k - 1] == ts[k] && rest[k] == ts[k + 1];
    }
  }

  lemma {:induction false} SpaceAt(s: string, head: string, tail: string)
    requires s == head + " " + tail
    ensures |head| < |s| && s[|head|] == ' '
  {
  }

  lemma {:induction false} EndOfLine(s: string, p: string, ts: seq<Token>, sep: string)
    requires |ts| == 0 && s == p + Spell(ts, sep)
    ensures |s| == |p|
  {
  }

  lemma {:induction false} EmptyPrefix(s: string)
    ensures s == "" + s && |""| == 0
  {
  }

  /** Both lexers read a readable token written at `|p|` and ended by a delimiter or the end of the line. */
  lemma {:induction false} HeadReads(s: string, p: string, t: Token, q: string)
    requires Readable(t) && s == p + Spelling(t) + q
    requires IsWord(t) ==> |q| == 0 || IsDelimiter(q[0])
    ensures |p| < |s| && !IsBlank(s[|p|]) && TokenAt(s, |p|) == t
    ensures Width(t) == |Spelling(t)| && |Spelling(t)| > 0 && FixedWidth(s, |p|) == |Spelling(t)|
  {
    ReadToken(s, p, t, q);
    SpellingFacts(t);
    FixedWidthOf(s, p, t, q);
  }

  /** The tokens of `ts` written one after the other. */
  function Joined(ts: seq<Token>): string
    decreases |ts|
  {
    if |ts| == 0 then "" else Spelling(ts[0]) + Joined(ts[1..])
  }

  lemma {:induction false} EndOfJoined(s: string, p: string, ts: seq<Token>)
    requires |ts| == 0 && s == p + Joined(ts)
    ensures |s| == |p|
  {
  }

  lemma {:induction false} JoinedSpell(ts: seq<Token>)
    ensures Joined(ts) == Spell(ts, "")
    decreases |ts|
  {
    if |ts| > 0 {
      JoinedSpell(ts[1..]);
      assert Spelling(ts[0]) + "" == Spelling(ts[0]);
    }
  }

  /** Both lexers read the first token of a line written without separators, whose words stand apart. */
  lemma {:induction false} TightHead(s: string, p: string, i: nat, ts: seq<Token>)
    requires |ts| > 0 && s == p + Joined(ts) && i == |p|
    requires Readable(ts[0]) && AllReadable(ts[1..]) && Separated(ts)
    ensures s == p + Spelling(ts[0]) + Joined(ts[1..])
    ensures i < |s| && !IsBlank(s[i]) && TokenAt(s, i) == ts[0] && FixedWidth(s, i) == |Spelling(ts[0])|
    ensures i + FixedWidth(s, i) == |p + Spelling(ts[0])| <= |s|
  {
    var t, rest := ts[0], ts[1..];
    var q := Joined(rest);
    if IsWord(t) && |rest| > 0 {
      assert Readable(rest[0]) && !IsWord(rest[0]) by {
        assert AllReadable(rest);
        assert !(IsWord(ts[0]) && IsWord(ts[1]));
      }
      SpellingFacts(rest[0]);
      assert q[0] == Spelling(rest[0])[0];
    }
    HeadReads(s, p, t, q);
  }

  /** Both lexers read the first token of a line written with a space after each token. */
  lemma {:induction false} SpacedHead(s: string, p: string, i: nat, ts: seq<Token>)
    requires |ts| > 0 && s == p + Spell(ts, " ") && i == |p| && Readable(ts[0])
    ensures s == p + Spelling(ts[0]) + " " + Spell(ts[1..], " ")
    ensures i < |s| && !IsBlank(s[i]) && TokenAt(s, i) == ts[0] && FixedWidth(s, i) == |Spelling(ts[0])|
    ensures i + FixedWidth(s, i) + 1 == |p + Spelling(ts[0]) + " "| <= |s|
    ensures IsBlank(s[i + FixedWidth(s, i)])
  {
    var t, rest := ts[0], ts[1..];
    SpellFirst(s, p, ts, " ");
    assert (" " + Spell(rest, " "))[0] == ' ';
    HeadReads(s, p, t, " " + Spell(rest, " "));
    SpaceAt(s, p + Spelling(t), Spell(rest, " "));
  }

  /**
   * One step of `TightReads`: the rest of the line is `ts[1..]` written the
   * same way from `j` on, and if both lexers read it there they read all of
   * `ts` from `i`.
   */
  lemma {:induction false} TightStep(s: string, p: string, i: nat, ts: seq<Token>) returns (q: string, j: nat)
    requires |ts| > 0 && s == p + Joined(ts) && i == |p|
    requires AllReadable(ts) && Separated(ts)
    ensures s == q + Joined(ts[1..]) && j == |q|
    ensures AllReadable(ts[1..]) && Separated(ts[1..])
    ensures LexReadsAt(s, j, ts[1..]) ==> LexReadsAt(s, i, ts)
  {
    TightHead(s, p, i, ts);
    SeparatedRest(ts);
    q, j := p + Spelling(ts[0]), i + FixedWidth(s, i);
    HeadExtends(s, i, j, ts);
  }

  lemma {:induction false} HeadExtends(s: string, i: nat, j: nat, ts: seq<Token>)
    requires |ts| > 0 && i < |s| && !IsBlank(s[i]) && TokenAt(s, i) == ts[0] && FixedWidth(s, i) == |Spelling(ts[0])|
    requires j == i + FixedWidth(s, i)
    ensures LexReadsAt(s, j, ts[1..]) ==> LexReadsAt(s, i, ts)
  {
  }

  /** Both lexers find the tokens of a line written as readable tokens with no two words next to each other. */
  lemma {:induction false} TightReads(s: string, p: string, i: nat, ts: seq<Token>)
    requires s == p + Joined(ts) && i == |p|
    requires AllReadable(ts) && Separated(ts)
    ensures LexReadsAt(s, i, ts)
    decreases |ts|
  {
    if |ts| > 0 {
      var q, j := TightStep(s, p, i, ts);
      TightReads(s, q, j, ts[1..]);
    } else {
      EndOfJoined(s, p, ts);
    }
  }

  /**
   * A line written as readable tokens with no two words next to each other,
   * and no separators at all, is lexed back into those tokens and a NewLine.
   */
  lemma SpellingReadsBack(ts: seq<Token>)
    requires (forall k :: 0 <= k < |ts| ==> Readable(ts[k])) && Separated(ts)
    ensures LexLine(Spell(ts, "")) == Some(ts + [NewLine])
  {
    ReadableAll(ts);
    JoinedSpell(ts);
    EmptyPrefix(Spell(ts, ""));
    TightReads(Spell(ts, ""), "", 0, ts);
    ChainRead(Spell(ts, ""), 0, ts);
  }

  // ---------------------------------------------------------------------
  // The lexer as evidently intended

  /** How far the corrected lexer moves past the token at `i`: one punctuation mark, or the whole word. */
  function FixedWidth(s: string, i: nat): (n: nat)
    requires i < |s| && !IsBlank(s[i])
    ensures n >= 1
  {
    if Punctuation(s[i]).Some? then 1 else |Word(s, i)|
  }

  /**
   * The tokens of a line when blanks are skipped and every word moves the
   * cursor by its own length in characters. It always reaches the end of the
   * line.
   */
  function FixedTokensFrom(s: string, i: nat): seq<Token>
    decreases Rest(s, i)
  {
    if i >= |s| then [NewLine]
    else if IsBlank(s[i]) then FixedTokensFrom(s, i + 1)
    else [TokenAt(s, i)] + FixedTokensFrom(s, i + FixedWidth(s, i))
  }

  function FixedLexLine(s: string): seq<Token>
  {
    FixedTokensFrom(s, 0)
  }

  /** The corrected lexer moves past a readable token by the length of its text. */
  lemma {:induction false} FixedWidthOf(s: string, p: string, t: Token, q: string)
    requires Readable(t) && s == p + Spelling(t) + q
    requires IsWord(t) ==> |q| == 0 || IsDelimiter(q[0])
    requires |p| < |s| && !IsBlank(s[|p|])
    ensures FixedWidth(s, |p|) == |Spelling(t)|
  {
    var w := Spelling(t);
    SpellingFacts(t);
    assert s[|p|] == w[0];
    if IsWord(t) {
      assert s[|p|..|p| + |w|] == w;
      assert |p| + |w| < |s| ==> s[|p| + |w|] == q[0];
      WordIs(s, |p|, w);
    }
  }

  /** The corrected lexer emits the token at a non-blank position and continues past its width. */
  lemma {:induction false} FixedStep(s: string, i: nat, t: Token, j: nat)
    requires i < |s| && !IsBlank(s[i]) && TokenAt(s, i) == t && j == i + FixedWidth(s, i)
    ensures FixedTokensFrom(s, i) == [t] + FixedTokensFrom(s, j)
  {
  }

  /** The corrected lexer passes over a blank. */
  lemma {:induction false} SkipBlank(s: string, i: nat, j: nat)
    requires i < |s| && IsBlank(s[i]) && j == i + 1
    ensures FixedTokensFrom(s, i) == FixedTokensFrom(s, j)
  {
  }

  /**
   * The corrected lexer finds the tokens `ts` in `s` from `i` on, each
   * followed by one blank, and then the end of the line.
   */
  predicate SpacedReadsAt(s: string, i: nat, ts: seq<Token>)
    decreases |ts|
  {
    if |ts| == 0 then i == |s|
    else
      && i < |s| && !IsBlank(s[i]) && TokenAt(s, i) == ts[0]
      && i + FixedWidth(s, i) + 1 <= |s| && IsBlank(s[i + FixedWidth(s, i)])
      && SpacedReadsAt(s, i + FixedWidth(s, i) + 1, ts[1..])
  }

  /** The corrected lexer emits a token followed by a blank and continues past both. */
  lemma {:induction false} SpacedStep(s: string, i: nat, ts: seq<Token>)
    requires |ts| > 0 && SpacedReadsAt(s, i, ts)
    ensures i < |s| && !IsBlank(s[i])
    ensures FixedTokensFrom(s, i) == [ts[0]] + FixedTokensFrom(s, i + FixedWidth(s, i) + 1)
  {
    FixedStep(s, i, ts[0], i + FixedWidth(s, i));
    SkipBlank(s, i + FixedWidth(s, i), i + FixedWidth(s, i) + 1);
  }

  /** The corrected lexer reads back the tokens it finds one blank apart, then a NewLine. */
  lemma {:induction false} SpacedChain(s: string, i: nat, ts: seq<Token>)
    requires SpacedReadsAt(s, i, ts)
    ensures FixedTokensFrom(s, i) == ts + [NewLine]
    decreases |ts|
  {
    if |ts| > 0 {
      WithNewLine(ts);
      SpacedStep(s, i, ts);
      SpacedChain(s, i + FixedWidth(s, i) + 1, ts[1..]);
    } else {
      OnlyNewLine(ts);
    }
  }

  /** The corrected lexer reads back the tokens both lexers find next to each other, then a NewLine. */
  lemma {:induction false} TightChain(s: string, i: nat, ts: seq<Token>)
    requires LexReadsAt(s, i, ts)
    ensures FixedTokensFrom(s, i) == ts + [NewLine]
    decreases |ts|
  {
    if |ts| > 0 {
      WithNewLine(ts);
      FixedStep(s, i, ts[0], i + FixedWidth(s, i));
      TightChain(s, i + FixedWidth(s, i), ts[1..]);
    } else {
      OnlyNewLine(ts);
    }
  }

  /** The corrected lexer finds the tokens of a line written as readable tokens with a space after each. */
  lemma {:induction false} FixedSpacedReads(s: string, p: string, i: nat, ts: seq<Token>)
    requires s == p + Spell(ts, " ") && i == |p|
    requires AllReadable(ts)
    ensures SpacedReadsAt(s, i, ts)
    decreases |ts|
  {
    if |ts| > 0 {
      SpacedHead(s, p, i, ts);
      FixedSpacedReads(s, p + Spelling(ts[0]) + " ", i + FixedWidth(s, i) + 1, ts[1..]);
    } else {
      EndOfLine(s, p, ts, " ");
    }
  }

  /**
   * The corrected lexer reads back any line of readable tokens written with a
   * space after each, words next to words included, and agrees with the
   * lexer on lines written without separators.
   */
  lemma {:induction false} FixedReadsBack(ts: seq<Token>)
    requires forall k :: 0 <= k < |ts| ==> Readable(ts[k])
    ensures FixedLexLine(Spell(ts, " ")) == ts + [NewLine]
    ensures Separated(ts) ==> Some(FixedLexLine(Spell(ts, ""))) == LexLine(Spell(ts, ""))
  {
    ReadableAll(ts);
    EmptyPrefix(Spell(ts, " "));
    FixedSpacedReads(Spell(ts, " "), "", 0, ts);
    SpacedChain(Spell(ts, " "), 0, ts);
    if Separated(ts) {
      JoinedSpell(ts);
      EmptyPrefix(Spell(ts, ""));
      TightReads(Spell(ts, ""), "", 0, ts);
      TightChain(Spell(ts, ""), 0, ts);
      SpellingReadsBack(ts);
    }
  }

  // ---------------------------------------------------------------------
  // Lines the lexer gets wrong

  /** `identifier` makes a Number of every run of digits whose value fits in 64 bits. */
  lemma ClassifyDigits(w: string)
    requires |w| > 0 && Text.AllDigits(w) && Text.DecimalValue(w) <= Text.U64_MAX
    ensures Classify(w) == Number(Text.DecimalValue(w))
  {
    assert Text.IsDigit(w[0]);
    assert w != "optimize" && w != "time" && w != "\n" by {
      if |w| == 1 {
        assert w[0] != '\n';
      }
    }
  }

  lemma {:induction false} SpaceWords(s: string)
    requires s == "a b"
    ensures Word(s, 0) == "a" && Word(s, 2) == "b" && ByteLength("a") == 1
  {
    WordIs(s, 0, "a");
    WordIs(s, 2, "b");
  }

  /** A line with a space never finishes: after the first word the lexer stops on the space. */
  lemma SpaceNeverEnds()
    ensures LexLine("a b").None?
  {
    var s := "a b";
    SpaceWords(s);
    assert TokensFrom(s, 1).None?;
  }

  /** The corrected lexer reads the two words of the same line. */
  lemma FixedSpaceWords()
    ensures FixedLexLine("a b") == [Identifier("a"), Identifier("b"), NewLine]
  {
    var s := "a b";
    SpaceWords(s);
    assert FixedTokensFrom(s, 2) == [Identifier("b"), NewLine];
  }

  /**
   * `007` moves the cursor by the one digit of 7, so the rest of the word is
   * read again: three Numbers where the corrected lexer reads one.
   */
  lemma LeadingZerosRepeat()
    ensures LexLine("007") == Some([Number(7), Number(7), Number(7), NewLine])
  {
    var s := "007";
    ZerosRead(s);
    assert Width(Number(7)) == 1;
    assert TokensFrom(s, 3) == Some([NewLine]);
    assert TokensFrom(s, 2) == Then([Number(7)], TokensFrom(s, 3));
    assert [Number(7)] + [NewLine] == [Number(7), NewLine];
    assert TokensFrom(s, 2) == Some([Number(7), NewLine]);
    assert TokensFrom(s, 1) == Then([Number(7)], TokensFrom(s, 2));
    assert [Number(7)] + [Number(7), NewLine] == [Number(7), Number(7), NewLine];
    assert TokensFrom(s, 1) == Some([Number(7), Number(7), NewLine]);
    assert [Number(7)] + [Number(7), Number(7), NewLine] == [Number(7), Number(7), Number(7), NewLine];
    assert TokensFrom(s, 0) == Then([Number(7)], TokensFrom(s, 1));
  }

  /** The corrected lexer reads `007` as the one number 7. */
  lemma FixedLeadingZeros()
    ensures FixedLexLine("007") == [Number(7), NewLine]
  {
    var s := "007";
    ZerosRead(s);
    assert FixedWidth(s, 0) == 3;
    assert FixedTokensFrom(s, 0) == [Number(7)] + FixedTokensFrom(s, 3);
  }

  lemma ZerosValue()
    ensures Text.DecimalValue("007") == 7 && Text.DecimalValue("07") == 7 && Text.DecimalValue("7") == 7
  {
    assert "7"[..0] == "" && "0"[..0] == "";
    assert Text.DecimalValue("7") == 7 && Text.DecimalValue("0") == 0;
    assert "07"[..1] == "0" && "00"[..1] == "0";
    assert Text.DecimalValue("07") == 7 && Text.DecimalValue("00") == 0;
    assert "007"[..2] == "00";
  }

  lemma ZerosRead(s: string)
    requires s == "007"
    ensures Word(s, 0) == "007" && Word(s, 1) == "07" && Word(s, 2) == "7"
    ensures TokenAt(s, 0) == Number(7) && TokenAt(s, 1) == Number(7) && TokenAt(s, 2) == Number(7)
  {
    WordIs(s, 0, "007");
    WordIs(s, 1, "07");
    WordIs(s, 2, "7");
    ZerosValue();
    ClassifyDigits("7");
    ClassifyDigits("07");
    ClassifyDigits("007");
  }

  /**
   * A word with a character UTF-8 writes in two bytes moves the cursor one
   * character too far: the colon after `a\u00E9` is skipped.
   */
  lemma WideCharSkips()
    ensures LexLine("a\U{00E9}:1") == Some([Identifier("a\U{00E9}"), Number(1), NewLine])
  {
    var s := "a\U{00E9}:1";
    WideRead(s);
    assert ByteLength("a\U{00E9}") == 3 by {
      assert "a\U{00E9}"[..1] == "a";
    }
    assert TokensFrom(s, 4) == Some([NewLine]);
    assert TokensFrom(s, 3) == Then([Number(1)], TokensFrom(s, 4));
    assert [Number(1)] + [NewLine] == [Number(1), NewLine];
    assert TokensFrom(s, 3) == Some([Number(1), NewLine]);
    assert [Identifier("a\U{00E9}")] + [Number(1), NewLine] == [Identifier("a\U{00E9}"), Number(1), NewLine];
    assert TokensFrom(s, 0) == Then([Identifier("a\U{00E9}")], TokensFrom(s, 3));
  }

  /** The corrected lexer reads the colon after `a\u00E9`. */
  lemma FixedWideChar()
    ensures FixedLexLine("a\U{00E9}:1") == [Identifier("a\U{00E9}"), Colon, Number(1), NewLine]
  {
    var s := "a\U{00E9}:1";
    WideRead(s);
    assert FixedTokensFrom(s, 3) == [Number(1)] + FixedTokensFrom(s, 4);
    assert FixedTokensFrom(s, 2) == [Colon] + FixedTokensFrom(s, 3);
    assert FixedTokensFrom(s, 0) == [Identifier("a\U{00E9}")] + FixedTokensFrom(s, 2);
  }

  lemma WideRead(s: string)
    requires s == "a\U{00E9}:1"
    ensures Word(s, 0) == "a\U{00E9}" && Word(s, 3) == "1"
    ensures TokenAt(s, 0) == Identifier("a\U{00E9}") && TokenAt(s, 2) == Colon && TokenAt(s, 3) == Number(1)
  {
    WordIs(s, 0, "a\U{00E9}");
    WordIs(s, 3, "1");
    assert Text.DecimalValue("1") == 1;
    ClassifyDigits("1");
  }

}
