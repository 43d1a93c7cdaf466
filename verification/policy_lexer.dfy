/**
 * The scanner of the policy language (mom/Policy/Parser.py, `Token`,
 * `NumericToken` and the `t_*` rules of `Scanner`).
 *
 * The regular-expression engine that drives the rules is not part of this
 * model; each rule is written out as a function on the remaining input that
 * says how many characters the rule's expression matches there.  At each
 * position the rules are tried in a fixed order (whitespace, brackets,
 * strings, the number rules float, integer, integer-with-exponent, hex,
 * octal, then symbols, then operators) and the first rule that matches wins.
 */
module PolicyLexer {
  import opened Wrappers
  import opened Strings

  /** The subtype a `NumericToken` carries. */
  datatype NumKind = Integer | Float | Hex | Octal

  /**
   * A token.  Strings keep their quotes (the evaluator strips them);
   * brackets are tokens of their own kind.
   */
  datatype Token =
    | Symbol(name: string)
    | Quoted(text: string)
    | Number(kind: NumKind, text: string)
    | Operator(op: string)
    | Open(open: char)
    | Close(close: char)

  /** The text a token was scanned from. */
  function Text(t: Token): string {
    match t
    case Symbol(n) => n
    case Quoted(s) => s
    case Number(_, s) => s
    case Operator(o) => o
    case Open(c) => [c]
    case Close(c) => [c]
  }

  /** The keys of the evaluator's operator table, the scanner's user operators. */
  predicate IsOperator(o: string) {
    (|o| == 1 && (o[0] == '+' || o[0] == '-' || o[0] == '*' || o[0] == '/' || o[0] == '<' || o[0] == '>')) ||
    (|o| == 2 && ((o[1] == '=' && (o[0] == '<' || o[0] == '>' || o[0] == '=' || o[0] == '!')) ||
                  (o[0] == o[1] && (o[0] == '<' || o[0] == '>'))))
  }

  predicate IsOpenBracket(c: char) { c == '(' || c == '[' || c == '{' }
  predicate IsCloseBracket(c: char) { c == ')' || c == ']' || c == '}' }

  predicate IsSymbolStart(c: char) {
    ('A' <= c <= 'Z') || ('a' <= c <= 'z') || c == '_'
  }

  predicate IsSymbolChar(c: char) {
    IsSymbolStart(c) || IsDigit(c) || c == '-' || c == '.'
  }

  predicate IsHexDigit(c: char) {
    IsDigit(c) || ('a' <= c <= 'f') || ('A' <= c <= 'F')
  }

  // ---------------------------------------------------------------------
  // maximal runs of one character class

  function DigitRun(s: string): (n: nat)
    ensures n <= |s|
    decreases |s|
  {
    if |s| > 0 && IsDigit(s[0]) then 1 + DigitRun(s[1..]) else 0
  }

  function HexRun(s: string): (n: nat)
    ensures n <= |s|
    decreases |s|
  {
    if |s| > 0 && IsHexDigit(s[0]) then 1 + HexRun(s[1..]) else 0
  }

  function SymbolRun(s: string): (n: nat)
    ensures n <= |s|
    decreases |s|
  {
    if |s| > 0 && IsSymbolChar(s[0]) then 1 + SymbolRun(s[1..]) else 0
  }

  function SpaceRun(s: string): (n: nat)
    ensures n <= |s|
    decreases |s|
  {
    if |s| > 0 && IsSpace(s[0]) then 1 + SpaceRun(s[1..]) else 0
  }

  // ---------------------------------------------------------------------
  // the number rules; each gives the length its expression matches

  /** `-?`: the length of an optional leading minus sign. */
  function SignLen(s: string): (n: nat)
    ensures n <= 1 && n <= |s|
  {
    if |s| > 0 && s[0] == '-' then 1 else 0
  }

  /** `([Ee][+-]?[0-9]+)?`: an optional exponent (0 when absent). */
  function ExponentLen(s: string): (n: nat)
    ensures n <= |s|
  {
    if |s| > 0 && (s[0] == 'e' || s[0] == 'E') then
      var j := if |s| > 1 && (s[1] == '+' || s[1] == '-') then 2 else 1;
      var d := DigitRun(s[j..]);
      if d > 0 then j + d else 0
    else 0
  }

  /** `0(?![0-9Xx])|[1-9][0-9]*`: the mantissa of the integer rules. */
  function MantissaLen(s: string): (r: Option<nat>)
    ensures r.Some? ==> 0 < r.value <= |s|
  {
    if |s| > 0 && s[0] == '0' then
      if |s| > 1 && (IsDigit(s[1]) || s[1] == 'x' || s[1] == 'X') then None else Some(1)
    else if |s| > 0 && '1' <= s[0] <= '9' then Some(1 + DigitRun(s[1..]))
    else None
  }

  /** `-?(0|([1-9][0-9]*))*(\.[0-9]+)([Ee][+-]?[0-9]+)?` (Parser.py:78). */
  function FloatLen(s: string): (r: Option<nat>)
    ensures r.Some? ==> 0 < r.value <= |s|
  {
    var k := SignLen(s);
    var d := k + DigitRun(s[k..]);
    if d < |s| && s[d] == '.' && DigitRun(s[d + 1..]) > 0 then
      var f := d + 1 + DigitRun(s[d + 1..]);
      Some(f + ExponentLen(s[f..]))
    else None
  }

  /** `-?(0(?![0-9Xx])|[1-9][0-9]*)(?![0-9eE])` (Parser.py:82). */
  function IntegerLen(s: string): (r: Option<nat>)
    ensures r.Some? ==> 0 < r.value <= |s|
  {
    var k := SignLen(s);
    match MantissaLen(s[k..])
    case None => None
    case Some(m) =>
      if k + m < |s| && (IsDigit(s[k + m]) || s[k + m] == 'e' || s[k + m] == 'E') then None
      else Some(k + m)
  }

  /** `-?(0(?![0-9Xx])|[1-9][0-9]*)[Ee][+-]?[0-9]+` (Parser.py:86). */
  function IntegerExponentLen(s: string): (r: Option<nat>)
    ensures r.Some? ==> 0 < r.value <= |s|
  {
    var k := SignLen(s);
    match MantissaLen(s[k..])
    case None => None
    case Some(m) =>
      var e := ExponentLen(s[k + m..]);
      if e > 0 then Some(k + m + e) else None
  }

  /** `0[Xx][0-9A-Fa-f]+` (Parser.py:91). */
  function HexLen(s: string): (r: Option<nat>)
    ensures r.Some? ==> 0 < r.value <= |s|
  {
    if |s| > 2 && s[0] == '0' && (s[1] == 'x' || s[1] == 'X') && HexRun(s[2..]) > 0 then
      Some(2 + HexRun(s[2..]))
    else None
  }

  /** `0[0-9]+` (Parser.py:95). */
  function OctalLen(s: string): (r: Option<nat>)
    ensures r.Some? ==> 0 < r.value <= |s|
  {
    if |s| > 1 && s[0] == '0' && DigitRun(s[1..]) > 0 then Some(1 + DigitRun(s[1..])) else None
  }

  /** The first number rule that matches, in rule order, with the kind it yields. */
  function NumberLen(s: string): (r: Option<(NumKind, nat)>)
    ensures r.Some? ==> 0 < r.value.1 <= |s|
  {
    if FloatLen(s).Some? then Some((Float, FloatLen(s).value))
    else if IntegerLen(s).Some? then Some((Integer, IntegerLen(s).value))
    // an integer with an exponent is read as a float (Parser.py:87-88)
    else if IntegerExponentLen(s).Some? then Some((Float, IntegerExponentLen(s).value))
    else if HexLen(s).Some? then Some((Hex, HexLen(s).value))
    else if OctalLen(s).Some? then Some((Octal, OctalLen(s).value))
    else None
  }

  /** `"([^"\\]|\\.)*"` and its single-quoted twin: the length up to the closing quote. */
  function StringBodyLen(s: string, q: char): (r: Option<nat>)
    ensures r.Some? ==> 0 < r.value <= |s|
    decreases |s|
  {
    if |s| == 0 then None
    else if s[0] == q then Some(1)
    else if s[0] == '\\' then
      // `.` does not match a newline
      if |s| > 1 && s[1] != '\n' then
        match StringBodyLen(s[2..], q)
        case None => None
        case Some(n) => Some(2 + n)
      else None
    else
      match StringBodyLen(s[1..], q)
      case None => None
      case Some(n) => Some(1 + n)
  }

  /** The longest user operator at the start of `s`. */
  function OperatorLen(s: string): (r: Option<nat>)
    ensures r.Some? ==> 0 < r.value <= |s| && IsOperator(s[..r.value])
  {
    if |s| >= 2 && IsOperator(s[..2]) then Some(2)
    else if |s| >= 1 && IsOperator(s[..1]) then Some(1)
    else None
  }

  /**
   * One scanning step on a non-empty remainder: the token found (None for
   * whitespace) and how many characters it covers, or None when no rule matches.
   */
  function NextLexeme(s: string): (r: Option<(Option<Token>, nat)>)
    requires |s| > 0
    ensures r.Some? ==> 0 < r.value.1 <= |s|
  {
    var c := s[0];
    if IsSpace(c) then Some((None, SpaceRun(s)))
    else if IsOpenBracket(c) then Some((Some(Open(c)), 1))
    else if IsCloseBracket(c) then Some((Some(Close(c)), 1))
    else if c == '"' || c == '\'' then
      match StringBodyLen(s[1..], c)
      case None => None
      case Some(n) => Some((Some(Quoted(s[..1 + n])), 1 + n))
    else if NumberLen(s).Some? then
      var (kind, n) := NumberLen(s).value;
      Some((Some(Number(kind, s[..n])), n))
    else if IsSymbolStart(c) then
      var n := SymbolRun(s);
      Some((Some(Symbol(s[..n])), n))
    else if OperatorLen(s).Some? then
      var n := OperatorLen(s).value;
      Some((Some(Operator(s[..n])), n))
    else None
  }

  /** A lexical error: no rule matches at this offset of the input. */
  datatype LexError = NoRuleMatches(offset: nat)

  /**
   * Scan a remainder of the input.  A failure reports how many characters
   * were left where no rule matched, which does not depend on how much
   * input came before.
   */
  function Scan(s: string): (r: Result<seq<Token>, nat>)
    ensures r.Err? ==> 0 < r.error <= |s|
    decreases |s|
  {
    if |s| == 0 then Ok([])
    else
      match NextLexeme(s)
      case None => Err(|s|)
      case Some((tok, n)) =>
        match Scan(s[n..])
        case Err(left) => Err(left)
        case Ok(rest) => Ok(if tok.Some? then [tok.value] + rest else rest)
  }

  /** `Scanner.tokenize`: the tokens of a whole text. */
  function Lex(s: string): Result<seq<Token>, LexError> {
    match Scan(s)
    case Ok(ts) => Ok(ts)
    case Err(left) => Err(NoRuleMatches(|s| - left))
  }

  /** `rv` followed by the outcome of scanning the rest. */
  function Prepend(rv: seq<Token>, r: Result<seq<Token>, nat>): Result<seq<Token>, nat> {
    match r
    case Ok(ts) => Ok(rv + ts)
    case Err(left) => Err(left)
  }

  /** One step of the scan, as the loop of `Scanner.Tokenize` takes it. */
  lemma ScanStep(s: string, tok: Option<Token>, n: nat)
    requires |s| > 0 && NextLexeme(s) == Some((tok, n))
    ensures n <= |s|
    ensures Scan(s) == Prepend(if tok.Some? then [tok.value] else [], Scan(s[n..]))
  {
    if Scan(s[n..]).Ok? && tok.None? {
      assert [] + Scan(s[n..]).value == Scan(s[n..]).value;
    }
  }

  lemma PrependNothing(r: Result<seq<Token>, nat>)
    ensures Prepend([], r) == r
  {
    if r.Ok? {
      assert [] + r.value == r.value;
    }
  }

  lemma PrependPrepend(a: seq<Token>, b: seq<Token>, r: Result<seq<Token>, nat>)
    ensures Prepend(a, Prepend(b, r)) == Prepend(a + b, r)
  {
    if r.Ok? {
      assert a + (b + r.value) == (a + b) + r.value;
    }
  }

  /** `Scanner`: the token list `rv` is extended rule by rule as the input is consumed. */
  class Scanner {
    var rv: seq<Token>

    constructor ()
      ensures rv == []
    {
      rv := [];
    }

    /** `Scanner.tokenize`: scans the whole input, appending to `rv`. */
    method Tokenize(input: string) returns (r: Result<seq<Token>, LexError>)
      modifies this
      ensures r == Lex(input)
      ensures r.Ok? ==> rv == r.value
    {
      rv := [];
      var i := 0;
      PrependNothing(Scan(input));
      assert input[0..] == input;
      while i < |input|
        invariant 0 <= i <= |input|
        invariant Scan(input) == Prepend(rv, Scan(input[i..]))
        decreases |input| - i
      {
        var step := NextLexeme(input[i..]);
        if step.None? {
          assert Scan(input[i..]) == Err(|input| - i);
          return Err(NoRuleMatches(i));
        }
        var (tok, n) := step.value;
        ghost var found := if tok.Some? then [tok.value] else [];
        ScanStep(input[i..], tok, n);
        assert input[i..][n..] == input[i + n..];
        PrependPrepend(rv, found, Scan(input[i + n..]));
        if tok.Some? {
          rv := rv + [tok.value];
        } else {
          assert rv + [] == rv;
        }
        i := i + n;
      }
      assert rv + [] == rv;
      r := Ok(rv);
    }
  }

  // ---------------------------------------------------------------------
  // the canonical spelling of each kind of token, and the round trip

  /** `0` or a digit string without a leading zero, optionally negated. */
  predicate IsDecimalLiteral(t: string) {
    var k := if |t| > 0 && t[0] == '-' then 1 else 0;
    var d := t[k..];
    |d| > 0 && AllDigits(d) && (d[0] == '0' ==> |d| == 1)
  }

  predicate IsHexLiteral(t: string) {
    |t| > 2 && t[0] == '0' && (t[1] == 'x' || t[1] == 'X') &&
    forall i :: 2 <= i < |t| ==> IsHexDigit(t[i])
  }

  predicate IsOctalLiteral(t: string) {
    |t| > 1 && t[0] == '0' && AllDigits(t)
  }

  predicate IsStringLiteral(t: string) {
    |t| >= 2 && (t[0] == '"' || t[0] == '\'') && t[|t| - 1] == t[0] &&
    forall i :: 0 < i < |t| - 1 ==> t[i] != t[0] && t[i] != '\\'
  }

  predicate IsSymbolName(n: string) {
    |n| > 0 && IsSymbolStart(n[0]) && forall i :: 0 < i < |n| ==> IsSymbolChar(n[i])
  }

  /** A token the scanner reads back from its own text (floats are not included). */
  predicate Canonical(t: Token) {
    match t
    case Symbol(n) => IsSymbolName(n)
    case Quoted(s) => IsStringLiteral(s)
    case Number(k, s) =>
      (k == Integer && IsDecimalLiteral(s)) || (k == Hex && IsHexLiteral(s)) ||
      (k == Octal && IsOctalLiteral(s))
    case Operator(o) => IsOperator(o)
    case Open(c) => IsOpenBracket(c)
    case Close(c) => IsCloseBracket(c)
  }

  /** Tokens written out with one blank between neighbours. */
  function Render(ts: seq<Token>): string
    decreases |ts|
  {
    if |ts| == 0 then ""
    else if |ts| == 1 then Text(ts[0])
    else Text(ts[0]) + " " + Render(ts[1..])
  }

  /** A remainder that cannot extend the token before it. */
  predicate Boundary(rest: string) {
    |rest| == 0 || IsSpace(rest[0])
  }

  lemma {:induction false} DigitRunExact(d: string, rest: string)
    requires AllDigits(d) && Boundary(rest)
    ensures DigitRun(d + rest) == |d|
    decreases |d|
  {
    if |d| > 0 {
      assert (d + rest)[1..] == d[1..] + rest;
      DigitRunExact(d[1..], rest);
    } else {
      assert d + rest == rest;
    }
  }

  lemma {:induction false} HexRunExact(d: string, rest: string)
    requires forall i :: 0 <= i < |d| ==> IsHexDigit(d[i])
    requires Boundary(rest)
    ensures HexRun(d + rest) == |d|
    decreases |d|
  {
    if |d| > 0 {
      assert (d + rest)[1..] == d[1..] + rest;
      HexRunExact(d[1..], rest);
    } else {
      assert d + rest == rest;
    }
  }

  lemma {:induction false} SymbolRunExact(d: string, rest: string)
    requires forall i :: 0 <= i < |d| ==> IsSymbolChar(d[i])
    requires Boundary(rest)
    ensures SymbolRun(d + rest) == |d|
    decreases |d|
  {
    if |d| > 0 {
      assert (d + rest)[1..] == d[1..] + rest;
      SymbolRunExact(d[1..], rest);
    } else {
      assert d + rest == rest;
    }
  }

  lemma {:induction false} StringBodyExact(body: string, q: char, rest: string)
    requires forall i :: 0 <= i < |body| ==> body[i] != q && body[i] != '\\'
    ensures StringBodyLen(body + [q] + rest, q) == Some(|body| + 1)
    decreases |body|
  {
    if |body| > 0 {
      assert (body + [q] + rest)[1..] == body[1..] + [q] + rest;
      StringBodyExact(body[1..], q, rest);
    } else {
      assert body + [q] + rest == [q] + rest;
    }
  }

  /** No number rule matches a string that does not start like a number. */
  lemma NoNumber(s: string)
    requires |s| > 0 && !IsDigit(s[0]) && s[0] != '.'
    requires s[0] == '-' ==> |s| == 1 || IsSpace(s[1])
    ensures NumberLen(s) == None
  {
    if s[0] == '-' && |s| > 1 {
      assert DigitRun(s[1..]) == 0;
    }
  }

  /** A canonical token followed by a boundary is scanned as exactly itself. */
  lemma NextLexemeCanonical(t: Token, rest: string)
    requires Canonical(t) && Boundary(rest)
    ensures |Text(t)| > 0
    ensures NextLexeme(Text(t) + rest) == Some((Some(t), |Text(t)|))
  {
    match t
    case Symbol(n) => LexemeSymbol(n, rest);
    case Quoted(x) => LexemeString(x, rest);
    case Operator(o) => LexemeOperator(o, rest);
    case Open(c) =>
    case Close(c) =>
    case Number(k, x) => LexemeNumber(k, x, rest);
  }

  lemma LexemeSymbol(n: string, rest: string)
    requires IsSymbolName(n) && Boundary(rest)
    ensures NextLexeme(n + rest) == Some((Some(Symbol(n)), |n|))
  {
    var s := n + rest;
    assert s[0] == n[0];
    NoNumber(s);
    assert s[1..] == n[1..] + rest;
    SymbolRunExact(n[1..], rest);
    assert SymbolRun(s) == |n|;
    assert s[..|n|] == n;
  }

  lemma LexemeString(x: string, rest: string)
    requires IsStringLiteral(x) && Boundary(rest)
    ensures NextLexeme(x + rest) == Some((Some(Quoted(x)), |x|))
  {
    var s := x + rest;
    var body := x[1..|x| - 1];
    assert x == [x[0]] + body + [x[0]];
    assert s[1..] == body + [x[0]] + rest;
    StringBodyExact(body, x[0], rest);
    assert s[..1 + |body| + 1] == x;
  }

  lemma LexemeOperator(o: string, rest: string)
    requires IsOperator(o) && Boundary(rest)
    ensures NextLexeme(o + rest) == Some((Some(Operator(o)), |o|))
  {
    var s := o + rest;
    assert s[..|o|] == o;
    assert s[0] == o[0];
    if |o| == 1 {
      assert |s| > 1 ==> s[1] == rest[0];
      NoNumber(s);
      assert !(|s| >= 2 && IsOperator(s[..2]));
    } else {
      NoNumber(s);
    }
  }

  lemma LexemeNumber(k: NumKind, x: string, rest: string)
    requires Canonical(Number(k, x)) && Boundary(rest)
    ensures NextLexeme(x + rest) == Some((Some(Number(k, x)), |x|))
  {
    var s := x + rest;
    assert s[..|x|] == x;
    assert s[0] == x[0];
    if k == Integer {
      NumberInteger(x, rest);
    } else if k == Hex {
      NumberHex(x, rest);
    } else {
      NumberOctal(x, rest);
    }
  }

  /** The float rule needs a dot after the leading digits. */
  lemma FloatNeedsDot(s: string)
    requires var d := SignLen(s) + DigitRun(s[SignLen(s)..]); d == |s| || s[d] != '.'
    ensures FloatLen(s) == None
  {
  }

  lemma NumberInteger(x: string, rest: string)
    requires IsDecimalLiteral(x) && Boundary(rest)
    ensures NumberLen(x + rest) == Some((Integer, |x|))
  {
    var s := x + rest;
    var k := if x[0] == '-' then 1 else 0;
    var d := x[k..];
    assert SignLen(s) == k;
    assert s[k..] == d + rest;
    DigitRunExact(d, rest);
    FloatNeedsDot(s);
    IntegerExact(s, k, d, rest);
  }

  lemma IntegerExact(s: string, k: nat, d: string, rest: string)
    requires SignLen(s) == k && k <= |s| && s[k..] == d + rest
    requires |d| > 0 && AllDigits(d) && (d[0] == '0' ==> |d| == 1) && Boundary(rest)
    ensures IntegerLen(s) == Some(k + |d|)
  {
    if d[0] == '0' {
      assert MantissaLen(s[k..]) == Some(1);
    } else {
      assert (d + rest)[1..] == d[1..] + rest;
      DigitRunExact(d[1..], rest);
      assert MantissaLen(s[k..]) == Some(|d|);
    }
    assert k + |d| < |s| ==> s[k + |d|] == rest[0];
  }

  lemma NumberHex(x: string, rest: string)
    requires IsHexLiteral(x) && Boundary(rest)
    ensures NumberLen(x + rest) == Some((Hex, |x|))
  {
    var s := x + rest;
    assert SignLen(s) == 0;
    assert DigitRun(s) == 1 by {
      assert s[1..][0] == x[1];
    }
    FloatNeedsDot(s);
    assert MantissaLen(s) == None;
    assert IntegerLen(s) == None;
    assert IntegerExponentLen(s) == None;
    assert s[2..] == x[2..] + rest;
    HexRunExact(x[2..], rest);
  }

  lemma NumberOctal(x: string, rest: string)
    requires IsOctalLiteral(x) && Boundary(rest)
    ensures NumberLen(x + rest) == Some((Octal, |x|))
  {
    var s := x + rest;
    assert SignLen(s) == 0;
    DigitRunExact(x, rest);
    FloatNeedsDot(s);
    assert MantissaLen(s) == None;
    assert IntegerLen(s) == None;
    assert IntegerExponentLen(s) == None;
    assert HexLen(s) == None;
    assert s[1..] == x[1..] + rest;
    DigitRunExact(x[1..], rest);
  }

  /** A token the scanner reads from the front of `x + rest` as exactly `x`. */
  lemma ScanToken(x: string, t: Token, rest: string)
    requires |x| > 0 && NextLexeme(x + rest) == Some((Some(t), |x|))
    ensures Scan(x + rest) == Prepend([t], Scan(rest))
  {
    assert (x + rest)[|x|..] == rest;
    ScanStep(x + rest, Some(t), |x|);
  }

  /** Scanning at a canonical token. */
  lemma ScanCanonical(t: Token, rest: string)
    requires Canonical(t) && Boundary(rest)
    ensures Scan(Text(t) + rest) == Prepend([t], Scan(rest))
  {
    NextLexemeCanonical(t, rest);
    ScanToken(Text(t), t, rest);
  }

  /** A single blank before a token is skipped. */
  lemma ScanBlank(more: string)
    requires |more| > 0 && !IsSpace(more[0])
    ensures Scan(" " + more) == Scan(more)
  {
    var s := " " + more;
    assert s[1..] == more;
    assert SpaceRun(more) == 0;
    assert NextLexeme(s) == Some((None, 1));
    ScanStep(s, None, 1);
    PrependNothing(Scan(more));
  }

  /** A canonical token, a blank, and text that starts with another canonical token. */
  lemma ScanThenBlank(t: Token, more: string, u: Token)
    requires Canonical(t) && Canonical(u)
    requires |more| > 0 && more[0] == Text(u)[0]
    ensures Scan(Text(t) + (" " + more)) == Prepend([t], Scan(more))
  {
    CanonicalStartsSolid(u);
    ScanCanonical(t, " " + more);
    ScanBlank(more);
  }

  /** How a rendering begins: the first token's text, then a blank if more follow. */
  lemma RenderHead(ts: seq<Token>)
    requires |ts| > 0
    ensures |ts| == 1 ==> Render(ts) == Text(ts[0])
    ensures |ts| > 1 ==> Render(ts) == Text(ts[0]) + (" " + Render(ts[1..]))
  {
    if |ts| > 1 {
      assert Text(ts[0]) + " " + Render(ts[1..]) == Text(ts[0]) + (" " + Render(ts[1..]));
    }
  }

  /** The scanner reads rendered canonical tokens back unchanged. */
  lemma LexRender(ts: seq<Token>)
    requires forall i :: 0 <= i < |ts| ==> Canonical(ts[i])
    ensures Lex(Render(ts)) == Ok(ts)
  {
    ScanRender(ts);
  }

  lemma {:induction false} ScanRender(ts: seq<Token>)
    requires forall i :: 0 <= i < |ts| ==> Canonical(ts[i])
    ensures Scan(Render(ts)) == Ok(ts)
    decreases |ts|
  {
    if |ts| > 0 {
      var t := ts[0];
      RenderHead(ts);
      if |ts| == 1 {
        ScanCanonical(t, "");
        assert Text(t) + "" == Text(t);
        assert [t] + [] == ts;
      } else {
        ScanRender(ts[1..]);
        RenderHead(ts[1..]);
        ScanThenBlank(t, Render(ts[1..]), ts[1]);
        assert [t] + ts[1..] == ts;
      }
    }
  }

  /** A canonical token never starts with whitespace. */
  lemma CanonicalStartsSolid(t: Token)
    requires Canonical(t)
    ensures |Text(t)| > 0 && !IsSpace(Text(t)[0])
  {
  }
}
