/**
 * The parser of the policy language (mom/Policy/Parser.py, class `Parser`).
 *
 * A value is a single token or a bracketed list of values.  `( )`, `[ ]`
 * and `{ }` all yield a plain list: the bracket kind is not kept.  A whole
 * program is a non-empty `value_list`.  The grammar is parsed here by
 * recursive descent.
 */
module PolicyParser {
  import opened Wrappers
  import opened PolicyLexer

  /** An expression tree: a token, or the list built by `mklist`. */
  datatype Expr = Atom(tok: Token) | Node(items: seq<Expr>)

  datatype ParseError =
    | UnexpectedEnd
    | UnexpectedToken(at: nat)

  /** The bracket that closes an opening bracket. */
  function Closer(c: char): char {
    if c == '(' then ')' else if c == '[' then ']' else '}'
  }

  /**
   * `value` at `pos`: the expression read and the position after it.
   */
  function ParseValue(toks: seq<Token>, pos: nat): (r: Result<(Expr, nat), ParseError>)
    requires pos <= |toks|
    ensures r.Ok? ==> pos < r.value.1 <= |toks|
    decreases |toks| - pos, 0
  {
    if pos == |toks| then Err(UnexpectedEnd)
    else
      match toks[pos]
      case Open(c) =>
        (match ParseItems(toks, pos + 1, Closer(c))
         case Err(e) => Err(e)
         case Ok((items, next)) => Ok((Node(items), next)))
      case Close(_) => Err(UnexpectedToken(pos))
      case _ => Ok((Atom(toks[pos]), pos + 1))
  }

  /**
   * The values inside a list up to and including its `closer`: the empty
   * list `( )` or a `value_list` followed by the closer.
   */
  function ParseItems(toks: seq<Token>, pos: nat, closer: char): (r: Result<(seq<Expr>, nat), ParseError>)
    requires pos <= |toks|
    ensures r.Ok? ==> pos < r.value.1 <= |toks|
    decreases |toks| - pos, 1
  {
    if pos == |toks| then Err(UnexpectedEnd)
    else if toks[pos] == Close(closer) then Ok(([], pos + 1))
    else if toks[pos].Close? then Err(UnexpectedToken(pos))
    else
      match ParseValue(toks, pos)
      case Err(e) => Err(e)
      case Ok((v, next)) =>
        match ParseItems(toks, next, closer)
        case Err(e) => Err(e)
        case Ok((vs, end)) => Ok(([v] + vs, end))
  }

  /** The values from `pos` to the end of the input. */
  function ParseValues(toks: seq<Token>, pos: nat): (r: Result<seq<Expr>, ParseError>)
    requires pos <= |toks|
    decreases |toks| - pos
  {
    if pos == |toks| then Ok([])
    else
      match ParseValue(toks, pos)
      case Err(e) => Err(e)
      case Ok((v, next)) =>
        match ParseValues(toks, next)
        case Err(e) => Err(e)
        case Ok(vs) => Ok([v] + vs)
  }

  /** `Parser(start='value_list').parse`: a program of one or more values. */
  function Parse(toks: seq<Token>): (r: Result<seq<Expr>, ParseError>)
    ensures r.Ok? ==> |r.value| > 0
  {
    if |toks| == 0 then Err(UnexpectedEnd)
    else
      var r := ParseValues(toks, 0);
      ParseValuesNonEmpty(toks, 0);
      r
  }

  lemma ParseValuesNonEmpty(toks: seq<Token>, pos: nat)
    requires pos < |toks|
    ensures ParseValues(toks, pos).Ok? ==> |ParseValues(toks, pos).value| > 0
  {
  }

  // ---------------------------------------------------------------------
  // writing an expression back as tokens

  /** Brackets only ever open or close a list, never stand as an atom. */
  predicate WellFormed(e: Expr)
    decreases e
  {
    match e
    case Atom(t) => !t.Open? && !t.Close?
    case Node(es) => forall i :: 0 <= i < |es| ==> WellFormed(es[i])
  }

  predicate AllWellFormed(es: seq<Expr>) {
    forall i :: 0 <= i < |es| ==> WellFormed(es[i])
  }

  /** An expression as tokens, every list in round brackets. */
  function Unparse(e: Expr): seq<Token>
    decreases e
  {
    match e
    case Atom(t) => [t]
    case Node(es) => [Open('(')] + UnparseAll(es) + [Close(')')]
  }

  /** The tokens of several expressions, one after the other. */
  function UnparseAll(es: seq<Expr>): seq<Token>
    decreases es
  {
    if |es| == 0 then [] else Unparse(es[0]) + UnparseAll(es[1..])
  }

  /** Every bracket made round: the token stream with list kinds forgotten. */
  function Normalize(toks: seq<Token>): (r: seq<Token>)
    ensures |r| == |toks|
  {
    if |toks| == 0 then []
    else
      var t := toks[0];
      [if t.Open? then Open('(') else if t.Close? then Close(')') else t] + Normalize(toks[1..])
  }

  lemma {:induction false} NormalizeAppend(a: seq<Token>, b: seq<Token>)
    ensures Normalize(a + b) == Normalize(a) + Normalize(b)
    decreases |a|
  {
    if |a| == 0 {
      assert a + b == b;
    } else {
      assert (a + b)[1..] == a[1..] + b;
      NormalizeAppend(a[1..], b);
    }
  }

  lemma NormalizeSlices(toks: seq<Token>, a: nat, b: nat, c: nat)
    requires a <= b <= c <= |toks|
    ensures Normalize(toks[a..c]) == Normalize(toks[a..b]) + Normalize(toks[b..c])
  {
    assert toks[a..c] == toks[a..b] + toks[b..c];
    NormalizeAppend(toks[a..b], toks[b..c]);
  }

  lemma UnparseStartsOpenOrAtom(e: Expr)
    requires WellFormed(e)
    ensures |Unparse(e)| > 0 && !Unparse(e)[0].Close?
  {
  }

  // ---------------------------------------------------------------------
  // parsing reads back what was unparsed ...

  lemma {:induction false} ParseValueUnparse(e: Expr, toks: seq<Token>, pos: nat)
    requires WellFormed(e)
    requires pos + |Unparse(e)| <= |toks| && toks[pos..pos + |Unparse(e)|] == Unparse(e)
    ensures ParseValue(toks, pos) == Ok((e, pos + |Unparse(e)|))
    decreases e
  {
    match e
    case Atom(t) =>
      assert toks[pos] == Unparse(e)[0];
    case Node(es) =>
      var u := Unparse(e);
      assert toks[pos] == u[0] == Open('(');
      assert toks[pos + 1..pos + |u|] == UnparseAll(es) + [Close(')')] by {
        assert u[1..] == UnparseAll(es) + [Close(')')];
      }
      ParseItemsUnparse(es, toks, pos + 1);
  }

  lemma {:induction false} ParseItemsUnparse(es: seq<Expr>, toks: seq<Token>, pos: nat)
    requires AllWellFormed(es)
    requires pos + |UnparseAll(es)| + 1 <= |toks|
    requires toks[pos..pos + |UnparseAll(es)| + 1] == UnparseAll(es) + [Close(')')]
    ensures ParseItems(toks, pos, ')') == Ok((es, pos + |UnparseAll(es)| + 1))
    decreases es
  {
    if |es| == 0 {
      assert toks[pos] == Close(')');
    } else {
      var h := Unparse(es[0]);
      var tail := UnparseAll(es[1..]) + [Close(')')];
      assert UnparseAll(es) + [Close(')')] == h + tail;
      SliceSplit(toks, pos, h, tail);
      UnparseStartsOpenOrAtom(es[0]);
      ParseValueUnparse(es[0], toks, pos);
      ParseItemsUnparse(es[1..], toks, pos + |h|);
      assert [es[0]] + es[1..] == es;
    }
  }

  /** A slice that spells `a + b` splits into a slice spelling `a` and one spelling `b`. */
  lemma SliceSplit<T>(s: seq<T>, pos: nat, a: seq<T>, b: seq<T>)
    requires pos + |a| + |b| <= |s| && s[pos..pos + |a| + |b|] == a + b
    ensures s[pos..pos + |a|] == a && s[pos + |a|..pos + |a| + |b|] == b
    ensures |a| > 0 ==> s[pos] == a[0]
  {
    assert s[pos..pos + |a|] == (a + b)[..|a|];
    assert s[pos + |a|..pos + |a| + |b|] == (a + b)[|a|..];
  }

  lemma {:induction false} ParseValuesUnparse(es: seq<Expr>, toks: seq<Token>, pos: nat)
    requires AllWellFormed(es)
    requires pos + |UnparseAll(es)| == |toks| && toks[pos..] == UnparseAll(es)
    ensures ParseValues(toks, pos) == Ok(es)
    decreases es
  {
    if |es| > 0 {
      var h := Unparse(es[0]);
      var next := pos + |h|;
      assert UnparseAll(es) == h + UnparseAll(es[1..]);
      assert toks[pos..next] == h;
      ParseValueUnparse(es[0], toks, pos);
      assert toks[next..] == UnparseAll(es[1..]);
      ParseValuesUnparse(es[1..], toks, next);
      assert [es[0]] + es[1..] == es;
    }
  }

  /** Parsing the tokens of a non-empty well-formed program gives the program back. */
  lemma ParseUnparse(es: seq<Expr>)
    requires |es| > 0 && AllWellFormed(es)
    ensures Parse(UnparseAll(es)) == Ok(es)
  {
    UnparseStartsOpenOrAtom(es[0]);
    assert |UnparseAll(es)| > 0;
    ParseValuesUnparse(es, UnparseAll(es), 0);
  }

  // ---------------------------------------------------------------------
  // ... and what it reads is the input with the brackets made round

  lemma {:induction false} ParseValueSound(toks: seq<Token>, pos: nat)
    requires pos <= |toks| && ParseValue(toks, pos).Ok?
    ensures var (e, next) := ParseValue(toks, pos).value;
      WellFormed(e) && Unparse(e) == Normalize(toks[pos..next])
    decreases |toks| - pos, 0
  {
    var (e, next) := ParseValue(toks, pos).value;
    match toks[pos]
    case Open(c) =>
      ParseItemsSound(toks, pos + 1, Closer(c));
      var (items, end) := ParseItems(toks, pos + 1, Closer(c)).value;
      assert toks[pos..next] == [toks[pos]] + toks[pos + 1..next];
      NormalizeAppend([toks[pos]], toks[pos + 1..next]);
    case Close(_) =>
    case _ =>
      assert toks[pos..next] == [toks[pos]];
  }

  lemma {:induction false} ParseItemsSound(toks: seq<Token>, pos: nat, closer: char)
    requires pos <= |toks| && ParseItems(toks, pos, closer).Ok?
    ensures var (es, next) := ParseItems(toks, pos, closer).value;
      AllWellFormed(es) && UnparseAll(es) + [Close(')')] == Normalize(toks[pos..next])
    decreases |toks| - pos, 1
  {
    var (es, end) := ParseItems(toks, pos, closer).value;
    if toks[pos] == Close(closer) {
      assert toks[pos..end] == [toks[pos]];
    } else {
      ParseValueSound(toks, pos);
      var (v, next) := ParseValue(toks, pos).value;
      ParseItemsSound(toks, next, closer);
      var (vs, end') := ParseItems(toks, next, closer).value;
      assert es[0] == v && es[1..] == vs;
      NormalizeSlices(toks, pos, next, end);
    }
  }

  lemma {:induction false} ParseValuesSound(toks: seq<Token>, pos: nat)
    requires pos <= |toks| && ParseValues(toks, pos).Ok?
    ensures AllWellFormed(ParseValues(toks, pos).value)
    ensures UnparseAll(ParseValues(toks, pos).value) == Normalize(toks[pos..])
    decreases |toks| - pos
  {
    var es := ParseValues(toks, pos).value;
    if pos < |toks| {
      ParseValueSound(toks, pos);
      var (v, next) := ParseValue(toks, pos).value;
      ParseValuesSound(toks, next);
      assert es[0] == v && es[1..] == ParseValues(toks, next).value;
      NormalizeSlices(toks, pos, next, |toks|);
      assert toks[pos..|toks|] == toks[pos..] && toks[next..|toks|] == toks[next..];
    }
  }

  /** A parsed program is well formed and stands for exactly its input, brackets aside. */
  lemma ParseSound(toks: seq<Token>)
    requires Parse(toks).Ok?
    ensures AllWellFormed(Parse(toks).value)
    ensures UnparseAll(Parse(toks).value) == Normalize(toks)
  {
    ParseValuesSound(toks, 0);
    assert toks[0..] == toks;
  }
}
