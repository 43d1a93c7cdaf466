/**
 * The values a policy computes with and the built-in operators of the
 * evaluator (mom/Policy/Parser.py, `Evaluator.c_add` … `c_shr`), which
 * apply Python 2's own operators to their two arguments.
 *
 * Python's `bool` is a subtype of `int` (True is 1, False is 0), `/` on
 * integers floors, and `*` of a string or list by an integer repeats it.
 * Floating-point numbers are not part of this value domain.
 */
module PolicyValues {
  import opened Wrappers
  import opened Strings

  /**
   * A policy value.  `Object` stands for a Python object the language only
   * passes around (the `Host` and `Guests` entities), told apart by identity.
   */
  datatype Value =
    | Int(i: int)
    | Bool(b: bool)
    | Str(s: string)
    | List(items: seq<Value>)
    | Object(id: nat)

  /** Why an evaluation stopped (each is a Python exception in the source). */
  datatype EvalError =
    | UndefinedSymbol(name: string)
    | TypeMismatch(op: string)
    | ZeroDivision
    | NegativeShiftCount
    | ArityMismatch(name: string)
    | Malformed(what: string)
    | UnknownFunction(name: string)
    | BadNumber(text: string)
    | Unsupported(what: string)
    | TooDeep

  predicate IsNumeric(v: Value) {
    v.Int? || v.Bool?
  }

  /** The integer a number stands for (a `bool` is 0 or 1). */
  function AsInt(v: Value): int
    requires IsNumeric(v)
  {
    if v.Int? then v.i else if v.b then 1 else 0
  }

  /** Python truth: zero, False, the empty string and the empty list are false. */
  predicate Truthy(v: Value) {
    match v
    case Int(n) => n != 0
    case Bool(b) => b
    case Str(s) => |s| > 0
    case List(xs) => |xs| > 0
    case Object(_) => true
  }

  // ---------------------------------------------------------------------
  // arithmetic

  /** `s * n` for a string or list: `n` copies, none when `n <= 0`. */
  function Repeat<T>(s: seq<T>, n: int): seq<T>
    decreases if n <= 0 then 0 else n
  {
    if n <= 0 then [] else s + Repeat(s, n - 1)
  }

  /** Python's `//` on integers: the quotient rounded towards minus infinity. */
  function FloorDiv(a: int, b: int): int
    requires b != 0
  {
    if b > 0 then a / b else (-a) / (-b)
  }

  function Pow2(n: nat): (r: nat)
    ensures r >= 1
  {
    if n == 0 then 1 else 2 * Pow2(n - 1)
  }

  /** `c_add`: numbers add, strings and lists concatenate. */
  function Add(x: Value, y: Value): Result<Value, EvalError> {
    if IsNumeric(x) && IsNumeric(y) then Ok(Int(AsInt(x) + AsInt(y)))
    else if x.Str? && y.Str? then Ok(Str(x.s + y.s))
    else if x.List? && y.List? then Ok(List(x.items + y.items))
    else Err(TypeMismatch("+"))
  }

  /** `c_sub`. */
  function Sub(x: Value, y: Value): Result<Value, EvalError> {
    if IsNumeric(x) && IsNumeric(y) then Ok(Int(AsInt(x) - AsInt(y)))
    else Err(TypeMismatch("-"))
  }

  /** `c_mul`: numbers multiply; a string or list times a number repeats. */
  function Mul(x: Value, y: Value): Result<Value, EvalError> {
    if IsNumeric(x) && IsNumeric(y) then Ok(Int(AsInt(x) * AsInt(y)))
    else if x.Str? && IsNumeric(y) then Ok(Str(Repeat(x.s, AsInt(y))))
    else if IsNumeric(x) && y.Str? then Ok(Str(Repeat(y.s, AsInt(x))))
    else if x.List? && IsNumeric(y) then Ok(List(Repeat(x.items, AsInt(y))))
    else if IsNumeric(x) && y.List? then Ok(List(Repeat(y.items, AsInt(x))))
    else Err(TypeMismatch("*"))
  }

  /** `c_div`: Python 2 integer division floors; a zero divisor raises. */
  function Div(x: Value, y: Value): Result<Value, EvalError> {
    if IsNumeric(x) && IsNumeric(y) then
      if AsInt(y) == 0 then Err(ZeroDivision) else Ok(Int(FloorDiv(AsInt(x), AsInt(y))))
    else Err(TypeMismatch("/"))
  }

  /** `c_shl`: a negative count raises. */
  function Shl(x: Value, y: Value): Result<Value, EvalError> {
    if IsNumeric(x) && IsNumeric(y) then
      if AsInt(y) < 0 then Err(NegativeShiftCount) else Ok(Int(AsInt(x) * Pow2(AsInt(y))))
    else Err(TypeMismatch("<<"))
  }

  /** `c_shr`: an arithmetic shift, rounding towards minus infinity. */
  function Shr(x: Value, y: Value): Result<Value, EvalError> {
    if IsNumeric(x) && IsNumeric(y) then
      if AsInt(y) < 0 then Err(NegativeShiftCount) else Ok(Int(AsInt(x) / Pow2(AsInt(y))))
    else Err(TypeMismatch(">>"))
  }

  // ---------------------------------------------------------------------
  // equality and order

  /** Python `==`: numbers by value (True == 1), strings and lists by contents, objects by identity. */
  predicate PyEq(x: Value, y: Value)
    decreases x
  {
    if IsNumeric(x) && IsNumeric(y) then AsInt(x) == AsInt(y)
    else if x.Str? && y.Str? then x.s == y.s
    else if x.List? && y.List? then PyEqAll(x.items, y.items)
    else if x.Object? && y.Object? then x.id == y.id
    else false
  }

  predicate PyEqAll(a: seq<Value>, b: seq<Value>)
    decreases a
  {
    |a| == |b| && (|a| == 0 || (PyEq(a[0], b[0]) && PyEqAll(a[1..], b[1..])))
  }

  datatype Ordering = Less | Equal | Greater

  function Flip(o: Ordering): Ordering {
    match o
    case Less => Greater
    case Equal => Equal
    case Greater => Less
  }

  function CompareInts(a: int, b: int): Ordering {
    if a < b then Less else if a == b then Equal else Greater
  }

  function CompareStrings(a: string, b: string): Ordering {
    if Lt(a, b) then Less else if a == b then Equal else Greater
  }

  /** Python 2 orders values of different built-in types: numbers first, then by type name. */
  function TypeRank(v: Value): nat {
    if IsNumeric(v) then 0 else if v.List? then 1 else 2
  }

  /**
   * Python 2 ordering of two values: numbers by value, strings
   * lexicographically, lists at their first unequal element (then by
   * length), values of different types by `TypeRank`.  Ordering an object
   * is not modelled.
   */
  function Compare(x: Value, y: Value): Option<Ordering>
    decreases x
  {
    if x.Object? || y.Object? then None
    else if IsNumeric(x) && IsNumeric(y) then Some(CompareInts(AsInt(x), AsInt(y)))
    else if x.Str? && y.Str? then Some(CompareStrings(x.s, y.s))
    else if x.List? && y.List? then CompareAll(x.items, y.items)
    else Some(CompareInts(TypeRank(x), TypeRank(y)))
  }

  function CompareAll(a: seq<Value>, b: seq<Value>): Option<Ordering>
    decreases a
  {
    if |a| == 0 || |b| == 0 then Some(CompareInts(|a|, |b|))
    else if PyEq(a[0], b[0]) then CompareAll(a[1..], b[1..])
    else Compare(a[0], b[0])
  }

  /** The comparison operators of the evaluator. */
  datatype Relation = LessThan | GreaterThan | AtMost | AtLeast

  function Holds(rel: Relation, o: Ordering): bool {
    match rel
    case LessThan => o == Less
    case GreaterThan => o == Greater
    case AtMost => o != Greater
    case AtLeast => o != Less
  }

  /** `c_lt`, `c_gt`, `c_lte`, `c_gte`. */
  function Relate(rel: Relation, x: Value, y: Value): Result<Value, EvalError> {
    match Compare(x, y)
    case None => Err(Unsupported("ordering of objects"))
    case Some(o) => Ok(Bool(Holds(rel, o)))
  }

  /**
   * The built-in operator named `name` (an `operator_map` value) applied to
   * two evaluated arguments; None when `name` is not one of them.
   */
  function ApplyOperator(name: string, x: Value, y: Value): Option<Result<Value, EvalError>> {
    if name == "add" then Some(Add(x, y))
    else if name == "sub" then Some(Sub(x, y))
    else if name == "mul" then Some(Mul(x, y))
    else if name == "div" then Some(Div(x, y))
    else if name == "lt" then Some(Relate(LessThan, x, y))
    else if name == "gt" then Some(Relate(GreaterThan, x, y))
    else if name == "lte" then Some(Relate(AtMost, x, y))
    else if name == "gte" then Some(Relate(AtLeast, x, y))
    else if name == "eq" then Some(Ok(Bool(PyEq(x, y))))
    else if name == "neq" then Some(Ok(Bool(!PyEq(x, y))))
    else if name == "shl" then Some(Shl(x, y))
    else if name == "shr" then Some(Shr(x, y))
    else None
  }

  /** `Evaluator.operator_map`: operator token to built-in name. */
  function OperatorName(op: string): Option<string> {
    if op == "+" then Some("add")
    else if op == "-" then Some("sub")
    else if op == "*" then Some("mul")
    else if op == "/" then Some("div")
    else if op == "<" then Some("lt")
    else if op == ">" then Some("gt")
    else if op == "<=" then Some("lte")
    else if op == ">=" then Some("gte")
    else if op == "<<" then Some("shl")
    else if op == ">>" then Some("shr")
    else if op == "==" then Some("eq")
    else if op == "!=" then Some("neq")
    else None
  }

  // ---------------------------------------------------------------------
  // numeric literals: Python 2 `int(text, 0)`

  function HexDigitValue(c: char): nat {
    if '0' <= c <= '9' then (c as int - '0' as int) as nat
    else if 'a' <= c <= 'f' then (c as int - 'a' as int + 10) as nat
    else if 'A' <= c <= 'F' then (c as int - 'A' as int + 10) as nat
    else 16
  }

  /** The value of `s` read in `base`, None when a character is not a digit of the base. */
  function BaseValue(s: string, base: nat): Option<nat>
    requires 2 <= base <= 16
    decreases |s|
  {
    if |s| == 0 then Some(0)
    else
      var d := HexDigitValue(s[|s| - 1]);
      if d >= base then None
      else
        match BaseValue(s[..|s| - 1], base)
        case None => None
        case Some(v) => Some(v * base + d)
  }

  /**
   * `int(text, 0)`: an optional sign, then `0x`/`0X` and hex digits, or a
   * leading `0` and octal digits, or decimal digits.
   */
  function IntBase0(text: string): Option<int> {
    var neg := |text| > 0 && text[0] == '-';
    var body := if |text| > 0 && (text[0] == '-' || text[0] == '+') then text[1..] else text;
    var magnitude :=
      if |body| > 2 && body[0] == '0' && (body[1] == 'x' || body[1] == 'X') then BaseValue(body[2..], 16)
      else if |body| > 1 && body[0] == '0' then BaseValue(body[1..], 8)
      else if |body| > 0 then BaseValue(body, 10)
      else None;
    match magnitude
    case None => None
    case Some(m) =>
      var v: int := m;
      Some(if neg then -v else v)
  }

  // ---------------------------------------------------------------------
  // properties

  /** `/` is Python's floor division: the remainder has the divisor's sign and is smaller. */
  lemma DivFloors(x: Value, y: Value)
    requires IsNumeric(x) && IsNumeric(y) && AsInt(y) != 0
    ensures Div(x, y).Ok? && Div(x, y).value.Int?
    ensures var q := Div(x, y).value.i; var r := AsInt(x) - AsInt(y) * q;
      (AsInt(y) > 0 ==> 0 <= r < AsInt(y)) && (AsInt(y) < 0 ==> AsInt(y) < r <= 0)
  {
    var a, b := AsInt(x), AsInt(y);
    if b < 0 {
      var q := (-a) / (-b);
      assert -a == (-b) * q + (-a) % (-b);
    }
  }

  /** Division raises exactly when the divisor is zero (and both are numbers). */
  lemma DivZero(x: Value, y: Value)
    requires IsNumeric(x) && IsNumeric(y)
    ensures Div(x, y).Err? <==> AsInt(y) == 0
  {
  }

  lemma MulDivExact(a: int, p: int)
    requires p > 0
    ensures (a * p) / p == a
  {
    var q := (a * p) / p;
    var r := (a * p) % p;
    assert a * p == p * q + r && 0 <= r < p;
    var d := a - q;
    assert p * d == r by {
      assert p * d == p * a - p * q;
    }
  }

  /** Shifting left and back right restores the number. */
  lemma ShrShl(x: Value, n: nat)
    requires IsNumeric(x)
    ensures Shl(x, Int(n)).Ok?
    ensures Shr(Shl(x, Int(n)).value, Int(n)) == Ok(Int(AsInt(x)))
  {
    MulDivExact(AsInt(x), Pow2(n));
  }

  /** `x >> n` rounds down: it is the largest q with q * 2**n <= x. */
  lemma ShrFloors(x: Value, n: nat)
    requires IsNumeric(x)
    ensures Shr(x, Int(n)).Ok?
    ensures var q := Shr(x, Int(n)).value.i;
      q * Pow2(n) <= AsInt(x) < (q + 1) * Pow2(n)
  {
    FloorDivBounds(AsInt(x), Pow2(n));
  }

  lemma FloorDivBounds(a: int, p: int)
    requires p > 0
    ensures (a / p) * p <= a < (a / p + 1) * p
  {
    var q := a / p;
    assert a == p * q + a % p;
    assert q * p == p * q;
    assert (q + 1) * p == p * q + p;
  }

  /** `s * n` has `n` times the length of `s` (none when `n <= 0`). */
  lemma {:induction false} RepeatLength<T>(s: seq<T>, n: int)
    ensures |Repeat(s, n)| == if n <= 0 then 0 else |s| * n
    decreases if n <= 0 then 0 else n
  {
    if n > 0 {
      RepeatLength(s, n - 1);
      assert |s| * n == |s| + |s| * (n - 1);
    }
  }

  /** `s * (a + b) == s * a + s * b` for counts that are not negative. */
  lemma {:induction false} RepeatAdd<T>(s: seq<T>, a: nat, b: nat)
    ensures Repeat(s, a + b) == Repeat(s, a) + Repeat(s, b)
    decreases a
  {
    if a == 0 {
      assert Repeat(s, 0) + Repeat(s, b) == Repeat(s, b);
    } else {
      RepeatAdd(s, a - 1, b);
      AppendAssoc(s, Repeat(s, a - 1), Repeat(s, b));
    }
  }

  lemma AppendAssoc<T>(a: seq<T>, b: seq<T>, c: seq<T>)
    ensures a + (b + c) == (a + b) + c
  {
  }

  /** A negative shift count raises for either direction. */
  lemma NegativeShift(x: Value, y: Value)
    requires IsNumeric(x) && IsNumeric(y) && AsInt(y) < 0
    ensures Shl(x, y) == Err(NegativeShiftCount) && Shr(x, y) == Err(NegativeShiftCount)
  {
  }

  /** Adding then subtracting the same number is the identity (True counts as 1). */
  lemma SubAdd(x: Value, y: Value)
    requires IsNumeric(x) && IsNumeric(y)
    ensures Add(x, y).Ok? && Sub(Add(x, y).value, y) == Ok(Int(AsInt(x)))
  {
  }

  lemma {:induction false} PyEqReflexive(x: Value)
    ensures PyEq(x, x)
    decreases x
  {
    if x.List? {
      PyEqAllReflexive(x.items);
    }
  }

  lemma {:induction false} PyEqAllReflexive(a: seq<Value>)
    ensures PyEqAll(a, a)
    decreases a
  {
    if |a| > 0 {
      PyEqReflexive(a[0]);
      PyEqAllReflexive(a[1..]);
    }
  }

  lemma {:induction false} PyEqSymmetric(x: Value, y: Value)
    ensures PyEq(x, y) == PyEq(y, x)
    decreases x
  {
    if x.List? && y.List? {
      PyEqAllSymmetric(x.items, y.items);
    }
  }

  lemma {:induction false} PyEqAllSymmetric(a: seq<Value>, b: seq<Value>)
    ensures PyEqAll(a, b) == PyEqAll(b, a)
    decreases a
  {
    if |a| > 0 && |b| > 0 {
      PyEqSymmetric(a[0], b[0]);
      PyEqAllSymmetric(a[1..], b[1..]);
    }
  }

  lemma CompareStringsFlip(a: string, b: string)
    ensures CompareStrings(b, a) == Flip(CompareStrings(a, b))
  {
    if Lt(a, b) {
      if Lt(b, a) {
        LtTransitive(a, b, a);
        LtIrreflexive(a);
      }
    } else if a != b {
      LtTotal(a, b);
    } else {
      LtIrreflexive(a);
    }
  }

  /** Swapping the operands flips the order: `x < y` exactly when `y > x`. */
  lemma {:induction false} CompareFlip(x: Value, y: Value)
    ensures Compare(y, x) == (if Compare(x, y).None? then None else Some(Flip(Compare(x, y).value)))
    decreases x
  {
    if x.Object? || y.Object? {
    } else if IsNumeric(x) && IsNumeric(y) {
    } else if x.Str? && y.Str? {
      CompareStringsFlip(x.s, y.s);
    } else if x.List? && y.List? {
      CompareAllFlip(x.items, y.items);
    }
  }

  lemma {:induction false} CompareAllFlip(a: seq<Value>, b: seq<Value>)
    ensures CompareAll(b, a) == (if CompareAll(a, b).None? then None else Some(Flip(CompareAll(a, b).value)))
    decreases a
  {
    if |a| == 0 || |b| == 0 {
    } else {
      PyEqSymmetric(a[0], b[0]);
      if PyEq(a[0], b[0]) {
        CompareAllFlip(a[1..], b[1..]);
      } else {
        CompareFlip(a[0], b[0]);
      }
    }
  }

  /** Where ordering is defined, two values are ordered equal exactly when `==` holds. */
  lemma {:induction false} CompareEqualIsPyEq(x: Value, y: Value)
    requires Compare(x, y).Some?
    ensures Compare(x, y) == Some(Equal) <==> PyEq(x, y)
    decreases x
  {
    if IsNumeric(x) && IsNumeric(y) {
    } else if x.Str? && y.Str? {
      if x.s == y.s {
        LtIrreflexive(x.s);
      }
    } else if x.List? && y.List? {
      CompareAllEqualIsPyEqAll(x.items, y.items);
    }
  }

  lemma {:induction false} CompareAllEqualIsPyEqAll(a: seq<Value>, b: seq<Value>)
    requires CompareAll(a, b).Some?
    ensures CompareAll(a, b) == Some(Equal) <==> PyEqAll(a, b)
    decreases a
  {
    if |a| == 0 || |b| == 0 {
    } else if PyEq(a[0], b[0]) {
      CompareAllEqualIsPyEqAll(a[1..], b[1..]);
    } else {
      CompareEqualIsPyEq(a[0], b[0]);
    }
  }

  /** `(< x y)` and `(> y x)` agree, as do `(<= x y)` and `(>= y x)`. */
  lemma RelateConverse(x: Value, y: Value)
    ensures Relate(LessThan, x, y) == Relate(GreaterThan, y, x)
    ensures Relate(AtMost, x, y) == Relate(AtLeast, y, x)
  {
    CompareFlip(x, y);
  }

  lemma {:induction false} NatToStringLeading(n: nat)
    ensures |NatToString(n)| > 1 ==> NatToString(n)[0] != '0'
    ensures NatToString(n) == NatToString(n)[..1] + NatToString(n)[1..]
    decreases n
  {
    if n >= 10 {
      NatToStringLeading(n / 10);
    }
  }

  lemma {:induction false} BaseValueDecimal(s: string)
    requires AllDigits(s)
    ensures BaseValue(s, 10) == Some(DigitsValue(s))
    decreases |s|
  {
    if |s| > 0 {
      assert AllDigits(s[..|s| - 1]);
      BaseValueDecimal(s[..|s| - 1]);
    }
  }

  /** `int(str(n), 0) == n`: a decimal literal evaluates to the number it spells. */
  lemma IntBase0ToString(n: int)
    ensures IntBase0(IntToString(n)) == Some(n)
  {
    var m: nat := if n < 0 then -n else n;
    var digits := NatToString(m);
    NatToStringValue(m);
    NatToStringLeading(m);
    BaseValueDecimal(digits);
    if n < 0 {
      assert IntToString(n)[1..] == digits;
    }
  }
}
