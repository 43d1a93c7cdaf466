/**
 * Python 2 byte-string helpers used across the model: `str.split`,
 * `str.join`, `str.lstrip`/`strip`, `int()` on a decimal literal, `'%i'`
 * formatting, and the ordering that `list.sort()` uses on strings.
 */
module Strings {
  import opened Wrappers

  /** The characters Python 2's `str.isspace` (and so `\s`, `strip`) accepts. */
  predicate IsSpace(c: char) {
    c == ' ' || c == '\t' || c == '\n' || c == '\r' || c as int == 11 || c as int == 12
  }

  predicate IsDigit(c: char) {
    '0' <= c <= '9'
  }

  predicate AllDigits(s: string) {
    forall i :: 0 <= i < |s| ==> IsDigit(s[i])
  }

  // ---------------------------------------------------------------------
  // split / join

  /** `s.split(sep)`: the pieces between separators, always at least one. */
  function Split(s: string, sep: char): (r: seq<string>)
    ensures |r| >= 1
    ensures forall i :: 0 <= i < |r| ==> sep !in r[i]
    decreases |s|
  {
    if |s| == 0 then [""]
    else if s[0] == sep then [""] + Split(s[1..], sep)
    else
      var rest := Split(s[1..], sep);
      [[s[0]] + rest[0]] + rest[1..]
  }

  /** `sep.join(parts)`. */
  function Join(parts: seq<string>, sep: string): string
    decreases |parts|
  {
    if |parts| == 0 then ""
    else if |parts| == 1 then parts[0]
    else parts[0] + sep + Join(parts[1..], sep)
  }

  /** Joining the pieces of a split with the separator gives back the string. */
  lemma {:induction false} JoinSplit(s: string, sep: char)
    ensures Join(Split(s, sep), [sep]) == s
    decreases |s|
  {
    if |s| > 0 {
      JoinSplit(s[1..], sep);
      var rest := Split(s[1..], sep);
      if s[0] == sep {
        JoinEmptyHead(rest, [sep]);
      } else {
        JoinExtendHead(s[0], rest, [sep]);
      }
      assert s == [s[0]] + s[1..];
    }
  }

  /** An empty first piece contributes only its separator. */
  lemma JoinEmptyHead(rest: seq<string>, sep: string)
    requires |rest| >= 1
    ensures Join([""] + rest, sep) == sep + Join(rest, sep)
  {
    assert ([""] + rest)[1..] == rest;
  }

  /** A character added to the first piece comes first in the join. */
  lemma JoinExtendHead(c: char, rest: seq<string>, sep: string)
    requires |rest| >= 1
    ensures Join([[c] + rest[0]] + rest[1..], sep) == [c] + Join(rest, sep)
  {
    var r := [[c] + rest[0]] + rest[1..];
    if |rest| > 1 {
      assert r[1..] == rest[1..];
    }
  }

  /** Splitting a join of separator-free pieces gives back the pieces. */
  lemma {:induction false} SplitJoin(parts: seq<string>, sep: char)
    requires |parts| >= 1
    requires forall i :: 0 <= i < |parts| ==> sep !in parts[i]
    ensures Split(Join(parts, [sep]), sep) == parts
    decreases |parts|
  {
    if |parts| == 1 {
      SplitNoSep(parts[0], sep);
    } else {
      SplitJoin(parts[1..], sep);
      SplitPrefix(parts[0], Join(parts[1..], [sep]), sep);
      assert [parts[0]] + parts[1..] == parts;
    }
  }

  /** A string without the separator splits into itself. */
  lemma {:induction false} SplitNoSep(s: string, sep: char)
    requires sep !in s
    ensures Split(s, sep) == [s]
    decreases |s|
  {
    if |s| > 0 {
      assert sep !in s[1..] by {
        forall i | 0 <= i < |s[1..]| ensures s[1..][i] != sep {
          assert s[1..][i] == s[i + 1];
        }
      }
      SplitNoSep(s[1..], sep);
      assert [s[0]] + s[1..] == s;
    }
  }

  /** A separator-free prefix followed by the separator becomes the first piece. */
  lemma {:induction false} SplitPrefix(p: string, rest: string, sep: char)
    requires sep !in p
    ensures Split(p + [sep] + rest, sep) == [p] + Split(rest, sep)
    decreases |p|
  {
    if |p| == 0 {
      assert p + [sep] + rest == [sep] + rest;
      assert ([sep] + rest)[1..] == rest;
    } else {
      var s := p + [sep] + rest;
      assert s[0] == p[0];
      assert s[1..] == p[1..] + [sep] + rest;
      assert sep !in p[1..] by {
        forall i | 0 <= i < |p[1..]| ensures p[1..][i] != sep {
          assert p[1..][i] == p[i + 1];
        }
      }
      SplitPrefix(p[1..], rest, sep);
      assert [p[0]] + p[1..] == p;
    }
  }

  // ---------------------------------------------------------------------
  // stripping

  /** `s.lstrip()`: drop leading whitespace. */
  function LStrip(s: string): (r: string)
    ensures |r| <= |s| && r == s[|s| - |r|..]
    ensures |r| > 0 ==> !IsSpace(r[0])
    ensures forall i :: 0 <= i < |s| - |r| ==> IsSpace(s[i])
    decreases |s|
  {
    if |s| > 0 && IsSpace(s[0]) then LStrip(s[1..]) else s
  }

  /** `s.rstrip()`: drop trailing whitespace. */
  function RStrip(s: string): (r: string)
    ensures |r| <= |s| && r == s[..|r|]
    ensures |r| > 0 ==> !IsSpace(r[|r| - 1])
    ensures forall i :: |r| <= i < |s| ==> IsSpace(s[i])
    decreases |s|
  {
    if |s| > 0 && IsSpace(s[|s| - 1]) then RStrip(s[..|s| - 1]) else s
  }

  /** `s.strip()`. */
  function Strip(s: string): string {
    RStrip(LStrip(s))
  }

  // ---------------------------------------------------------------------
  // words

  /** No whitespace anywhere in `s`. */
  predicate NoSpace(s: string) {
    forall i :: 0 <= i < |s| ==> !IsSpace(s[i])
  }

  /** Nonempty and free of whitespace: what `s.split()` can return. */
  predicate AllWords(ws: seq<string>) {
    forall i :: 0 <= i < |ws| ==> ws[i] != "" && NoSpace(ws[i])
  }

  /** `s.split()` with no separator: the maximal runs of non-whitespace, in order. */
  function Words(s: string): seq<string> {
    WordsFrom(s, "")
  }

  /** The words of `s` when the word `cur` has been started before it. */
  function WordsFrom(s: string, cur: string): seq<string>
    decreases |s|
  {
    if |s| == 0 then (if cur == "" then [] else [cur])
    else if IsSpace(s[0]) then (if cur == "" then [] else [cur]) + WordsFrom(s[1..], "")
    else WordsFrom(s[1..], cur + [s[0]])
  }

  /** Every word `s.split()` returns is nonempty and holds no whitespace. */
  lemma WordsAreWords(s: string)
    ensures AllWords(Words(s))
  {
    WordsFromAreWords(s, "");
  }

  lemma {:induction false} WordsFromAreWords(s: string, cur: string)
    requires NoSpace(cur)
    ensures AllWords(WordsFrom(s, cur))
    decreases |s|
  {
    if |s| > 0 {
      if IsSpace(s[0]) {
        WordsFromAreWords(s[1..], "");
      } else {
        assert NoSpace(cur + [s[0]]) by {
          forall i | 0 <= i < |cur + [s[0]]| ensures !IsSpace((cur + [s[0]])[i]) {
            if i < |cur| { assert (cur + [s[0]])[i] == cur[i]; }
          }
        }
        WordsFromAreWords(s[1..], cur + [s[0]]);
      }
    }
  }

  /** Words separated by single spaces split back into those words. */
  lemma WordsJoin(ws: seq<string>)
    requires AllWords(ws)
    ensures Words(Join(ws, " ")) == ws
  {
    if |ws| > 0 {
      WordsFromJoin(ws, "");
      assert "" + ws[0] == ws[0];
      assert [ws[0]] + ws[1..] == ws;
    }
  }

  lemma {:induction false} WordsFromJoin(ws: seq<string>, cur: string)
    requires |ws| > 0 && AllWords(ws)
    ensures WordsFrom(Join(ws, " "), cur) == [cur + ws[0]] + ws[1..]
    decreases |ws|
  {
    WordsFromWord(ws[0], if |ws| == 1 then "" else " " + Join(ws[1..], " "), cur);
    if |ws| == 1 {
      assert ws[0] + "" == ws[0];
    } else {
      var rest := Join(ws[1..], " ");
      assert Join(ws, " ") == ws[0] + (" " + rest);
      assert (" " + rest)[1..] == rest;
      assert AllWords(ws[1..]) by {
        forall i | 0 <= i < |ws[1..]| ensures ws[1..][i] != "" && NoSpace(ws[1..][i]) {
          assert ws[1..][i] == ws[i + 1];
        }
      }
      WordsFromJoin(ws[1..], "");
      assert "" + ws[1] == ws[1];
      assert [ws[1]] + ws[1..][1..] == ws[1..];
    }
  }

  /** Reading a whitespace-free stretch only extends the current word. */
  lemma {:induction false} WordsFromWord(w: string, rest: string, cur: string)
    requires NoSpace(w)
    ensures WordsFrom(w + rest, cur) == WordsFrom(rest, cur + w)
    decreases |w|
  {
    if |w| == 0 {
      assert w + rest == rest && cur + w == cur;
    } else {
      assert (w + rest)[0] == w[0] && (w + rest)[1..] == w[1..] + rest;
      assert NoSpace(w[1..]) by {
        forall i | 0 <= i < |w[1..]| ensures !IsSpace(w[1..][i]) {
          assert w[1..][i] == w[i + 1];
        }
      }
      WordsFromWord(w[1..], rest, cur + [w[0]]);
      assert cur + [w[0]] + w[1..] == cur + w;
    }
  }

  // ---------------------------------------------------------------------
  // decimal integers

  function DigitValue(c: char): nat
    requires IsDigit(c)
  {
    (c as int - '0' as int) as nat
  }

  function DigitChar(d: nat): (c: char)
    requires d < 10
    ensures IsDigit(c) && DigitValue(c) == d
  {
    ('0' as int + d) as char
  }

  /** The value of a string of decimal digits (read left to right). */
  function DigitsValue(s: string): nat
    requires AllDigits(s)
    decreases |s|
  {
    if |s| == 0 then 0 else DigitsValue(s[..|s| - 1]) * 10 + DigitValue(s[|s| - 1])
  }

  /** The shortest decimal spelling of a natural number (Python's `str`). */
  function NatToString(n: nat): (s: string)
    ensures |s| > 0 && AllDigits(s)
    decreases n
  {
    if n < 10 then [DigitChar(n)] else NatToString(n / 10) + [DigitChar(n % 10)]
  }

  /** `'%i' % n` and `str(n)` for an integer. */
  function IntToString(n: int): (s: string)
    ensures |s| > 0
  {
    if n < 0 then "-" + NatToString(-n) else NatToString(n)
  }

  /**
   * `int(s)` for base 10 in Python 2: surrounding whitespace, an optional
   * sign, whitespace again, then digits.
   */
  function ParseInt(s: string): Option<int>
  {
    var t := Strip(s);
    if |t| > 0 && (t[0] == '-' || t[0] == '+') then
      var body := Strip(t[1..]);
      if |body| > 0 && AllDigits(body) then
        var v: int := DigitsValue(body);
        Some(if t[0] == '-' then -v else v)
      else None
    else if |t| > 0 && AllDigits(t) then
      (assert AllDigits(t[0..]); Some(DigitsValue(t)))
    else None
  }

  lemma {:induction false} NatToStringValue(n: nat)
    ensures DigitsValue(NatToString(n)) == n
    decreases n
  {
    if n >= 10 {
      NatToStringValue(n / 10);
      var s := NatToString(n);
      assert s[..|s| - 1] == NatToString(n / 10);
    }
  }

  /** A string that starts and ends with a non-space character is its own strip. */
  lemma StripNoSpace(s: string)
    requires |s| > 0 && !IsSpace(s[0]) && !IsSpace(s[|s| - 1])
    ensures Strip(s) == s
  {
  }

  /** `int('%i' % n) == n`: formatting an integer and parsing it back is the identity. */
  lemma {:induction false} ParseIntToString(n: int)
    ensures ParseInt(IntToString(n)) == Some(n)
  {
    var s := IntToString(n);
    var m: nat := if n < 0 then -n else n;
    var digits := NatToString(m);
    NatToStringValue(m);
    assert !IsSpace(digits[|digits| - 1]);
    if n < 0 {
      assert s == "-" + digits;
      assert s[|s| - 1] == digits[|digits| - 1];
      StripNoSpace(s);
      assert s[1..] == digits;
      StripNoSpace(digits);
    } else {
      assert s == digits;
      assert !IsSpace(s[0]) && s[0] != '-' && s[0] != '+';
      StripNoSpace(s);
    }
  }

  /** Python 2's `int` also skips blanks between the sign and the digits: `int('- 5') == -5`. */
  lemma ParseIntBlankAfterSign(digits: string)
    requires |digits| > 0 && AllDigits(digits)
    ensures ParseInt("- " + digits) == Some(-(DigitsValue(digits) as int))
  {
    var s := "- " + digits;
    assert s[0] == '-' && IsDigit(s[|s| - 1]);
    StripNoSpace(s);
    var blank := s[1..];
    assert IsSpace(blank[0]) && blank[1..] == digits;
    assert !IsSpace(digits[0]) && !IsSpace(digits[|digits| - 1]);
    assert LStrip(digits) == digits;
    assert LStrip(blank) == digits;
    assert RStrip(digits) == digits;
    assert Strip(s) == s && Strip(s[1..]) == digits;
    NegativeParse(s, digits);
  }

  /** Unfolding `ParseInt` on a stripped, negative literal. */
  lemma NegativeParse(s: string, digits: string)
    requires Strip(s) == s && |s| > 0 && s[0] == '-' && Strip(s[1..]) == digits
    requires |digits| > 0 && AllDigits(digits)
    ensures ParseInt(s) == Some(-(DigitsValue(digits) as int))
  {
    var t := Strip(s);
    assert t[0] == '-' && Strip(t[1..]) == digits;
  }

  // ---------------------------------------------------------------------
  // ordering (Python 2 compares byte strings lexicographically)

  predicate Lt(a: string, b: string)
    decreases |a|
  {
    if |a| == 0 then |b| > 0
    else if |b| == 0 then false
    else if a[0] < b[0] then true
    else if a[0] == b[0] then Lt(a[1..], b[1..])
    else false
  }

  lemma {:induction false} LtIrreflexive(a: string)
    ensures !Lt(a, a)
    decreases |a|
  {
    if |a| > 0 { LtIrreflexive(a[1..]); }
  }

  lemma {:induction false} LtTransitive(a: string, b: string, c: string)
    requires Lt(a, b) && Lt(b, c)
    ensures Lt(a, c)
    decreases |a|
  {
    if |a| > 0 && |b| > 0 && |c| > 0 && a[0] == b[0] && b[0] == c[0] {
      LtTransitive(a[1..], b[1..], c[1..]);
    }
  }

  lemma {:induction false} LtTotal(a: string, b: string)
    requires a != b
    ensures Lt(a, b) || Lt(b, a)
    decreases |a|
  {
    if |a| > 0 && |b| > 0 && a[0] == b[0] {
      assert a == [a[0]] + a[1..] && b == [b[0]] + b[1..];
      LtTotal(a[1..], b[1..]);
    }
  }

  /** Strictly ascending, hence free of duplicates. */
  predicate SortedStrict(xs: seq<string>) {
    forall i, j :: 0 <= i < j < |xs| ==> Lt(xs[i], xs[j])
  }

  function Elems(xs: seq<string>): set<string> {
    set x | x in xs
  }

  /** Insert `x` into an ascending sequence, keeping it ascending. */
  function InsertSorted(xs: seq<string>, x: string): (r: seq<string>)
    requires SortedStrict(xs)
    ensures SortedStrict(r)
    ensures Elems(r) == Elems(xs) + {x}
    decreases |xs|
  {
    if |xs| == 0 then [x]
    else if xs[0] == x then xs
    else if Lt(x, xs[0]) then
      InsertBefore(xs, x);
      [x] + xs
    else
      LtTotal(x, xs[0]);
      var rest := InsertSorted(xs[1..], x);
      InsertAfterHead(xs, x, rest);
      [xs[0]] + rest
  }

  lemma InsertBefore(xs: seq<string>, x: string)
    requires SortedStrict(xs) && |xs| > 0 && Lt(x, xs[0])
    ensures SortedStrict([x] + xs)
    ensures Elems([x] + xs) == Elems(xs) + {x}
  {
    var r := [x] + xs;
    forall i, j | 0 <= i < j < |r| ensures Lt(r[i], r[j]) {
      if i == 0 && j > 1 { LtTransitive(x, xs[0], xs[j - 1]); }
    }
  }

  lemma InsertAfterHead(xs: seq<string>, x: string, rest: seq<string>)
    requires SortedStrict(xs) && |xs| > 0 && Lt(xs[0], x)
    requires SortedStrict(rest)
    requires Elems(rest) == Elems(xs[1..]) + {x}
    ensures SortedStrict([xs[0]] + rest)
    ensures Elems([xs[0]] + rest) == Elems(xs) + {x}
  {
    var r := [xs[0]] + rest;
    forall i, j | 0 <= i < j < |r| ensures Lt(r[i], r[j]) {
      if i == 0 {
        var y := rest[j - 1];
        assert y in Elems(rest);
        if y != x {
          var k :| 0 <= k < |xs[1..]| && xs[1..][k] == y;
          assert xs[k + 1] == y;
        }
      }
    }
    assert xs == [xs[0]] + xs[1..];
    assert Elems(xs) == {xs[0]} + Elems(xs[1..]);
    assert Elems(r) == {xs[0]} + Elems(rest);
  }

  /** Two ascending sequences holding the same strings are the same sequence. */
  lemma {:induction false} SortedUnique(a: seq<string>, b: seq<string>)
    requires SortedStrict(a) && SortedStrict(b) && Elems(a) == Elems(b)
    ensures a == b
    decreases |a|
  {
    assert |a| > 0 ==> a[0] in Elems(a);
    assert |b| > 0 ==> b[0] in Elems(b);
    if |a| > 0 {
      if a[0] != b[0] {
        assert b[0] in Elems(a);
        var i :| 0 <= i < |b| && b[i] == a[0];
        var j :| 0 <= j < |a| && a[j] == b[0];
        assert Lt(b[0], a[0]) && Lt(a[0], b[0]);
        LtTransitive(a[0], b[0], a[0]);
        LtIrreflexive(a[0]);
      }
      HeadOutOfTail(a);
      HeadOutOfTail(b);
      SortedUnique(a[1..], b[1..]);
    }
  }

  /** The elements after the head of an ascending sequence are the others. */
  lemma HeadOutOfTail(xs: seq<string>)
    requires SortedStrict(xs) && |xs| > 0
    ensures SortedStrict(xs[1..])
    ensures Elems(xs[1..]) == Elems(xs) - {xs[0]}
  {
    assert xs == [xs[0]] + xs[1..];
    forall i | 1 <= i < |xs| ensures xs[i] != xs[0] {
      LtIrreflexive(xs[0]);
    }
  }

  // ---------------------------------------------------------------------
  // case

  /** `str.lower` on one character: ASCII letters only, as for a byte string. */
  function LowerChar(c: char): (d: char)
    ensures IsUpper(c) ==> d as int == c as int + 32
    ensures !IsUpper(c) ==> d == c
  {
    if IsUpper(c) then (c as int + 32) as char else c
  }

  predicate IsUpper(c: char) {
    'A' <= c <= 'Z'
  }

  /** `str.lower`. */
  function Lower(s: string): (r: string)
    ensures |r| == |s| && forall i :: 0 <= i < |s| ==> r[i] == LowerChar(s[i])
  {
    seq(|s|, i requires 0 <= i < |s| => LowerChar(s[i]))
  }

  /** Lowering is idempotent, so a lowered string has no capital left. */
  lemma LowerIdempotent(s: string)
    ensures Lower(Lower(s)) == Lower(s)
    ensures forall i :: 0 <= i < |s| ==> !IsUpper(Lower(s)[i])
  {
  }
}
