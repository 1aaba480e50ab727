/**
 * The parts of Python's `str` that the bot relies on: whitespace stripping,
 * prefix tests, splitting on one separator character, `str(int)`, the `,`
 * thousands format and `int(str)` for decimal text.
 */
module Text {
  import opened Wrappers

  /** Python's `str.isspace` for one character: the characters `str.strip()` removes. */
  predicate IsSpace(c: char)
  {
    var u := c as int;
    || 0x09 <= u <= 0x0d || 0x1c <= u <= 0x20 || u == 0x85 || u == 0xa0 || u == 0x1680
    || 0x2000 <= u <= 0x200a || u == 0x2028 || u == 0x2029 || u == 0x202f || u == 0x205f || u == 0x3000
  }

  /** `s.lstrip()`: `s` without its leading whitespace. */
  function LStrip(s: string): (r: string)
  {
    if s != [] && IsSpace(s[0]) then LStrip(s[1..]) else s
  }

  /** `s.rstrip()`: `s` without its trailing whitespace. */
  function RStrip(s: string): (r: string)
  {
    if s != [] && IsSpace(s[|s| - 1]) then RStrip(s[..|s| - 1]) else s
  }

  /** `s.strip()`. */
  function Strip(s: string): (r: string)
  {
    RStrip(LStrip(s))
  }

  /** `lstrip()` removes a prefix of whitespace and stops at the first other character. */
  lemma {:induction false} LStripFacts(s: string)
    ensures |LStrip(s)| <= |s| && LStrip(s) == s[|s| - |LStrip(s)|..]
    ensures LStrip(s) == [] || !IsSpace(LStrip(s)[0])
    ensures forall i :: 0 <= i < |s| - |LStrip(s)| ==> IsSpace(s[i])
  {
    if s != [] && IsSpace(s[0]) {
      LStripFacts(s[1..]);
      forall i | 1 <= i < |s| - |LStrip(s)|
        ensures IsSpace(s[i])
      {
        assert s[i] == s[1..][i - 1];
      }
    }
  }

  /** `rstrip()` removes a suffix of whitespace and stops at the last other character. */
  lemma {:induction false} RStripFacts(s: string)
    ensures |RStrip(s)| <= |s| && RStrip(s) == s[..|RStrip(s)|]
    ensures RStrip(s) == [] || !IsSpace(RStrip(s)[|RStrip(s)| - 1])
    ensures forall i :: |RStrip(s)| <= i < |s| ==> IsSpace(s[i])
  {
    if s != [] && IsSpace(s[|s| - 1]) {
      RStripFacts(s[..|s| - 1]);
      forall i | |RStrip(s)| <= i < |s| - 1
        ensures IsSpace(s[i])
      {
        assert s[i] == s[..|s| - 1][i];
      }
    }
  }

  /** A text that `strip()` leaves as it is: it neither starts nor ends with whitespace. */
  predicate Clean(s: string)
  {
    s == [] || (!IsSpace(s[0]) && !IsSpace(s[|s| - 1]))
  }

  /** `strip()` removes exactly the surrounding whitespace: the result is clean, and a clean text is its own strip. */
  lemma StripClean(s: string)
    ensures Clean(Strip(s))
    ensures Clean(s) ==> Strip(s) == s
  {
    if s != [] && Clean(s) {
      assert LStrip(s) == s;
      assert RStrip(s) == s;
    }
    StripIsClean(s);
  }

  lemma StripIsClean(s: string)
    ensures Clean(Strip(s))
  {
    var l := LStrip(s);
    LStripFacts(s);
    RStripFacts(l);
    if l != [] {
      assert !IsSpace(l[0]);
      var r := RStrip(l);
      if r != [] {
        assert r[0] == l[0];
      }
    }
  }

  /** Stripping a text whose left end is clean only strips its right end. */
  lemma {:induction false} StripCleanStart(p: string, s: string)
    requires p != [] && !IsSpace(p[0])
    ensures Strip(p + s) == RStrip(p + s)
  {
    assert LStrip(p + s) == p + s;
  }

  /** Trailing whitespace after a text that ends cleanly is exactly what `rstrip()` removes. */
  lemma {:induction false} RStripSpaces(p: string, w: string)
    requires p == [] || !IsSpace(p[|p| - 1])
    requires forall i :: 0 <= i < |w| ==> IsSpace(w[i])
    ensures RStrip(p + w) == p
    decreases |w|
  {
    if w != [] {
      var w' := w[..|w| - 1];
      assert (p + w)[..|p + w| - 1] == p + w';
      RStripSpaces(p, w');
    } else {
      assert p + w == p;
    }
  }

  /** `c * n` for a one-character string: `n` copies of `c`. */
  function Repeat(c: char, n: nat): (r: string)
    ensures |r| == n && forall i :: 0 <= i < n ==> r[i] == c
  {
    if n == 0 then "" else [c] + Repeat(c, n - 1)
  }

  /** `s.startswith(p)`. */
  predicate StartsWith(s: string, p: string)
  {
    |p| <= |s| && s[..|p|] == p
  }

  /** `p in s` for strings: `p` occurs in `s` as a contiguous piece. */
  predicate Contains(s: string, p: string)
    decreases |s|
  {
    StartsWith(s, p) || (s != [] && Contains(s[1..], p))
  }

  /**
   * `s.split(sep)` for a one-character separator: the pieces between
   * separators, empty pieces included, so there is always one more piece
   * than separators.
   */
  function Split(s: string, sep: char): (r: seq<string>)
    ensures |r| >= 1
    decreases |s|
  {
    if s == [] then [""]
    else
      var rest := Split(s[1..], sep);
      if s[0] == sep then [""] + rest
      else [[s[0]] + rest[0]] + rest[1..]
  }

  /** `sep.join(pieces)`. */
  function Join(pieces: seq<string>, sep: char): string
  {
    if |pieces| <= 1 then (if pieces == [] then "" else pieces[0])
    else pieces[0] + [sep] + Join(pieces[1..], sep)
  }

  /** Splitting and joining again gives back the text. */
  lemma {:induction false} JoinSplit(s: string, sep: char)
    ensures Join(Split(s, sep), sep) == s
    decreases |s|
  {
    if s != [] {
      var rest := Split(s[1..], sep);
      var r := Split(s, sep);
      JoinSplit(s[1..], sep);
      if s[0] == sep {
        assert r == [""] + rest;
        assert r[1..] == rest;
        calc {
          Join(r, sep);
          r[0] + [sep] + Join(r[1..], sep);
          [sep] + s[1..];
          s;
        }
      } else if |rest| == 1 {
        assert r == [[s[0]] + rest[0]];
        calc {
          Join(r, sep);
          [s[0]] + rest[0];
          [s[0]] + s[1..];
          s;
        }
      } else {
        assert r == [[s[0]] + rest[0]] + rest[1..];
        assert r[1..] == rest[1..];
        calc {
          Join(r, sep);
          r[0] + [sep] + Join(r[1..], sep);
          ([s[0]] + rest[0]) + [sep] + Join(rest[1..], sep);
          [s[0]] + (rest[0] + [sep] + Join(rest[1..], sep));
          [s[0]] + Join(rest, sep);
          s;
        }
      }
    }
  }

  /** A text with no separator in it is one piece. */
  lemma {:induction false} SplitNoSep(s: string, sep: char)
    requires sep !in s
    ensures Split(s, sep) == [s]
    decreases |s|
  {
    if s != [] {
      assert sep !in s[1..];
      SplitNoSep(s[1..], sep);
      assert [s[0]] + s[1..] == s;
    }
  }

  /** A separator-free piece followed by a separator splits off as the first piece. */
  lemma {:induction false} SplitFirst(a: string, sep: char, b: string)
    requires sep !in a
    ensures Split(a + [sep] + b, sep) == [a] + Split(b, sep)
    decreases |a|
  {
    var s := a + [sep] + b;
    if a == [] {
      assert s == [sep] + b;
      assert s[1..] == b;
    } else {
      assert s[1..] == a[1..] + [sep] + b;
      SplitFirst(a[1..], sep, b);
      assert [a[0]] + a[1..] == a;
    }
  }

  /** The decimal digit of `d`. */
  function Digit(d: nat): (c: char)
    requires d < 10
    ensures '0' <= c <= '9'
  {
    ('0' as int + d) as char
  }

  /** The value of a decimal digit character. */
  function DigitValue(c: char): (d: nat)
    requires IsDigit(c)
    ensures d < 10
  {
    c as int - '0' as int
  }

  predicate IsDigit(c: char)
  {
    '0' <= c <= '9'
  }

  /** `str(n)` for a natural number: its decimal digits, without leading zeros. */
  function NatToString(n: nat): (r: string)
    ensures |r| >= 1 && forall i :: 0 <= i < |r| ==> IsDigit(r[i])
    ensures |r| > 1 ==> r[0] != '0'
  {
    if n < 10 then [Digit(n)] else NatToString(n / 10) + [Digit(n % 10)]
  }

  /** `str(i)`: a minus sign for a negative number, then the digits of its magnitude. */
  function IntToString(i: int): string
  {
    if i < 0 then "-" + NatToString(-i) else NatToString(i)
  }

  /** Exactly three digits: `n` padded with leading zeros. */
  function Pad3(n: nat): (r: string)
    requires n < 1000
    ensures |r| == 3
  {
    [Digit(n / 100), Digit(n % 100 / 10), Digit(n % 100 % 10)]
  }

  /** `f"{n:,}"` for a natural number: its digits with a comma before each group of three. */
  function GroupedNat(n: nat): string
  {
    if n < 1000 then NatToString(n) else GroupedNat(n / 1000) + "," + Pad3(n % 1000)
  }

  /** `f"{i:,}"`. */
  function Grouped(i: int): string
  {
    if i < 0 then "-" + GroupedNat(-i) else GroupedNat(i)
  }

  /** `s` without its commas. */
  function DropCommas(s: string): (r: string)
  {
    if s == [] then [] else (if s[0] == ',' then [] else [s[0]]) + DropCommas(s[1..])
  }

  lemma {:induction false} DropCommasAppend(a: string, b: string)
    ensures DropCommas(a + b) == DropCommas(a) + DropCommas(b)
    decreases |a|
  {
    if a != [] {
      assert (a + b)[1..] == a[1..] + b;
      DropCommasAppend(a[1..], b);
    } else {
      assert a + b == b;
    }
  }

  lemma {:induction false} DropCommasDigits(s: string)
    requires forall i :: 0 <= i < |s| ==> IsDigit(s[i])
    ensures DropCommas(s) == s
    decreases |s|
  {
    if s != [] {
      DropCommasDigits(s[1..]);
    }
  }

  /** Dividing `10 * q + r` by ten. */
  lemma DivTen(q: nat, r: nat)
    requires r < 10
    ensures (10 * q + r) / 10 == q && (10 * q + r) % 10 == r
  {
  }

  /** The digits of `10 * q + r`, for `q` at least one: those of `q`, then `r`. */
  lemma NatToStringDigit(q: nat, r: nat)
    requires q >= 1 && r < 10
    ensures NatToString(10 * q + r) == NatToString(q) + [Digit(r)]
  {
    DivTen(q, r);
  }

  /** The three digits `Pad3` writes for `m`, as a sum of their place values. */
  lemma Pad3Places(m: nat)
    requires m < 1000
    ensures m / 100 < 10 && m % 100 / 10 < 10 && m % 100 % 10 < 10
    ensures m == 100 * (m / 100) + 10 * (m % 100 / 10) + m % 100 % 10
  {
    var t := m % 100;
    assert m == 100 * (m / 100) + t;
    assert t == 10 * (t / 10) + t % 10;
  }

  /** Three digits after the digits of `n` spell `1000 * n + m`. */
  lemma NatToStringShift(n: nat, m: nat)
    requires n >= 1 && m < 1000
    ensures NatToString(1000 * n + m) == NatToString(n) + Pad3(m)
  {
    var a, b, c := m / 100, m % 100 / 10, m % 100 % 10;
    Pad3Places(m);
    NatToStringThree(n, a, b, c);
  }

  /** The digits of `n` followed by the digits `a`, `b` and `c`. */
  lemma NatToStringThree(n: nat, a: nat, b: nat, c: nat)
    requires n >= 1 && a < 10 && b < 10 && c < 10
    ensures NatToString(1000 * n + 100 * a + 10 * b + c) == NatToString(n) + [Digit(a), Digit(b), Digit(c)]
  {
    var k2 := 10 * n + a;
    var k1 := 10 * k2 + b;
    assert 1000 * n + 100 * a + 10 * b + c == 10 * k1 + c;
    var s, s2, s1 := NatToString(n), NatToString(k2), NatToString(k1);
    NatToStringDigit(n, a);
    NatToStringDigit(k2, b);
    NatToStringDigit(k1, c);
    assert s2 == s + [Digit(a)];
    assert s1 == s2 + [Digit(b)];
    assert NatToString(10 * k1 + c) == s1 + [Digit(c)];
    AppendDigits(s, Digit(a), Digit(b), Digit(c));
  }

  /** Three characters appended one at a time. */
  lemma AppendDigits(s: string, a: char, b: char, c: char)
    ensures s + [a] + [b] + [c] == s + [a, b, c]
  {
  }

  /** Splitting `n` into thousands and the rest. */
  lemma Thousands(n: nat)
    requires n >= 1000
    ensures n / 1000 >= 1 && n % 1000 < 1000 && 1000 * (n / 1000) + n % 1000 == n
  {
  }

  /** Dropping the commas of a group, a comma, and three digits. */
  lemma DropCommasComma(p: string)
    ensures DropCommas([','] + p) == DropCommas(p)
  {
    assert ([','] + p)[0] == ',' && ([','] + p)[1..] == p;
  }

  lemma DropCommasGroup(g: string, p: string)
    requires forall i :: 0 <= i < |p| ==> IsDigit(p[i])
    ensures DropCommas(g + ("," + p)) == DropCommas(g) + p
  {
    var cp := "," + p;
    DropCommasAppend(g, cp);
    assert cp == [','] + p;
    DropCommasComma(p);
    DropCommasDigits(p);
    assert DropCommas(cp) == p;
  }

  /** The `,` format only inserts commas: without them it is `str(n)`. */
  lemma {:induction false} GroupedDigits(n: nat)
    ensures DropCommas(GroupedNat(n)) == NatToString(n)
  {
    if n < 1000 {
      DropCommasDigits(NatToString(n));
    } else {
      var q, r := n / 1000, n % 1000;
      Thousands(n);
      var g, p := GroupedNat(q), Pad3(r);
      GroupedDigits(q);
      assert GroupedNat(n) == g + ("," + p);
      DropCommasGroup(g, p);
      NatToStringShift(q, r);
    }
  }

  /**
   * The digit part of a Python integer literal: digits, with single
   * underscores allowed between two digits.
   */
  predicate DigitRun(s: string)
  {
    && s != [] && IsDigit(s[0]) && IsDigit(s[|s| - 1])
    && (forall i :: 0 <= i < |s| ==> IsDigit(s[i]) || s[i] == '_')
    && (forall i :: 0 <= i < |s| - 1 ==> s[i] != '_' || s[i + 1] != '_')
  }

  /** The number a digit run spells, underscores ignored. */
  function RunValue(s: string): nat
    requires forall i :: 0 <= i < |s| ==> IsDigit(s[i]) || s[i] == '_'
  {
    if s == [] then 0
    else if s[|s| - 1] == '_' then RunValue(s[..|s| - 1])
    else
      assert IsDigit(s[|s| - 1]);
      10 * RunValue(s[..|s| - 1]) + DigitValue(s[|s| - 1])
  }

  /**
   * `int(s)` for decimal text: surrounding whitespace is ignored, then an
   * optional sign and a digit run; anything else is a `ValueError` (`None`).
   */
  function ParseInt(s: string): (r: Option<int>)
  {
    var t := Strip(s);
    var negative := t != [] && t[0] == '-';
    var body := if t != [] && (t[0] == '-' || t[0] == '+') then t[1..] else t;
    if DigitRun(body) then
      var v: int := RunValue(body);
      Some(if negative then -v else v)
    else None
  }

  lemma {:induction false} RunValueNat(n: nat)
    ensures RunValue(NatToString(n)) == n
  {
    if n >= 10 {
      RunValueNat(n / 10);
      var s := NatToString(n);
      assert s[..|s| - 1] == NatToString(n / 10);
    }
  }

  /** Decimal digits form a digit run. */
  lemma DigitsAreRun(s: string)
    requires s != [] && forall i :: 0 <= i < |s| ==> IsDigit(s[i])
    ensures DigitRun(s)
  {
  }

  /** `str(i)` has no surrounding whitespace. */
  lemma IntToStringClean(i: int)
    ensures Strip(IntToString(i)) == IntToString(i)
  {
    var s := IntToString(i);
    assert !IsSpace(s[0]) && !IsSpace(s[|s| - 1]);
    StripClean(s);
  }

  /** `int(str(i)) == i`: the parser reads back what the printer writes. */
  lemma ParseIntToString(i: int)
    ensures ParseInt(IntToString(i)) == Some(i)
  {
    IntToStringClean(i);
    if i < 0 {
      ParseNegative(-i);
    } else {
      ParseNatural(i);
    }
  }

  /** A minus sign before `str(n)` parses as `-n`. */
  lemma ParseNegative(n: nat)
    requires Strip("-" + NatToString(n)) == "-" + NatToString(n)
    ensures ParseInt("-" + NatToString(n)) == Some(-(n as int))
  {
    var s, digits := "-" + NatToString(n), NatToString(n);
    assert s[0] == '-' && s[1..] == digits;
    RunValueNat(n);
    DigitsAreRun(digits);
  }

  /** `str(n)` parses as `n`. */
  lemma ParseNatural(n: nat)
    requires Strip(NatToString(n)) == NatToString(n)
    ensures ParseInt(NatToString(n)) == Some(n)
  {
    var s := NatToString(n);
    assert IsDigit(s[0]);
    RunValueNat(n);
    DigitsAreRun(s);
  }
}
