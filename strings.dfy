/** Text operations shared by both halves of the system.

    `Split` is the single-character split of Guava's `Splitter.on(c)` and of
    Python's `str.split(c)`: it keeps empty fields, and an input with n
    separators yields n + 1 fields.  `Join` is Python's `c.join(parts)`. */
module Strings {

  /** The fields of `s` between occurrences of `sep`. */
  function Split(s: string, sep: char): (parts: seq<string>)
    ensures |parts| >= 1
    ensures forall i :: 0 <= i < |parts| ==> sep !in parts[i]
    decreases |s|
  {
    if |s| == 0 then [""]
    else
      var rest := Split(s[1..], sep);
      if s[0] == sep then [""] + rest
      else [[s[0]] + rest[0]] + rest[1..]
  }

  /** The fields joined back together, `sep` between each two. */
  function Join(parts: seq<string>, sep: char): string {
    if |parts| == 0 then ""
    else if |parts| == 1 then parts[0]
    else parts[0] + [sep] + Join(parts[1..], sep)
  }

  /** The parts with the text `sep` between each two (Java's `String.join`,
      Python's `sep.join(parts)`). */
  function JoinWith(parts: seq<string>, sep: string): string {
    if |parts| == 0 then ""
    else if |parts| == 1 then parts[0]
    else parts[0] + sep + JoinWith(parts[1..], sep)
  }

  /** Java's `List.toString` of a list of strings: `[a, b]`. */
  function JavaList(items: seq<string>): string {
    "[" + JoinWith(items, ", ") + "]"
  }

  /** Python's `repr` of a string without quotes or backslashes. */
  function PyRepr(s: string): string {
    "'" + s + "'"
  }

  function PyReprs(items: seq<string>): (r: seq<string>)
    ensures |r| == |items| && forall i :: 0 <= i < |items| ==> r[i] == PyRepr(items[i])
  {
    if |items| == 0 then [] else [PyRepr(items[0])] + PyReprs(items[1..])
  }

  /** Python's `str` of a list of plain strings: `['a', 'b']`. */
  function PyList(items: seq<string>): string {
    "[" + JoinWith(PyReprs(items), ", ") + "]"
  }

  /** The number of occurrences of `c` in `s`. */
  function Count(s: string, c: char): nat {
    if |s| == 0 then 0 else (if s[0] == c then 1 else 0) + Count(s[1..], c)
  }

  predicate StartsWith(s: string, prefix: string) {
    |prefix| <= |s| && s[..|prefix|] == prefix
  }

  predicate EndsWith(s: string, suffix: string) {
    |suffix| <= |s| && s[|s| - |suffix|..] == suffix
  }

  /** Python's `s[:n]`: the first `n` characters, or all of a shorter `s`. */
  function Take(s: string, n: nat): (r: string)
    ensures |r| <= n && |r| <= |s|
    ensures r == s[..|r|]
    ensures |s| <= n ==> r == s
  {
    if |s| <= n then s else s[..n]
  }

  /** Python's `s.lstrip(c)` for a single character. */
  function LStrip(s: string, c: char): (r: string)
    ensures |r| <= |s| && r == s[|s| - |r|..]
    ensures |r| > 0 ==> r[0] != c
    ensures forall i :: 0 <= i < |s| - |r| ==> s[i] == c
  {
    if |s| > 0 && s[0] == c then LStrip(s[1..], c) else s
  }

  /** Python's `s.replace(c, replacement)` for a single character `c`. */
  function ReplaceChar(s: string, c: char, replacement: string): (r: string)
    ensures c !in replacement ==> c !in r
  {
    if |s| == 0 then ""
    else (if s[0] == c then replacement else [s[0]]) + ReplaceChar(s[1..], c, replacement)
  }

  predicate IsDigit(c: char) { '0' <= c <= '9' }

  predicate AllDigits(s: string) { forall i :: 0 <= i < |s| ==> IsDigit(s[i]) }

  function DigitChar(d: nat): char
    requires d < 10
  {
    "0123456789"[d]
  }

  /** Decimal rendering of a natural number, as Java's `%s`/`%d` and Python's `str`. */
  function NatToString(n: nat): (s: string)
    ensures |s| >= 1 && AllDigits(s)
    decreases n
  {
    if n < 10 then [DigitChar(n)] else NatToString(n / 10) + [DigitChar(n % 10)]
  }

  function IntToString(i: int): string {
    if i < 0 then "-" + NatToString(-i) else NatToString(i)
  }

  /** The value of a string of decimal digits. */
  function DigitsValue(s: string): nat
    requires AllDigits(s)
    decreases |s|
  {
    if |s| == 0 then 0
    else DigitsValue(s[..|s| - 1]) * 10 + (s[|s| - 1] as int - '0' as int)
  }

  // ---------------------------------------------------------------------------
  // Split and Join

  lemma {:induction false} SplitOfFree(p: string, sep: char)
    requires sep !in p
    ensures Split(p, sep) == [p]
    decreases |p|
  {
    if |p| > 0 {
      assert sep !in p[1..] by {
        forall i | 0 <= i < |p| - 1 ensures p[1..][i] != sep { assert p[1..][i] == p[i + 1]; }
      }
      SplitOfFree(p[1..], sep);
      assert [p[0]] + p[1..] == p;
    }
  }

  /** A separator between two texts separates their fields. */
  lemma {:induction false} SplitAppend(a: string, sep: char, b: string)
    ensures Split(a + [sep] + b, sep) == Split(a, sep) + Split(b, sep)
    decreases |a|
  {
    var s := a + [sep] + b;
    if |a| == 0 {
      assert s[0] == sep && s[1..] == b;
    } else {
      assert s[0] == a[0];
      assert s[1..] == a[1..] + [sep] + b;
      SplitAppend(a[1..], sep, b);
    }
  }

  /** n separators yield n + 1 fields. */
  lemma {:induction false} SplitLength(s: string, sep: char)
    ensures |Split(s, sep)| == Count(s, sep) + 1
    decreases |s|
  {
    if |s| > 0 { SplitLength(s[1..], sep); }
  }

  lemma JoinCons(p: string, rest: seq<string>, sep: char)
    requires |rest| >= 1
    ensures Join([p] + rest, sep) == p + [sep] + Join(rest, sep)
  {
    assert ([p] + rest)[1..] == rest;
  }

  /** Joining the fields of a text gives the text back. */
  lemma {:induction false} JoinSplit(s: string, sep: char)
    ensures Join(Split(s, sep), sep) == s
    decreases |s|
  {
    if |s| > 0 {
      var rest := Split(s[1..], sep);
      JoinSplit(s[1..], sep);
      if s[0] == sep {
        JoinCons("", rest, sep);
        assert s == [sep] + s[1..];
      } else {
        var parts := [[s[0]] + rest[0]] + rest[1..];
        if |rest| == 1 {
          assert Join(rest, sep) == rest[0];
        } else {
          JoinCons(rest[0], rest[1..], sep);
          JoinCons([s[0]] + rest[0], rest[1..], sep);
          assert [rest[0]] + rest[1..] == rest;
        }
        assert s == [s[0]] + s[1..];
      }
    }
  }

  /** Splitting a join of separator-free fields gives the fields back. */
  lemma {:induction false} SplitJoin(parts: seq<string>, sep: char)
    requires |parts| >= 1
    requires forall i :: 0 <= i < |parts| ==> sep !in parts[i]
    ensures Split(Join(parts, sep), sep) == parts
    decreases |parts|
  {
    if |parts| == 1 {
      SplitOfFree(parts[0], sep);
    } else {
      JoinCons(parts[0], parts[1..], sep);
      assert [parts[0]] + parts[1..] == parts;
      SplitAppend(parts[0], sep, Join(parts[1..], sep));
      SplitOfFree(parts[0], sep);
      SplitJoin(parts[1..], sep);
    }
  }

  /** Joining a list in two pieces. */
  lemma {:induction false} JoinAppend(a: seq<string>, b: seq<string>, sep: char)
    requires |a| >= 1 && |b| >= 1
    ensures Join(a + b, sep) == Join(a, sep) + [sep] + Join(b, sep)
    decreases |a|
  {
    if |a| == 1 {
      JoinCons(a[0], b, sep);
      assert [a[0]] + b == a + b;
    } else {
      JoinCons(a[0], a[1..] + b, sep);
      assert [a[0]] + (a[1..] + b) == a + b;
      JoinAppend(a[1..], b, sep);
      JoinCons(a[0], a[1..], sep);
      assert [a[0]] + a[1..] == a;
    }
  }

  // ---------------------------------------------------------------------------
  // Numbers

  /** Decimal rendering and reading are inverse. */
  lemma {:induction false} DigitsValueOfNatToString(n: nat)
    ensures DigitsValue(NatToString(n)) == n
    decreases n
  {
    var s := NatToString(n);
    if n < 10 {
      assert s == [DigitChar(n)];
      assert s[..0] == "";
    } else {
      DigitsValueOfNatToString(n / 10);
      assert s[..|s| - 1] == NatToString(n / 10);
    }
  }

  /** Decimal rendering is injective. */
  lemma NatToStringInjective(m: nat, n: nat)
    requires NatToString(m) == NatToString(n)
    ensures m == n
  {
    DigitsValueOfNatToString(m);
    DigitsValueOfNatToString(n);
  }

  // ---------------------------------------------------------------------------
  // Concatenation

  /** A fixed suffix can be cancelled: `x + t == y + t` only when `x == y`. */
  lemma SuffixCancel(x: string, y: string, t: string)
    requires x + t == y + t
    ensures x == y
  {
    assert |x| == |y|;
    assert x == (x + t)[..|x|];
    assert y == (y + t)[..|y|];
  }

  /** A fixed prefix can be cancelled. */
  lemma PrefixCancel(t: string, x: string, y: string)
    requires t + x == t + y
    ensures x == y
  {
    assert x == (t + x)[|t|..];
    assert y == (t + y)[|t|..];
  }

  lemma CountAppend(a: string, b: string, c: char)
    ensures Count(a + b, c) == Count(a, c) + Count(b, c)
  {
    if |a| > 0 {
      assert (a + b)[1..] == a[1..] + b;
      CountAppend(a[1..], b, c);
    } else {
      assert a + b == b;
    }
  }

  lemma CountFree(s: string, c: char)
    requires c !in s
    ensures Count(s, c) == 0
  {
    if |s| > 0 {
      assert c !in s[1..] by {
        forall i | 0 <= i < |s| - 1 ensures s[1..][i] != c { assert s[1..][i] == s[i + 1]; }
      }
      CountFree(s[1..], c);
    }
  }
}
