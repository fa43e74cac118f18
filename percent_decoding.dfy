/** `urllib.parse.unquote` with its defaults (UTF-8, errors replaced), which
    both `get_s3_location` and `parse_qs` apply. Inside each run of ASCII
    characters a `%XY` escape stands for the byte XY and every other
    character for its own code; the run's bytes are decoded as UTF-8, each
    maximal ill-formed part becoming U+FFFD; a character outside ASCII is
    kept and ends the run. */
module PercentDecoding {
  type Byte = b: nat | b < 256

  predicate IsHexDigit(c: char) { '0' <= c <= '9' || 'a' <= c <= 'f' || 'A' <= c <= 'F' }

  function HexValue(c: char): (v: nat)
    requires IsHexDigit(c)
    ensures v < 16
  {
    if '0' <= c <= '9' then c as nat - '0' as nat
    else if 'a' <= c <= 'f' then c as nat - 'a' as nat + 10
    else c as nat - 'A' as nat + 10
  }

  /** The upper-case hexadecimal digit `quote` writes. */
  function HexDigit(d: nat): (c: char)
    requires d < 16
    ensures IsHexDigit(c) && HexValue(c) == d
  {
    "0123456789ABCDEF"[d]
  }

  /** `%XY` for the byte XY. */
  function Escape(b: Byte): (e: string)
    ensures |e| == 3 && e[0] == '%'
  {
    ['%', HexDigit(b / 16), HexDigit(b % 16)]
  }

  const Replacement: char := '\U{FFFD}'

  /** What unquoting sees at one place: a byte of an ASCII run, or a
      character outside ASCII, which ends the run. */
  datatype Piece = Octet(b: Byte) | Wide(c: char)

  predicate IsEscape(s: string) {
    |s| >= 3 && s[0] == '%' && IsHexDigit(s[1]) && IsHexDigit(s[2])
  }

  /** `unquote_to_bytes` of each ASCII run, the other characters kept. */
  function Pieces(s: string): (p: seq<Piece>)
    ensures |p| <= |s|
    ensures |s| > 0 ==> |p| > 0
  {
    if |s| == 0 then []
    else if IsEscape(s) then [Octet(16 * HexValue(s[1]) + HexValue(s[2]))] + Pieces(s[3..])
    else if (s[0] as int) < 0x80 then [Octet(s[0] as int)] + Pieces(s[1..])
    else [Wide(s[0])] + Pieces(s[1..])
  }

  /** The length of the UTF-8 sequence a byte leads; 0 for a byte that
      cannot lead one. */
  function NeededBytes(lead: Byte): (n: nat)
    ensures n <= 4
  {
    if lead < 0x80 then 1
    else if 0xC2 <= lead <= 0xDF then 2
    else if 0xE0 <= lead <= 0xEF then 3
    else if 0xF0 <= lead <= 0xF4 then 4
    else 0
  }

  /** Whether `b` may be the `i`-th byte (from 1) after `lead`: the second
      byte's range rules out overlong forms, surrogates and code points
      beyond U+10FFFF. */
  predicate Continues(lead: Byte, i: nat, b: Byte) {
    if i == 1 && lead == 0xE0 then 0xA0 <= b <= 0xBF
    else if i == 1 && lead == 0xED then 0x80 <= b <= 0x9F
    else if i == 1 && lead == 0xF0 then 0x90 <= b <= 0xBF
    else if i == 1 && lead == 0xF4 then 0x80 <= b <= 0x8F
    else 0x80 <= b <= 0xBF
  }

  predicate Fits(p: seq<Piece>, i: nat)
    requires |p| > 0 && p[0].Octet?
  {
    i < |p| && p[i].Octet? && Continues(p[0].b, i, p[i].b)
  }

  /** How many pieces, the lead included and at most `n`, form the longest
      well-formed start of the sequence `p[0]` leads. */
  function Accepted(p: seq<Piece>, n: nat): (m: nat)
    requires |p| > 0 && p[0].Octet? && 1 <= n <= 4
    ensures 1 <= m <= n && m <= |p|
    ensures forall i :: 1 <= i < m ==> Fits(p, i)
    ensures m < n ==> !Fits(p, m)
  {
    if n >= 2 && Fits(p, 1) then
      if n >= 3 && Fits(p, 2) then
        if n == 4 && Fits(p, 3) then 4 else 3
      else 2
    else 1
  }

  /** The code point a complete sequence of `n` bytes encodes. */
  function Scalar(p: seq<Piece>, n: nat): char
    requires 2 <= n <= 4 && |p| >= n && p[0].Octet? && NeededBytes(p[0].b) == n
    requires forall i :: 1 <= i < n ==> Fits(p, i)
  {
    var b0 := p[0].b;
    assert Fits(p, 1);
    if n == 2 then ((b0 - 0xC0) * 0x40 + (p[1].b - 0x80)) as char
    else
      assert Fits(p, 2);
      if n == 3 then ((b0 - 0xE0) * 0x1000 + (p[1].b - 0x80) * 0x40 + (p[2].b - 0x80)) as char
      else
        assert Fits(p, 3);
        ((b0 - 0xF0) * 0x40000 + (p[1].b - 0x80) * 0x1000 + (p[2].b - 0x80) * 0x40 + (p[3].b - 0x80)) as char
  }

  /** `bytes.decode('utf-8', 'replace')` over the runs of pieces. */
  function Decode(p: seq<Piece>): (s: string)
    ensures |s| <= |p|
    ensures |p| > 0 ==> |s| > 0
    decreases |p|
  {
    if |p| == 0 then ""
    else
      match p[0]
      case Wide(c) => [c] + Decode(p[1..])
      case Octet(b) =>
        var n := NeededBytes(b);
        if n == 1 then [b as char] + Decode(p[1..])
        else if n == 0 then [Replacement] + Decode(p[1..])
        else
          var m := Accepted(p, n);
          if m == n then [Scalar(p, n)] + Decode(p[n..])
          else [Replacement] + Decode(p[m..])
  }

  /** `unquote(s)`: never longer than `s`, and empty only for the empty
      text. */
  function Unquote(s: string): (r: string)
    ensures |r| <= |s|
    ensures |s| > 0 ==> |r| > 0
  {
    Decode(Pieces(s))
  }

  // ---------------------------------------------------------------------------
  // Unquoting one character at a time

  lemma DecodeAscii(b: Byte, rest: seq<Piece>)
    requires b < 0x80
    ensures Decode([Octet(b)] + rest) == [b as char] + Decode(rest)
  {
    assert ([Octet(b)] + rest)[1..] == rest;
  }

  lemma DecodeWide(c: char, rest: seq<Piece>)
    ensures Decode([Wide(c)] + rest) == [c] + Decode(rest)
  {
    assert ([Wide(c)] + rest)[1..] == rest;
  }

  /** A character that does not start an escape stands for itself. */
  lemma UnquoteCons(s: string)
    requires |s| > 0 && s[0] != '%'
    ensures Unquote(s) == [s[0]] + Unquote(s[1..])
  {
    if (s[0] as int) < 0x80 {
      DecodeAscii(s[0] as int, Pieces(s[1..]));
    } else {
      DecodeWide(s[0], Pieces(s[1..]));
    }
  }

  lemma PiecesOfEscape(b: Byte, t: string)
    ensures Pieces(Escape(b) + t) == [Octet(b)] + Pieces(t)
  {
    var s := Escape(b) + t;
    assert IsEscape(s);
    assert 16 * HexValue(s[1]) + HexValue(s[2]) == b;
    assert s[3..] == t;
  }

  /** An escaped ASCII byte stands for its character. */
  lemma UnquoteEscapedAscii(b: Byte, t: string)
    requires b < 0x80
    ensures Unquote(Escape(b) + t) == [b as char] + Unquote(t)
  {
    PiecesOfEscape(b, t);
    DecodeAscii(b, Pieces(t));
  }

  /** Text without '%' is returned unchanged. */
  lemma {:induction false} UnquoteFree(s: string)
    requires '%' !in s
    ensures Unquote(s) == s
  {
    if |s| > 0 {
      assert '%' !in s[1..] by {
        forall i | 0 <= i < |s| - 1 ensures s[1..][i] != '%' { assert s[1..][i] == s[i + 1]; }
      }
      UnquoteFree(s[1..]);
      UnquoteCons(s);
      assert s == [s[0]] + s[1..];
    }
  }

  /** A byte that cannot lead a UTF-8 sequence becomes U+FFFD. */
  lemma UnquoteStrayByte(b: Byte, t: string)
    requires NeededBytes(b) == 0
    ensures Unquote(Escape(b) + t) == [Replacement] + Unquote(t)
  {
    PiecesOfEscape(b, t);
    assert ([Octet(b)] + Pieces(t))[1..] == Pieces(t);
  }

  /** A lead byte whose sequence is cut short by the end of the text becomes
      a single U+FFFD. */
  lemma UnquoteTruncated(b: Byte)
    requires NeededBytes(b) >= 2
    ensures Unquote(Escape(b)) == [Replacement]
  {
    PiecesOfEscape(b, "");
    assert Escape(b) + "" == Escape(b);
    var p := [Octet(b)];
    assert Accepted(p, NeededBytes(b)) == 1;
    assert p[1..] == [];
  }

  // ---------------------------------------------------------------------------
  // Percent-encoding the UTF-8 form, which unquoting reverses

  /** The UTF-8 bytes of one character. */
  function Utf8(c: char): (bytes: seq<Byte>)
    ensures 1 <= |bytes| <= 4
  {
    var x := c as int;
    if x < 0x80 then [x]
    else if x < 0x800 then [0xC0 + x / 0x40, 0x80 + x % 0x40]
    else if x < 0x10000 then [0xE0 + x / 0x1000, 0x80 + (x / 0x40) % 0x40, 0x80 + x % 0x40]
    else [0xF0 + x / 0x40000, 0x80 + (x / 0x1000) % 0x40, 0x80 + (x / 0x40) % 0x40, 0x80 + x % 0x40]
  }

  function EscapeAll(bytes: seq<Byte>): (e: string)
    ensures |e| == 3 * |bytes|
  {
    if |bytes| == 0 then "" else Escape(bytes[0]) + EscapeAll(bytes[1..])
  }

  /** Every character written as the escapes of its UTF-8 bytes. */
  function Quote(s: string): (q: string)
    ensures |q| >= |s|
  {
    if |s| == 0 then "" else EscapeAll(Utf8(s[0])) + Quote(s[1..])
  }

  /** Escapes hold only '%' and hex digits. */
  lemma {:induction false} EscapeAllChars(bytes: seq<Byte>)
    ensures forall i :: 0 <= i < |EscapeAll(bytes)| ==> EscapeAll(bytes)[i] == '%' || IsHexDigit(EscapeAll(bytes)[i])
  {
    if |bytes| > 0 {
      EscapeAllChars(bytes[1..]);
      var e, t := Escape(bytes[0]), EscapeAll(bytes[1..]);
      assert EscapeAll(bytes) == e + t;
      assert forall i :: 0 <= i < |e| ==> e[i] == '%' || IsHexDigit(e[i]);
    }
  }

  /** A quoted text starts with '%' and holds only '%' and hex digits. */
  lemma {:induction false} QuoteChars(s: string)
    ensures forall i :: 0 <= i < |Quote(s)| ==> Quote(s)[i] == '%' || IsHexDigit(Quote(s)[i])
    ensures |s| > 0 ==> Quote(s)[0] == '%'
  {
    if |s| > 0 {
      QuoteChars(s[1..]);
      EscapeAllChars(Utf8(s[0]));
      var e, t := EscapeAll(Utf8(s[0])), Quote(s[1..]);
      assert Quote(s) == e + t;
      assert e[..3] == Escape(Utf8(s[0])[0]);
    }
  }

  function Octets(bytes: seq<Byte>): (p: seq<Piece>)
    ensures |p| == |bytes|
    ensures forall i :: 0 <= i < |p| ==> p[i] == Octet(bytes[i])
  {
    if |bytes| == 0 then [] else [Octet(bytes[0])] + Octets(bytes[1..])
  }

  lemma {:induction false} PiecesOfEscapeAll(bytes: seq<Byte>, t: string)
    ensures Pieces(EscapeAll(bytes) + t) == Octets(bytes) + Pieces(t)
    decreases |bytes|
  {
    if |bytes| > 0 {
      assert EscapeAll(bytes) + t == Escape(bytes[0]) + (EscapeAll(bytes[1..]) + t);
      PiecesOfEscape(bytes[0], EscapeAll(bytes[1..]) + t);
      PiecesOfEscapeAll(bytes[1..], t);
      assert Octets(bytes) == [Octet(bytes[0])] + Octets(bytes[1..]);
    } else {
      assert EscapeAll(bytes) + t == t;
    }
  }

  lemma DecodeTwo(c: char, rest: seq<Piece>)
    requires 0x80 <= c as int < 0x800
    ensures Decode(Octets(Utf8(c)) + rest) == [c] + Decode(rest)
  {
    var x := c as int;
    var p := Octets(Utf8(c)) + rest;
    assert p[0] == Octet(0xC0 + x / 0x40) && p[1] == Octet(0x80 + x % 0x40);
    assert NeededBytes(p[0].b) == 2;
    assert Accepted(p, 2) == 2;
    assert Scalar(p, 2) as int == x;
    assert p[2..] == rest;
  }

  lemma DecodeThree(c: char, rest: seq<Piece>)
    requires 0x800 <= c as int < 0x10000
    ensures Decode(Octets(Utf8(c)) + rest) == [c] + Decode(rest)
  {
    var x := c as int;
    var hi, mid, lo := x / 0x1000, (x / 0x40) % 0x40, x % 0x40;
    assert x == hi * 0x1000 + mid * 0x40 + lo;
    var p := Octets(Utf8(c)) + rest;
    assert p[0] == Octet(0xE0 + hi) && p[1] == Octet(0x80 + mid) && p[2] == Octet(0x80 + lo);
    assert NeededBytes(p[0].b) == 3;
    assert Fits(p, 1) && Fits(p, 2);
    assert Accepted(p, 3) == 3;
    assert Scalar(p, 3) as int == x;
    assert p[3..] == rest;
  }

  /** The four six-bit groups of a code point beyond U+FFFF, and the
      second byte's range on the first and last lead. */
  lemma FourGroups(x: int)
    requires 0x10000 <= x <= 0x10FFFF
    ensures var top, hi, mid, lo := x / 0x40000, (x / 0x1000) % 0x40, (x / 0x40) % 0x40, x % 0x40;
      && 0 <= top <= 4
      && x == top * 0x40000 + hi * 0x1000 + mid * 0x40 + lo
      && (top == 0 ==> 0x10 <= hi) && (top == 4 ==> hi <= 0x0F)
  {
    var q1 := x / 0x40;
    var q2 := q1 / 0x40;
    assert x == q1 * 0x40 + x % 0x40;
    assert q1 == q2 * 0x40 + q1 % 0x40;
    assert q2 == x / 0x1000;
    assert q2 == (q2 / 0x40) * 0x40 + q2 % 0x40;
    assert q2 / 0x40 == x / 0x40000;
  }

  lemma DecodeFour(c: char, rest: seq<Piece>)
    requires 0x10000 <= c as int
    ensures Decode(Octets(Utf8(c)) + rest) == [c] + Decode(rest)
  {
    var x := c as int;
    var top, hi, mid, lo := x / 0x40000, (x / 0x1000) % 0x40, (x / 0x40) % 0x40, x % 0x40;
    FourGroups(x);
    var p := Octets(Utf8(c)) + rest;
    assert p[0] == Octet(0xF0 + top) && p[1] == Octet(0x80 + hi) && p[2] == Octet(0x80 + mid) && p[3] == Octet(0x80 + lo);
    assert NeededBytes(p[0].b) == 4;
    assert Fits(p, 1) && Fits(p, 2) && Fits(p, 3);
    assert Accepted(p, 4) == 4;
    assert Scalar(p, 4) as int == x;
    assert p[4..] == rest;
  }

  /** The UTF-8 bytes of a character decode back to it. */
  lemma DecodeUtf8(c: char, rest: seq<Piece>)
    ensures Decode(Octets(Utf8(c)) + rest) == [c] + Decode(rest)
  {
    var x := c as int;
    if x < 0x80 {
      assert Octets(Utf8(c)) + rest == [Octet(x)] + rest;
      DecodeAscii(x, rest);
    } else if x < 0x800 {
      DecodeTwo(c, rest);
    } else if x < 0x10000 {
      DecodeThree(c, rest);
    } else {
      DecodeFour(c, rest);
    }
  }

  /** Unquoting reverses percent-encoding of the UTF-8 form, whatever the
      characters. */
  lemma {:induction false} UnquoteQuote(s: string)
    ensures Unquote(Quote(s)) == s
  {
    if |s| > 0 {
      var q := Quote(s[1..]);
      UnquoteQuote(s[1..]);
      assert Pieces(Quote(s)) == Octets(Utf8(s[0])) + Pieces(q) by {
        assert Quote(s) == EscapeAll(Utf8(s[0])) + q;
        PiecesOfEscapeAll(Utf8(s[0]), q);
      }
      assert Decode(Octets(Utf8(s[0])) + Pieces(q)) == [s[0]] + s[1..] by {
        DecodeUtf8(s[0], Pieces(q));
      }
      assert s == [s[0]] + s[1..];
    }
  }
}
