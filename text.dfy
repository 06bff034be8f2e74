/**
 * String helpers with the behaviour of the JavaScript built-ins the source relies on:
 * template-literal rendering of integers, `String.prototype.trim`, `split` on a one-character
 * separator and `Array.prototype.join`.
 */
module Text {

  // ---------------------------------------------------------------------------------------------
  // Decimal rendering of integers (what `${n}` produces for an integral number)

  function DigitChar(d: nat): (c: char)
    requires d < 10
    ensures '0' <= c <= '9'
  {
    "0123456789"[d]
  }

  function DigitValue(c: char): (d: nat)
    requires '0' <= c <= '9'
    ensures d < 10
  {
    (c as int - '0' as int) as nat
  }

  /** Decimal digits of `n`, most significant first, without leading zeros. */
  function NatToString(n: nat): (s: string)
    ensures |s| >= 1
    ensures forall i :: 0 <= i < |s| ==> '0' <= s[i] <= '9'
    decreases n
  {
    if n < 10 then [DigitChar(n)] else NatToString(n / 10) + [DigitChar(n % 10)]
  }

  /** The value of a non-empty string of decimal digits. */
  function ParseDigits(s: string): (n: nat)
    requires forall i :: 0 <= i < |s| ==> '0' <= s[i] <= '9'
  {
    if s == [] then 0 else 10 * ParseDigits(s[..|s| - 1]) + DigitValue(s[|s| - 1])
  }

  /** Rendering an integer as text: a leading '-' for negatives. */
  function IntToString(i: int): (s: string)
    ensures |s| >= 1
    ensures i >= 0 ==> s == NatToString(i)
    ensures i < 0 ==> s == "-" + NatToString(-i)
  {
    if i < 0 then "-" + NatToString(-i) else NatToString(i)
  }

  lemma DigitRoundTrip(d: nat)
    requires d < 10
    ensures DigitValue(DigitChar(d)) == d
  {
    assert "0123456789"[d] as int == '0' as int + d by {
      assert "0123456789"[0] == '0' && "0123456789"[1] == '1' && "0123456789"[2] == '2';
      assert "0123456789"[3] == '3' && "0123456789"[4] == '4' && "0123456789"[5] == '5';
      assert "0123456789"[6] == '6' && "0123456789"[7] == '7' && "0123456789"[8] == '8';
      assert "0123456789"[9] == '9';
    }
  }

  /** Reading back the rendered digits gives the number: the rendering loses nothing. */
  lemma {:induction false} NatToStringRoundTrip(n: nat)
    ensures ParseDigits(NatToString(n)) == n
    decreases n
  {
    var s := NatToString(n);
    if n < 10 {
      DigitRoundTrip(n);
      assert s[..0] == [];
    } else {
      NatToStringRoundTrip(n / 10);
      DigitRoundTrip(n % 10);
      assert s[..|s| - 1] == NatToString(n / 10);
    }
  }

  /** Distinct numbers render as distinct strings. */
  lemma NatToStringInjective(m: nat, n: nat)
    requires NatToString(m) == NatToString(n)
    ensures m == n
  {
    NatToStringRoundTrip(m);
    NatToStringRoundTrip(n);
  }

  /** Distinct integers print differently. */
  lemma {:induction false} IntToStringInjective(a: int, b: int)
    requires IntToString(a) == IntToString(b)
    ensures a == b
  {
    SignFirst(a);
    SignFirst(b);
    if a >= 0 && b >= 0 {
      NatToStringInjective(a, b);
    } else if a < 0 && b < 0 {
      var x := IntToString(a);
      assert x[1..] == NatToString(-a) by { assert x == "-" + NatToString(-a); }
      assert x[1..] == NatToString(-b) by { assert x == "-" + NatToString(-b); }
      NatToStringInjective(-a, -b);
    }
  }

  /** A printed integer starts with a minus sign exactly when it is negative. */
  lemma SignFirst(i: int)
    ensures IntToString(i)[0] == '-' <==> i < 0
  {
    if i >= 0 {
      assert '0' <= IntToString(i)[0] <= '9';
    }
  }

  // ---------------------------------------------------------------------------------------------
  // Whitespace and trimming (`String.prototype.trim`)

  /** The characters ECMAScript counts as white space or line terminators. */
  const WhiteSpace: set<char> := {
    ' ', '\t', '\n', '\r', '\U{000B}', '\U{000C}', '\U{00A0}', '\U{FEFF}', '\U{1680}',
    '\U{2000}', '\U{2001}', '\U{2002}', '\U{2003}', '\U{2004}', '\U{2005}', '\U{2006}',
    '\U{2007}', '\U{2008}', '\U{2009}', '\U{200A}',
    '\U{2028}', '\U{2029}', '\U{202F}', '\U{205F}', '\U{3000}'
  }

  /** Every character of `s` is in `ws`. */
  predicate AllIn(s: string, ws: set<char>) {
    forall i :: 0 <= i < |s| ==> s[i] in ws
  }

  predicate AllSpace(s: string) {
    AllIn(s, WhiteSpace)
  }

  /** `s` without its leading characters from `ws`. */
  function TrimStartIn(s: string, ws: set<char>): (r: string)
    ensures |r| <= |s| && r == s[|s| - |r|..]
    ensures r != [] ==> r[0] !in ws
    ensures AllIn(s[..|s| - |r|], ws)
  {
    if s != [] && s[0] in ws then
      var r := TrimStartIn(s[1..], ws);
      assert s[..|s| - |r|] == [s[0]] + s[1..][..|s| - 1 - |r|];
      r
    else s
  }

  /** `s` without its trailing characters from `ws`. */
  function TrimEndIn(s: string, ws: set<char>): (r: string)
    ensures |r| <= |s| && r == s[..|r|]
    ensures r != [] ==> r[|r| - 1] !in ws
    ensures AllIn(s[|r|..], ws)
  {
    if s != [] && s[|s| - 1] in ws then
      var r := TrimEndIn(s[..|s| - 1], ws);
      assert s[|r|..] == s[..|s| - 1][|r|..] + [s[|s| - 1]];
      r
    else s
  }

  function TrimIn(s: string, ws: set<char>): string {
    TrimEndIn(TrimStartIn(s, ws), ws)
  }

  /** `s.trim()`: `s` without its leading and trailing white space. */
  function Trim(s: string): (r: string)
    ensures |r| <= |s|
    ensures r != [] ==> r[0] !in WhiteSpace && r[|r| - 1] !in WhiteSpace
  {
    TrimIn(s, WhiteSpace)
  }

  /** Trimming leaves nothing exactly when every character is one that is cut. */
  lemma {:induction false} TrimEmptyIffAllIn(s: string, ws: set<char>)
    ensures TrimIn(s, ws) == [] <==> AllIn(s, ws)
  {
    var t := TrimStartIn(s, ws);
    var a := |s| - |t|;
    if TrimIn(s, ws) == [] {
      assert AllIn(t, ws) by { assert t[|TrimEndIn(t, ws)|..] == t; }
      assert t == [];
      assert s[..a] == s;
    }
  }

  /** `s.trim()` is empty exactly when `s` is nothing but white space; this is the test behind
      every `!x.trim()` in the source. */
  lemma TrimEmptyIffAllSpace(s: string)
    ensures Trim(s) == [] <==> AllSpace(s)
  {
    TrimEmptyIffAllIn(s, WhiteSpace);
  }

  /** Trimming twice is the same as trimming once. */
  lemma {:induction false} TrimIdempotent(s: string, ws: set<char>)
    ensures TrimIn(TrimIn(s, ws), ws) == TrimIn(s, ws)
  {
    var t := TrimStartIn(s, ws);
    var r := TrimEndIn(t, ws);
    if r != [] {
      assert r[0] == t[0];
      assert TrimStartIn(r, ws) == r;
    }
  }

  // ---------------------------------------------------------------------------------------------
  // Splitting on a separator and joining (`s.split(c)` and `parts.join(sep)`)

  /** `s.split(sep)` for a one-character separator: always at least one piece, and a
      separator at either end yields an empty piece there. */
  function Split(s: string, sep: char): (parts: seq<string>)
    ensures |parts| >= 1
    ensures forall k :: 0 <= k < |parts| ==> sep !in parts[k]
  {
    if s == [] then [""]
    else
      var rest := Split(s[1..], sep);
      if s[0] == sep then [""] + rest else [[s[0]] + rest[0]] + rest[1..]
  }

  /** `parts.join(sep)`: the pieces with `sep` between consecutive ones. */
  function Join(parts: seq<string>, sep: string): (s: string)
  {
    if parts == [] then ""
    else if |parts| == 1 then parts[0]
    else parts[0] + sep + Join(parts[1..], sep)
  }

  /** Splitting and joining back with the same separator reproduces the text. */
  lemma {:induction false} JoinSplit(s: string, sep: char)
    ensures Join(Split(s, sep), [sep]) == s
  {
    if s != [] {
      var rest := Split(s[1..], sep);
      JoinSplit(s[1..], sep);
      if s[0] == sep {
        assert Split(s, sep) == [""] + rest;
        assert ([""] + rest)[1..] == rest;
      } else {
        var p := [[s[0]] + rest[0]] + rest[1..];
        if |rest| == 1 {
          assert p == [[s[0]] + rest[0]];
        } else {
          assert p[1..] == rest[1..];
          assert Join(rest, [sep]) == rest[0] + [sep] + Join(rest[1..], [sep]);
        }
      }
    }
  }

  /** Joining pieces that do not contain the separator and splitting again gives the pieces. */
  lemma {:induction false} SplitJoin(parts: seq<string>, sep: char)
    requires |parts| >= 1
    requires forall k :: 0 <= k < |parts| ==> sep !in parts[k]
    ensures Split(Join(parts, [sep]), sep) == parts
  {
    if |parts| == 1 {
      SplitNoSeparator(parts[0], sep);
    } else {
      SplitJoin(parts[1..], sep);
      SplitAfter(parts[0], sep, Join(parts[1..], [sep]));
      assert [parts[0]] + parts[1..] == parts;
    }
  }

  lemma {:induction false} SplitNoSeparator(s: string, sep: char)
    requires sep !in s
    ensures Split(s, sep) == [s]
  {
    if s != [] {
      SplitNoSeparator(s[1..], sep);
      assert [s[0]] + s[1..] == s;
    }
  }

  /** Text joined by one separator splits into the pieces of each side, in order. */
  lemma {:induction false} SplitAppend(a: string, sep: char, b: string)
    ensures Split(a + [sep] + b, sep) == Split(a, sep) + Split(b, sep)
  {
    var s := a + [sep] + b;
    if a == [] {
      assert s[0] == sep && s[1..] == b;
    } else {
      assert s[0] == a[0] && s[1..] == a[1..] + [sep] + b;
      SplitAppend(a[1..], sep, b);
      var x := Split(a[1..], sep);
      if a[0] != sep {
        assert (x + Split(b, sep))[1..] == x[1..] + Split(b, sep);
      }
    }
  }

  /** A separator-free prefix followed by the separator becomes the first piece. */
  lemma {:induction false} SplitAfter(p: string, sep: char, tail: string)
    requires sep !in p
    ensures Split(p + [sep] + tail, sep) == [p] + Split(tail, sep)
  {
    var s := p + [sep] + tail;
    if p == [] {
      assert s[0] == sep && s[1..] == tail;
    } else {
      assert s[0] == p[0] && s[1..] == p[1..] + [sep] + tail;
      SplitAfter(p[1..], sep, tail);
      assert [p[0]] + p[1..] == p;
    }
  }
}
