/** The handful of Python `str` operations the checkout code relies on:
    strip(), lower(), `in`, split(sep, 1), str(int) and int(str). */
module Text {
  import opened Wrappers

  /** The characters for which Python's str.isspace() holds: the ones that
      str.strip() with no argument removes. */
  predicate IsSpace(c: char)
  {
    ('\t' <= c <= '\r') || ('\U{1C}' <= c <= ' ') || c == '\U{85}' || c == '\U{A0}'
    || c == '\U{1680}' || ('\U{2000}' <= c <= '\U{200A}') || c == '\U{2028}' || c == '\U{2029}'
    || c == '\U{202F}' || c == '\U{205F}' || c == '\U{3000}'
  }

  /** The argument of Python's strip(): whitespace (no argument) or one character. */
  datatype CharClass = Spaces | Only(c: char)

  predicate Drops(drop: CharClass, c: char)
  {
    match drop
    case Spaces => IsSpace(c)
    case Only(x) => c == x
  }

  /** Removes the leading characters `drop` names. */
  function TrimLeft(s: string, drop: CharClass): (r: string)
    ensures |r| <= |s|
    ensures r == [] || !Drops(drop, r[0])
  {
    if |s| > 0 && Drops(drop, s[0]) then TrimLeft(s[1..], drop) else s
  }

  /** Removes the trailing characters `drop` names. */
  function TrimRight(s: string, drop: CharClass): (r: string)
    ensures |r| <= |s|
    ensures r == [] || !Drops(drop, r[|r| - 1])
  {
    if |s| > 0 && Drops(drop, s[|s| - 1]) then TrimRight(s[..|s| - 1], drop) else s
  }

  /** Python's s.strip(chars). */
  function StripWhere(s: string, drop: CharClass): (r: string)
    ensures |r| <= |s|
    ensures r == [] || (!Drops(drop, r[0]) && !Drops(drop, r[|r| - 1]))
  {
    var t := TrimLeft(s, drop);
    TrimRightPrefix(t, drop);
    TrimRight(t, drop)
  }

  /** What TrimLeft keeps is a suffix of its argument. */
  lemma {:induction false} TrimLeftSuffix(s: string, drop: CharClass)
    ensures TrimLeft(s, drop) == s[|s| - |TrimLeft(s, drop)|..]
  {
    if |s| > 0 && Drops(drop, s[0]) {
      TrimLeftSuffix(s[1..], drop);
    }
  }

  /** What TrimRight keeps is a prefix of its argument. */
  lemma {:induction false} TrimRightPrefix(s: string, drop: CharClass)
    ensures TrimRight(s, drop) == s[..|TrimRight(s, drop)|]
  {
    if |s| > 0 && Drops(drop, s[|s| - 1]) {
      TrimRightPrefix(s[..|s| - 1], drop);
    }
  }

  /** strip() only removes characters: everything it keeps was in the text. */
  lemma StripWithin(s: string, drop: CharClass)
    ensures forall c :: c in StripWhere(s, drop) ==> c in s
  {
    var t := TrimLeft(s, drop);
    TrimLeftSuffix(s, drop);
    TrimRightPrefix(t, drop);
    forall c | c in StripWhere(s, drop)
      ensures c in s
    {
      var j :| 0 <= j < |StripWhere(s, drop)| && StripWhere(s, drop)[j] == c;
      assert t[j] == c;
      assert s[|s| - |t| + j] == c;
    }
  }

  /** Python's s.strip(). */
  function Strip(s: string): (r: string)
    ensures |r| <= |s|
    ensures r == [] || (!IsSpace(r[0]) && !IsSpace(r[|r| - 1]))
  {
    StripWhere(s, Spaces)
  }

  /** Stripping a string whose two ends are already kept changes nothing. */
  lemma StripKeeps(s: string, drop: CharClass)
    requires s == [] || (!Drops(drop, s[0]) && !Drops(drop, s[|s| - 1]))
    ensures StripWhere(s, drop) == s
  {
  }

  /** Python's s.lower() on the ASCII letters. */
  function LowerChar(c: char): char
  {
    if 'A' <= c <= 'Z' then (c as int + 32) as char else c
  }

  function Lower(s: string): (r: string)
    ensures |r| == |s|
    ensures forall i :: 0 <= i < |s| ==> r[i] == LowerChar(s[i])
  {
    seq(|s|, i requires 0 <= i < |s| => LowerChar(s[i]))
  }

  predicate StartsWith(s: string, prefix: string)
  {
    |prefix| <= |s| && s[..|prefix|] == prefix
  }

  predicate OccursAt(s: string, needle: string, i: int)
  {
    0 <= i && i + |needle| <= |s| && s[i..i + |needle|] == needle
  }

  /** Python's `needle in s`. */
  function Contains(s: string, needle: string): (b: bool)
    ensures b <==> exists i :: OccursAt(s, needle, i)
    decreases |s|
  {
    if StartsWith(s, needle) then
      assert OccursAt(s, needle, 0);
      true
    else if |s| <= |needle| then
      false
    else
      var b := Contains(s[1..], needle);
      assert forall i :: OccursAt(s[1..], needle, i) <==> OccursAt(s, needle, i + 1) by {
        forall i ensures OccursAt(s[1..], needle, i) <==> OccursAt(s, needle, i + 1) {
          if 0 <= i && i + |needle| <= |s| - 1 {
            assert s[1..][i..i + |needle|] == s[i + 1..i + 1 + |needle|];
          }
        }
      }
      assert forall i :: OccursAt(s, needle, i) && i != 0 ==> OccursAt(s[1..], needle, i - 1);
      b
  }

  /** Python's s.split(sep, 1) seen as a pair: the text before the first `sep`
      and the text after it; None when `sep` does not occur. */
  function SplitOnce(s: string, sep: char): (r: Option<(string, string)>)
    ensures r.None? <==> sep !in s
    ensures r.Some? ==> s == r.value.0 + [sep] + r.value.1 && sep !in r.value.0
  {
    if |s| == 0 then None
    else if s[0] == sep then Some(([], s[1..]))
    else
      match SplitOnce(s[1..], sep)
      case None => None
      case Some(parts) => Some(([s[0]] + parts.0, parts.1))
  }

  /** The first occurrence of `sep` is the one SplitOnce splits at. */
  lemma {:induction false} SplitOnceAt(a: string, sep: char, b: string)
    requires sep !in a
    ensures SplitOnce(a + [sep] + b, sep) == Some((a, b))
  {
    if a == [] {
      assert a + [sep] + b == [sep] + b;
    } else {
      var s := a + [sep] + b;
      assert s[0] == a[0] && s[1..] == a[1..] + [sep] + b;
      SplitOnceAt(a[1..], sep, b);
      assert [a[0]] + a[1..] == a;
    }
  }

  /** Python's s.split(sep) for a one-character separator. */
  function SplitAll(s: string, sep: char): (parts: seq<string>)
    ensures |parts| >= 1
    decreases |s|
  {
    match SplitOnce(s, sep)
    case None => [s]
    case Some(p) => [p.0] + SplitAll(p.1, sep)
  }

  predicate IsDigit(c: char)
  {
    '0' <= c <= '9'
  }

  /** A non-empty run of ASCII decimal digits (str.isdigit() on ASCII text). */
  predicate IsDigits(s: string)
  {
    |s| > 0 && forall i :: 0 <= i < |s| ==> IsDigit(s[i])
  }

  function DigitValue(c: char): nat
    requires IsDigit(c)
  {
    c as int - '0' as int
  }

  function Digit(d: nat): (c: char)
    requires d < 10
    ensures IsDigit(c) && DigitValue(c) == d
  {
    ('0' as int + d) as char
  }

  /** The number a run of decimal digits denotes (leading zeros allowed). */
  function DigitsValue(s: string): nat
    requires forall i :: 0 <= i < |s| ==> IsDigit(s[i])
  {
    if s == [] then 0 else 10 * DigitsValue(s[..|s| - 1]) + DigitValue(s[|s| - 1])
  }

  /** Python's str(n) for n >= 0. */
  function NatToStr(n: nat): (s: string)
    ensures IsDigits(s)
  {
    if n < 10 then [Digit(n)] else NatToStr(n / 10) + [Digit(n % 10)]
  }

  lemma {:induction false} NatToStrValue(n: nat)
    ensures DigitsValue(NatToStr(n)) == n
  {
    if n >= 10 {
      var s := NatToStr(n);
      assert s[..|s| - 1] == NatToStr(n / 10);
      NatToStrValue(n / 10);
    }
  }

  /** Python's str(n). */
  function IntToStr(n: int): (s: string)
    ensures |s| > 0 && !IsSpace(s[0]) && !IsSpace(s[|s| - 1])
  {
    if n < 0 then "-" + NatToStr(-n) else NatToStr(n)
  }

  /** int() of text that has already been stripped: an optional sign and a
      non-empty run of digits. */
  function ParseSigned(t: string): Option<int>
  {
    if |t| > 0 && (t[0] == '-' || t[0] == '+') then
      if IsDigits(t[1..]) then
        var magnitude: int := DigitsValue(t[1..]);
        Some(if t[0] == '-' then -magnitude else magnitude)
      else None
    else if IsDigits(t) then Some(DigitsValue(t))
    else None
  }

  /** Python's int(s) on text of the form [spaces][+|-]digits[spaces].
      The underscores between digits and the non-ASCII digits that int()
      also accepts are not modelled. */
  function ParseInt(s: string): Option<int>
  {
    ParseSigned(Strip(s))
  }

  /** A run of digits has no whitespace to strip. */
  lemma StripDigits(s: string)
    requires IsDigits(s)
    ensures Strip(s) == s
  {
    assert !IsSpace(s[0]) && !IsSpace(s[|s| - 1]);
    StripKeeps(s, Spaces);
  }

  lemma SignedDigits(s: string)
    requires IsDigits(s)
    ensures ParseSigned(s) == Some(DigitsValue(s))
  {
  }

  /** int() of a run of digits is the number they denote. */
  lemma ParseDigits(s: string)
    requires IsDigits(s)
    ensures ParseInt(s) == Some(DigitsValue(s))
  {
    StripDigits(s);
    SignedDigits(s);
  }

  lemma SignedIntToStr(n: int)
    ensures ParseSigned(IntToStr(n)) == Some(n)
  {
    var s := IntToStr(n);
    if n < 0 {
      assert s[1..] == NatToStr(-n);
      NatToStrValue(-n);
    } else {
      NatToStrValue(n);
    }
  }

  lemma StripIntToStr(n: int)
    ensures Strip(IntToStr(n)) == IntToStr(n)
  {
    var s := IntToStr(n);
    assert !IsSpace(s[0]) && !IsSpace(s[|s| - 1]);
    StripKeeps(s, Spaces);
  }

  /** int(str(n)) == n. */
  lemma IntToStrParses(n: int)
    ensures ParseInt(IntToStr(n)) == Some(n)
  {
    StripIntToStr(n);
    SignedIntToStr(n);
  }

  /** The decimal rendering of an integer never holds the separator `c`
      unless `c` is a digit or the minus sign. */
  lemma IntToStrAvoids(n: int, c: char)
    requires !IsDigit(c) && c != '-'
    ensures c !in IntToStr(n)
  {
    var s := IntToStr(n);
    if n < 0 {
      assert s == "-" + NatToStr(-n);
    }
  }
}
