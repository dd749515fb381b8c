/** String helpers over `seq<char>`: whitespace trimming, splitting on a
    separator, and the decimal rendering Swift's string interpolation
    uses for `Int`, together with a parser that inverts it.
    Whitespace and digits are the ASCII ones. */
module Text {
  import opened Wrappers

  /** ASCII whitespace and line breaks (space, tab, LF, VT, FF, CR). */
  predicate IsSpace(c: char) {
    c == ' ' || c == '\t' || c == '\n' || c == '\r' || c == '\U{000B}' || c == '\U{000C}'
  }

  predicate IsDigit(c: char) {
    '0' <= c <= '9'
  }

  predicate AllDigits(s: string) {
    forall i :: 0 <= i < |s| ==> IsDigit(s[i])
  }

  /** Neither the first nor the last character is whitespace. */
  predicate NoOuterSpace(s: string) {
    |s| == 0 || (!IsSpace(s[0]) && !IsSpace(s[|s| - 1]))
  }

  /** Drops the leading whitespace. */
  function TrimStart(s: string): (r: string)
    ensures |r| <= |s| && r == s[|s| - |r|..]
    ensures forall i :: 0 <= i < |s| - |r| ==> IsSpace(s[i])
    ensures |r| > 0 ==> !IsSpace(r[0])
  {
    if |s| > 0 && IsSpace(s[0]) then TrimStart(s[1..]) else s
  }

  /** Drops the trailing whitespace. */
  function TrimEnd(s: string): (r: string)
    ensures |r| <= |s| && r == s[..|r|]
    ensures forall i :: |r| <= i < |s| ==> IsSpace(s[i])
    ensures |r| > 0 ==> !IsSpace(r[|r| - 1])
  {
    if |s| > 0 && IsSpace(s[|s| - 1]) then TrimEnd(s[..|s| - 1]) else s
  }

  /** Every character is whitespace. */
  predicate AllSpace(s: string) {
    forall k :: 0 <= k < |s| ==> IsSpace(s[k])
  }

  /** `trimmingCharacters(in: .whitespacesAndNewlines)`: the span after
      the leading whitespace up to the trailing whitespace. */
  function Trim(s: string): (r: string)
    ensures NoOuterSpace(r)
    ensures |r| <= |s|
    ensures LeadingSpaces(s) + |r| <= |s| && r == s[LeadingSpaces(s)..LeadingSpaces(s) + |r|]
    ensures AllSpace(s[LeadingSpaces(s) + |r|..])
  {
    var i := LeadingSpaces(s);
    var r := TrimEnd(s[i..]);
    assert |r| > 0 ==> r[0] == s[i];
    assert AllSpace(s[i..][|r|..]);
    PrefixOfSuffix(s, i, s[i..], r);
    r
  }

  /** A prefix `r` of the suffix `t` of `s` from `i` is the slice of `s`
      from `i`, and what follows it in `t` is what follows it in `s`. */
  lemma PrefixOfSuffix(s: string, i: nat, t: string, r: string)
    requires i <= |s| && t == s[i..]
    requires |r| <= |t| && r == t[..|r|]
    requires AllSpace(t[|r|..])
    ensures i + |r| <= |s| && r == s[i..i + |r|]
    ensures AllSpace(s[i + |r|..])
  {
    assert t[|r|..] == s[i + |r|..];
  }

  /** Number of whitespace characters `s` starts with. */
  function LeadingSpaces(s: string): (n: nat)
    ensures n <= |s|
    ensures forall k :: 0 <= k < n ==> IsSpace(s[k])
    ensures n < |s| ==> !IsSpace(s[n])
  {
    if |s| > 0 && IsSpace(s[0]) then 1 + LeadingSpaces(s[1..]) else 0
  }

  /** `TrimStart` drops exactly the leading whitespace. */
  lemma {:induction false} LeadingSpacesTrimStart(s: string)
    ensures TrimStart(s) == s[LeadingSpaces(s)..]
  {
    if |s| > 0 && IsSpace(s[0]) {
      LeadingSpacesTrimStart(s[1..]);
      assert s[1..][LeadingSpaces(s[1..])..] == s[LeadingSpaces(s)..];
    }
  }

  /** A string without outer whitespace is its own trim. */
  lemma TrimFixed(s: string)
    requires NoOuterSpace(s)
    ensures Trim(s) == s
  {
  }

  /** Trimming is idempotent. */
  lemma TrimIdempotent(s: string)
    ensures Trim(Trim(s)) == Trim(s)
  {
    TrimFixed(Trim(s));
  }

  /** The strings `Trim` leaves alone are exactly those without outer
      whitespace. */
  lemma TrimFixedIff(s: string)
    ensures Trim(s) == s <==> NoOuterSpace(s)
  {
    if NoOuterSpace(s) {
      TrimFixed(s);
    }
  }

  /** Number of occurrences of `c` in `s`. */
  function Count(s: string, c: char): nat {
    if |s| == 0 then 0 else (if s[0] == c then 1 else 0) + Count(s[1..], c)
  }

  /** `components(separatedBy:)` with a one-character separator: one
      piece per separator plus one, none containing the separator. */
  function Split(s: string, sep: char): (r: seq<string>)
    ensures |r| == Count(s, sep) + 1
    ensures forall i :: 0 <= i < |r| ==> sep !in r[i]
  {
    if |s| == 0 then [""]
    else
      var rest := Split(s[1..], sep);
      if s[0] == sep then [""] + rest
      else [[s[0]] + rest[0]] + rest[1..]
  }

  /** `joined(separator:)` with a one-character separator. */
  function Join(parts: seq<string>, sep: char): string {
    if |parts| == 0 then ""
    else if |parts| == 1 then parts[0]
    else parts[0] + [sep] + Join(parts[1..], sep)
  }

  /** Splitting loses nothing: joining the pieces gives the input back. */
  lemma {:induction false} JoinSplit(s: string, sep: char)
    ensures Join(Split(s, sep), sep) == s
  {
    if |s| > 0 {
      var rest := Split(s[1..], sep);
      JoinSplit(s[1..], sep);
      if s[0] == sep {
        assert ([""] + rest)[1..] == rest;
      } else {
        var r := [[s[0]] + rest[0]] + rest[1..];
        assert r[1..] == rest[1..];
        if |rest| > 1 {
          assert Join(rest, sep) == rest[0] + [sep] + Join(rest[1..], sep);
        }
      }
    }
  }

  /** Splitting a join of separator-free pieces gives the pieces back. */
  lemma {:induction false} SplitJoin(parts: seq<string>, sep: char)
    requires |parts| > 0
    requires forall i :: 0 <= i < |parts| ==> sep !in parts[i]
    ensures Split(Join(parts, sep), sep) == parts
  {
    if |parts| == 1 {
      SplitPiece(parts[0], sep);
    } else {
      SplitJoin(parts[1..], sep);
      SplitPrefix(parts[0], sep, Join(parts[1..], sep));
    }
  }

  /** A separator-free string splits into itself. */
  lemma {:induction false} SplitPiece(p: string, sep: char)
    requires sep !in p
    ensures Split(p, sep) == [p]
  {
    if |p| > 0 {
      SplitPiece(p[1..], sep);
      assert p[0] != sep;
      assert [p[0]] + p[1..] == p;
    }
  }

  /** A separator-free head followed by the separator splits off first. */
  lemma {:induction false} SplitPrefix(p: string, sep: char, tail: string)
    requires sep !in p
    ensures Split(p + [sep] + tail, sep) == [p] + Split(tail, sep)
  {
    var s := p + [sep] + tail;
    if |p| == 0 {
      assert s[1..] == tail;
    } else {
      assert s[1..] == p[1..] + [sep] + tail;
      SplitPrefix(p[1..], sep, tail);
      assert s[0] == p[0] && p[0] != sep;
      assert [p[0]] + p[1..] == p;
    }
  }

  /** The character of a decimal digit. */
  function DigitChar(d: nat): (c: char)
    requires d < 10
    ensures IsDigit(c)
  {
    ('0' as int + d) as char
  }

  /** The value of a decimal digit character. */
  function DigitValue(c: char): (d: nat)
    requires IsDigit(c)
    ensures d < 10
  {
    (c as int) - ('0' as int)
  }

  /** Decimal rendering of a natural number, without leading zeros. */
  function NatToString(n: nat): (r: string)
    ensures |r| > 0 && AllDigits(r)
    ensures r[0] == '0' ==> n == 0
  {
    if n < 10 then [DigitChar(n)]
    else NatToString(n / 10) + [DigitChar(n % 10)]
  }

  /** The number a non-empty string of digits denotes. */
  function DigitsValue(s: string): nat
    requires |s| > 0 && AllDigits(s)
  {
    if |s| == 1 then DigitValue(s[0])
    else DigitsValue(s[..|s| - 1]) * 10 + DigitValue(s[|s| - 1])
  }

  /** Swift's `"\(n)"` for an `Int`: a minus sign for negatives. */
  function IntToString(n: int): (r: string)
    ensures |r| > 0
    ensures r[0] == '-' <==> n < 0
    ensures var d := if n < 0 then r[1..] else r;
      |d| > 0 && AllDigits(d) && (d[0] == '0' ==> n == 0)
  {
    if n < 0 then "-" + NatToString(-n) else NatToString(n)
  }

  /** Reads back an optionally signed decimal integer in the form
      `IntToString` writes: no leading zeros and no `-0`. */
  function ParseInt(s: string): (r: Option<int>)
    ensures r.Some? ==> IntToString(r.value) == s
  {
    if |s| > 1 && s[0] == '-' && AllDigits(s[1..]) && s[1] != '0' then
      var d := s[1..];
      DigitsValuePositive(d);
      NatToStringOfDigits(d);
      assert s == "-" + d;
      Some(0 - DigitsValue(d))
    else if |s| > 0 && AllDigits(s) && (|s| == 1 || s[0] != '0') then
      NatToStringOfDigits(s);
      Some(DigitsValue(s))
    else None
  }

  /** Digits that do not start with `0` denote a positive number. */
  lemma {:induction false} DigitsValuePositive(d: string)
    requires |d| > 0 && AllDigits(d) && d[0] != '0'
    ensures DigitsValue(d) >= 1
  {
    if |d| > 1 {
      DigitsValuePositive(d[..|d| - 1]);
    }
  }

  /** Digits without a leading zero are the rendering of their value. */
  lemma {:induction false} NatToStringOfDigits(d: string)
    requires |d| > 0 && AllDigits(d) && (|d| == 1 || d[0] != '0')
    ensures NatToString(DigitsValue(d)) == d
  {
    if |d| == 1 {
      assert DigitChar(DigitValue(d[0])) == d[0];
    } else {
      var a := d[..|d| - 1];
      var c := d[|d| - 1];
      NatToStringOfDigits(a);
      DigitsValuePositive(a);
      var n := DigitsValue(d);
      assert n == DigitsValue(a) * 10 + DigitValue(c);
      assert n / 10 == DigitsValue(a) && n % 10 == DigitValue(c);
      assert DigitChar(DigitValue(c)) == c;
      assert NatToString(n) == a + [c];
      assert a + [c] == d;
    }
  }

  lemma {:induction false} DigitsOfNat(n: nat)
    ensures DigitsValue(NatToString(n)) == n
  {
    if n >= 10 {
      var a := NatToString(n / 10);
      var r := a + [DigitChar(n % 10)];
      assert r[..|r| - 1] == a;
      DigitsOfNat(n / 10);
    }
  }

  /** Rendering then parsing an integer gives it back. */
  lemma ParseIntToString(n: int)
    ensures ParseInt(IntToString(n)) == Some(n)
  {
    if n < 0 {
      var d := NatToString(-n);
      var s := "-" + d;
      assert IntToString(n) == s;
      assert s[1..] == d;
      DigitsOfNat(-n);
      assert s[1] == d[0] != '0';
      assert ParseInt(s) == Some(0 - DigitsValue(d));
    } else {
      DigitsOfNat(n);
      if n == 0 {
        assert NatToString(0) == "0";
      }
      assert NatToString(n)[0] != '-';
    }
  }

  /** Distinct integers render differently. */
  lemma IntToStringInjective(a: int, b: int)
    requires IntToString(a) == IntToString(b)
    ensures a == b
  {
    ParseIntToString(a);
    ParseIntToString(b);
  }
}
