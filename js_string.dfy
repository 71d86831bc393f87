/**
 * The string operations of JavaScript that the data service relies on:
 * `s.replace(pattern, replacement)` with a string pattern, `s.split(',')`,
 * number-to-string concatenation and `parseInt`.
 */
module JsString {
  import opened Wrappers

  /** `pat` occurs in `s` starting at index `i`. */
  predicate Occurs(s: string, pat: string, i: int) {
    0 <= i && i + |pat| <= |s| && s[i..i + |pat|] == pat
  }

  /**
   * The first index at or after `from` where `pat` occurs in `s` (what
   * `indexOf` looks for), if there is one.
   */
  function FindFrom(s: string, pat: string, from: nat): (r: Option<nat>)
    ensures r.Some? ==> from <= r.value && Occurs(s, pat, r.value)
    ensures r.Some? ==> forall j :: from <= j < r.value ==> !Occurs(s, pat, j)
    ensures r.None? ==> forall j :: from <= j ==> !Occurs(s, pat, j)
    decreases |s| - from
  {
    if |s| < from + |pat| then None
    else if s[from..from + |pat|] == pat then Some(from)
    else FindFrom(s, pat, from + 1)
  }

  /**
   * `s.replace(pat, rep)` for a non-empty string pattern: the first
   * occurrence of `pat` (if any) is replaced by `rep`. The string is left
   * as it was exactly when the pattern does not occur or is replaced by
   * itself, and otherwise its length changes by the difference in length.
   */
  function ReplaceFirst(s: string, pat: string, rep: string): (r: string)
    requires pat != ""
    ensures r == s <==> FindFrom(s, pat, 0).None? || rep == pat
    ensures |r| == |s| || |r| == |s| - |pat| + |rep|
  {
    match FindFrom(s, pat, 0)
    case None => s
    case Some(i) =>
      var r := s[..i] + rep + s[i + |pat|..];
      assert r[i..i + |rep|] == rep;
      r
  }

  /** Without an occurrence of the pattern, `replace` changes nothing. */
  lemma ReplaceFirstAbsent(s: string, pat: string, rep: string)
    requires pat != ""
    requires forall i :: !Occurs(s, pat, i)
    ensures ReplaceFirst(s, pat, rep) == s
  {
    assert FindFrom(s, pat, 0).None?;
  }

  /**
   * `replace` cuts out exactly the first occurrence of the pattern and puts
   * the replacement in its place.
   */
  lemma ReplaceFirstAt(s: string, pat: string, rep: string, i: nat)
    requires pat != ""
    requires Occurs(s, pat, i)
    requires forall j :: 0 <= j < i ==> !Occurs(s, pat, j)
    ensures ReplaceFirst(s, pat, rep) == s[..i] + rep + s[i + |pat|..]
  {
    var found := FindFrom(s, pat, 0);
    assert found == Some(i);
  }

  /** An occurrence that ends inside `a` is an occurrence in `a + t`, and the other way round. */
  lemma OccursInFront(a: string, t: string, pat: string, j: int)
    requires j + |pat| <= |a|
    ensures Occurs(a + t, pat, j) <==> Occurs(a, pat, j)
  {
    if 0 <= j {
      assert (a + t)[j..j + |pat|] == a[j..j + |pat|];
    }
  }

  /**
   * When no occurrence of the pattern reaches into `t`, replacing in `a + t`
   * is replacing in `a` and leaves `t` untouched at the end.
   */
  lemma ReplaceFirstKeepsTail(a: string, t: string, pat: string, rep: string)
    requires pat != ""
    requires forall j :: |a| < j + |pat| ==> !Occurs(a + t, pat, j)
    ensures ReplaceFirst(a + t, pat, rep) == ReplaceFirst(a, pat, rep) + t
  {
    var found := FindFrom(a, pat, 0);
    if found.None? {
      AbsentBeforeTail(a, t, pat, rep);
    } else {
      ReplaceFirstAt(a, pat, rep, found.value);
      FirstBeforeTail(a, t, pat, rep, found.value);
    }
  }

  lemma AbsentBeforeTail(a: string, t: string, pat: string, rep: string)
    requires pat != ""
    requires forall j :: |a| < j + |pat| ==> !Occurs(a + t, pat, j)
    requires forall j :: !Occurs(a, pat, j)
    ensures ReplaceFirst(a + t, pat, rep) == a + t
  {
    forall j ensures !Occurs(a + t, pat, j) {
      if j + |pat| <= |a| {
        OccursInFront(a, t, pat, j);
      }
    }
    ReplaceFirstAbsent(a + t, pat, rep);
  }

  lemma FirstBeforeTail(a: string, t: string, pat: string, rep: string, i: nat)
    requires pat != ""
    requires Occurs(a, pat, i)
    requires forall j :: 0 <= j < i ==> !Occurs(a, pat, j)
    ensures ReplaceFirst(a + t, pat, rep) == (a[..i] + rep + a[i + |pat|..]) + t
  {
    forall j | 0 <= j < i ensures !Occurs(a + t, pat, j) {
      OccursInFront(a, t, pat, j);
    }
    OccursInFront(a, t, pat, i);
    ReplaceFirstAt(a + t, pat, rep, i);
    assert (a + t)[..i] == a[..i];
    assert (a + t)[i + |pat|..] == a[i + |pat|..] + t;
  }

  /** `s.split(sep)` for a one-character separator. */
  function Split(s: string, sep: char): (parts: seq<string>)
    ensures |parts| >= 1
    decreases |s|
  {
    if s == [] then [""]
    else
      var rest := Split(s[1..], sep);
      if s[0] == sep then [""] + rest else [[s[0]] + rest[0]] + rest[1..]
  }

  /** `parts.join(sep)`. */
  function Join(parts: seq<string>, sep: char): string
    decreases |parts|
  {
    if parts == [] then ""
    else if |parts| == 1 then parts[0]
    else parts[0] + [sep] + Join(parts[1..], sep)
  }

  /** No part of a split holds the separator. */
  lemma {:induction false} SplitPartsHaveNoSeparator(s: string, sep: char)
    ensures forall i :: 0 <= i < |Split(s, sep)| ==> sep !in Split(s, sep)[i]
    decreases |s|
  {
    if s != [] {
      SplitPartsHaveNoSeparator(s[1..], sep);
    }
  }

  /** Joining a list that starts with `head`. */
  lemma JoinCons(head: string, rest: seq<string>, sep: char)
    ensures Join([head] + rest, sep) == if rest == [] then head else head + [sep] + Join(rest, sep)
  {
    assert ([head] + rest)[1..] == rest;
  }

  /** A string is its first character followed by the rest. */
  lemma FirstAndRest(s: string)
    requires s != []
    ensures [s[0]] + s[1..] == s
  {
  }

  /** Joining the parts of a split gives the original string back. */
  lemma {:induction false} JoinSplit(s: string, sep: char)
    ensures Join(Split(s, sep), sep) == s
    decreases |s|
  {
    if s != [] {
      var rest := Split(s[1..], sep);
      JoinSplit(s[1..], sep);
      FirstAndRest(s);
      if s[0] == sep {
        JoinCons("", rest, sep);
      } else {
        JoinCons([s[0]] + rest[0], rest[1..], sep);
        JoinCons(rest[0], rest[1..], sep);
        assert [rest[0]] + rest[1..] == rest;
      }
    }
  }

  predicate IsDigit(c: char) {
    '0' <= c <= '9'
  }

  function DigitChar(d: nat): (c: char)
    requires d < 10
    ensures IsDigit(c)
  {
    ('0' as int + d) as char
  }

  function DigitValue(c: char): (d: nat)
    requires IsDigit(c)
    ensures d < 10 && DigitChar(d) == c
  {
    (c as int - '0' as int)
  }

  /** The decimal digits of `n`, without leading zeros. */
  function NatToString(n: nat): (s: string)
    ensures s != [] && forall i :: 0 <= i < |s| ==> IsDigit(s[i])
    decreases n
  {
    if n < 10 then [DigitChar(n)] else NatToString(n / 10) + [DigitChar(n % 10)]
  }

  /** `'' + n` for an integer `n`. */
  function IntToString(n: int): (s: string)
    ensures s != [] && forall i :: 0 <= i < |s| ==> IsDigit(s[i]) || s[i] == '-'
  {
    if n < 0 then "-" + NatToString(-n) else NatToString(n)
  }

  /** The value of a string of decimal digits. */
  function DigitsValue(s: string): nat
    requires forall i :: 0 <= i < |s| ==> IsDigit(s[i])
    decreases |s|
  {
    if s == [] then 0 else DigitsValue(s[..|s| - 1]) * 10 + DigitValue(s[|s| - 1])
  }

  /** The end of the run of decimal digits that starts at `from`. */
  function DigitsEnd(s: string, from: nat): (n: nat)
    requires from <= |s|
    ensures from <= n <= |s|
    ensures forall k :: from <= k < n ==> IsDigit(s[k])
    ensures n < |s| ==> !IsDigit(s[n])
    decreases |s| - from
  {
    if from < |s| && IsDigit(s[from]) then DigitsEnd(s, from + 1) else from
  }

  /** The longest prefix of `s` made of decimal digits. */
  function LeadingDigits(s: string): (d: string)
    ensures |d| <= |s| && d == s[..|d|]
    ensures forall i :: 0 <= i < |d| ==> IsDigit(d[i])
    ensures |d| < |s| ==> !IsDigit(s[|d|])
  {
    s[..DigitsEnd(s, 0)]
  }

  /** The white space `parseInt` skips at the start of its argument. */
  predicate IsSpace(c: char) {
    c == ' ' || c == '\t' || c == '\n' || c == '\r' || c == '\U{000B}' || c == '\U{000C}'
  }

  /** The end of the run of white space that starts at `from`. */
  function SpacesEnd(s: string, from: nat): (n: nat)
    requires from <= |s|
    ensures from <= n <= |s|
    ensures forall k :: from <= k < n ==> IsSpace(s[k])
    ensures n < |s| ==> !IsSpace(s[n])
    decreases |s| - from
  {
    if from < |s| && IsSpace(s[from]) then SpacesEnd(s, from + 1) else from
  }

  /** `s` without its leading white space. */
  function TrimStart(s: string): (r: string)
    ensures |r| <= |s| && r == s[|s| - |r|..]
    ensures r != [] ==> !IsSpace(r[0])
  {
    s[SpacesEnd(s, 0)..]
  }

  /** Some character of `s` is a decimal digit. */
  predicate HasDigit(s: string) {
    exists k :: 0 <= k < |s| && IsDigit(s[k])
  }

  /**
   * `parseInt(s)` in base ten: skips leading white space, reads an optional
   * sign and then as many decimal digits as there are; `None` stands for
   * `NaN`, the result when no digit follows.
   */
  function ParseInt(s: string): Option<int> {
    ParseSigned(TrimStart(s))
  }

  /** `parseInt` gives a number only for a string that holds a digit: otherwise `NaN`. */
  lemma ParseIntNeedsDigit(s: string)
    ensures ParseInt(s).Some? ==> HasDigit(s)
  {
    var t := TrimStart(s);
    if ParseInt(s).Some? {
      var at := if t[0] == '-' || t[0] == '+' then 1 else 0;
      assert IsDigit(t[at]) && t[at] == s[|s| - |t| + at];
    }
  }

  /** An optional sign followed by digits. */
  function ParseSigned(t: string): Option<int> {
    if t != [] && t[0] == '-' then
      match ParseDigits(t[1..])
      case None => None
      case Some(v) => Some(-v)
    else if t != [] && t[0] == '+' then ParseDigits(t[1..])
    else ParseDigits(t)
  }

  /** The value of the leading digits, `None` when there is none. */
  function ParseDigits(u: string): Option<int> {
    var digits := LeadingDigits(u);
    if digits == [] then None else Some(DigitsValue(digits))
  }

  lemma {:induction false} DigitsValueOfNatToString(n: nat)
    ensures DigitsValue(NatToString(n)) == n
    decreases n
  {
    var s := NatToString(n);
    if n >= 10 {
      DigitsValueOfNatToString(n / 10);
      assert s[..|s| - 1] == NatToString(n / 10);
    }
  }

  lemma LeadingDigitsOfDigits(s: string)
    requires forall i :: 0 <= i < |s| ==> IsDigit(s[i])
    ensures LeadingDigits(s) == s
  {
    assert DigitsEnd(s, 0) == |s|;
  }

  lemma TrimStartOfNonSpace(s: string)
    requires s != [] && !IsSpace(s[0])
    ensures TrimStart(s) == s
  {
    assert SpacesEnd(s, 0) == 0;
  }

  lemma ParseDigitsOfDigits(d: string)
    requires d != [] && forall i :: 0 <= i < |d| ==> IsDigit(d[i])
    ensures ParseDigits(d) == Some(DigitsValue(d))
  {
    LeadingDigitsOfDigits(d);
  }

  /** `parseInt` of a sign-less run of digits is its value. */
  lemma ParseIntOfDigits(d: string)
    requires d != [] && forall i :: 0 <= i < |d| ==> IsDigit(d[i])
    ensures ParseInt(d) == Some(DigitsValue(d))
  {
    assert IsDigit(d[0]);
    TrimStartOfNonSpace(d);
    assert d[0] != '-' && d[0] != '+';
    assert ParseSigned(d) == ParseDigits(d);
    ParseDigitsOfDigits(d);
  }

  /** `parseInt` of a minus sign followed by digits is the negated value. */
  lemma ParseIntOfNegativeDigits(d: string)
    requires d != [] && forall i :: 0 <= i < |d| ==> IsDigit(d[i])
    ensures ParseInt("-" + d) == Some(-(DigitsValue(d) as int))
  {
    TrimStartOfNonSpace("-" + d);
    ParseSignedMinus(d);
  }

  lemma ParseSignedMinus(d: string)
    requires d != [] && forall i :: 0 <= i < |d| ==> IsDigit(d[i])
    ensures ParseSigned("-" + d) == Some(-(DigitsValue(d) as int))
  {
    var s := "-" + d;
    assert s[0] == '-' && s[1..] == d;
    ParseDigitsOfDigits(d);
  }

  /** `parseInt` reads back the digits of a natural number. */
  lemma ParseIntOfNatToString(n: nat)
    ensures ParseInt(NatToString(n)) == Some(n)
  {
    ParseIntOfDigits(NatToString(n));
    DigitsValueOfNatToString(n);
  }

  /** `parseInt` reads back a minus sign followed by the digits of a positive number. */
  lemma ParseIntOfNegatedNatToString(m: nat)
    ensures ParseInt("-" + NatToString(m)) == Some(-(m as int))
  {
    DigitsValueOfNatToString(m);
    ParseIntOfNegativeDigits(NatToString(m));
  }

  /** `parseInt` reads back every integer that `'' + n` writes. */
  lemma ParseIntOfIntToString(n: int)
    ensures ParseInt(IntToString(n)) == Some(n)
  {
    if n < 0 {
      ParseIntOfNegatedNatToString(-n);
      assert IntToString(n) == "-" + NatToString(-n);
    } else {
      ParseIntOfNatToString(n);
      assert IntToString(n) == NatToString(n);
    }
  }

}
