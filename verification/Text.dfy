/** Text cells: the machine stores every value as a string. This module holds the number
    reading and printing of the C++ library calls that the emulator relies on. */
module Wrappers {
  datatype Option<+T> = None | Some(value: T)
}

module Text {
  import opened Wrappers

  const INT_MIN: int := -0x8000_0000
  const INT_MAX: int := 0x7fff_ffff

  /** The range of the C++ type `int`. */
  predicate InInt(n: int) {
    INT_MIN <= n <= INT_MAX
  }

  predicate IsSpace(c: char) {
    c == ' ' || c == '\t' || c == '\n' || c == '\r' || c == '\U{000B}' || c == '\U{000C}'
  }

  predicate IsDigit(c: char) {
    '0' <= c <= '9'
  }

  function DigitValue(c: char): (d: nat)
    requires IsDigit(c)
    ensures d < 10
  {
    c as int - '0' as int
  }

  function DigitChar(d: nat): (c: char)
    requires d < 10
    ensures IsDigit(c) && DigitValue(c) == d
  {
    ('0' as int + d) as char
  }

  ghost predicate AllDigits(s: string) {
    forall i :: 0 <= i < |s| ==> IsDigit(s[i])
  }

  /** What `std::to_string` prints for a non-negative number. */
  function PrintNat(n: nat): (s: string)
    ensures |s| > 0 && AllDigits(s)
  {
    if n < 10 then [DigitChar(n)] else PrintNat(n / 10) + [DigitChar(n % 10)]
  }

  function PrintInt(n: int): (s: string)
    ensures |s| > 0
  {
    if n < 0 then "-" + PrintNat(-n) else PrintNat(n)
  }

  function SkipSpaces(s: string): (t: string)
    ensures |t| <= |s|
  {
    if s != "" && IsSpace(s[0]) then SkipSpaces(s[1..]) else s
  }

  ghost predicate DigitsUpTo(s: string, n: nat) {
    n <= |s| && AllDigits(s[..n])
  }

  /** The number of leading digits of `s`. */
  function DigitRun(s: string): (n: nat)
    ensures n <= |s| && DigitsUpTo(s, n)
    ensures n < |s| ==> !IsDigit(s[n])
  {
    if s != "" && IsDigit(s[0]) then 1 + DigitRun(s[1..]) else 0
  }

  function NatOf(s: string): nat
    requires AllDigits(s)
  {
    if s == "" then 0 else NatOf(s[..|s| - 1]) * 10 + DigitValue(s[|s| - 1])
  }

  /** Reads a number and returns it with the text behind it: leading white space, an optional
      sign, at least one digit, and a value in the range of `int`. `None` is the failure of
      `stream >> int` and the exception of `std::stoi`. */
  function ReadInt(s: string): Option<(int, string)> {
    var t := SkipSpaces(s);
    var u := if t != "" && (t[0] == '-' || t[0] == '+') then t[1..] else t;
    var k := DigitRun(u);
    if k == 0 then None
    else
      var magnitude: int := NatOf(u[..k]);
      var v := if t[0] == '-' then -magnitude else magnitude;
      if InInt(v) then Some((v, u[k..])) else None
  }

  function Stoi(s: string): Option<int> {
    match ReadInt(s)
    case None => None
    case Some(r) => Some(r.0)
  }

  lemma StoiInInt(s: string)
    ensures Stoi(s).Some? ==> InInt(Stoi(s).value)
  {
  }

  lemma {:induction false} PrintNatValue(n: nat)
    ensures NatOf(PrintNat(n)) == n
  {
    if n < 10 {
      assert PrintNat(n)[..0] == "";
    } else {
      PrintNatValue(n / 10);
      var p := PrintNat(n);
      assert p[..|p| - 1] == PrintNat(n / 10);
    }
  }

  lemma {:induction false} DigitRunOfDigits(d: string, rest: string)
    requires AllDigits(d) && (rest == "" || !IsDigit(rest[0]))
    ensures DigitRun(d + rest) == |d|
  {
    if d == "" {
      assert d + rest == rest;
    } else {
      assert (d + rest)[1..] == d[1..] + rest;
      DigitRunOfDigits(d[1..], rest);
    }
  }

  function SignedValue(neg: bool, d: string): int
    requires AllDigits(d)
  {
    var n: int := NatOf(d);
    if neg then -n else n
  }

  lemma SkipNothing(s: string)
    requires s == "" || !IsSpace(s[0])
    ensures SkipSpaces(s) == s
  {
  }

  /** A sign and digits are read as their value, and the text behind them is kept. */
  lemma ReadSigned(neg: bool, d: string, rest: string)
    requires d != "" && AllDigits(d) && (rest == "" || !IsDigit(rest[0]))
    ensures var v := SignedValue(neg, d);
            ReadInt((if neg then "-" + d else d) + rest) == if InInt(v) then Some((v, rest)) else None
  {
    hide NatOf, SkipSpaces;
    var s := (if neg then "-" + d else d) + rest;
    assert s[0] == if neg then '-' else d[0];
    SkipNothing(s);
    var u := if neg then s[1..] else s;
    assert u == d + rest;
    DigitRunOfDigits(d, rest);
    assert u[..|d|] == d && u[|d|..] == rest;
  }

  /** Number printing and reading are inverse, whatever non-digit text follows the number. */
  lemma ReadPrinted(n: int, rest: string)
    requires InInt(n) && (rest == "" || !IsDigit(rest[0]))
    ensures ReadInt(PrintInt(n) + rest) == Some((n, rest))
    ensures Stoi(PrintInt(n) + rest) == Some(n)
  {
    hide ReadInt, PrintNat, NatOf;
    var a := if n < 0 then -n else n;
    PrintNatValue(a);
    ReadSigned(n < 0, PrintNat(a), rest);
  }

  lemma StoiPrint(n: int)
    requires InInt(n)
    ensures Stoi(PrintInt(n)) == Some(n)
    ensures PrintInt(n) != ""
    ensures n != 0 ==> PrintInt(n) != "0"
  {
    assert PrintInt(n) + "" == PrintInt(n);
    ReadPrinted(n, "");
    if PrintInt(n) == "0" {
      assert PrintInt(0) == "0";
      assert PrintInt(0) + "" == "0";
      ReadPrinted(0, "");
    }
  }

  lemma PrintInjective(a: int, b: int)
    requires InInt(a) && InInt(b) && PrintInt(a) == PrintInt(b)
    ensures a == b
  {
    StoiPrint(a);
    StoiPrint(b);
  }

  /** A printed number holds digits and at most a leading minus sign: no blank, no `*`, `@`, `#`. */
  lemma PrintChars(n: int)
    ensures forall i :: 0 <= i < |PrintInt(n)| ==> IsDigit(PrintInt(n)[i]) || PrintInt(n)[i] == '-'
  {
  }

  function NonSpaceRun(s: string): (n: nat)
    ensures n <= |s|
    ensures forall i :: 0 <= i < n ==> !IsSpace(s[i])
    ensures n < |s| ==> IsSpace(s[n])
  {
    if s != "" && !IsSpace(s[0]) then 1 + NonSpaceRun(s[1..]) else 0
  }

  /** `stream >> string`: the next blank-free token and the text behind it. */
  function ReadToken(s: string): Option<(string, string)> {
    var t := SkipSpaces(s);
    var k := NonSpaceRun(t);
    if k == 0 then None else Some((t[..k], t[k..]))
  }

  lemma {:induction false} NonSpaceRunOf(w: string, rest: string)
    requires forall i :: 0 <= i < |w| ==> !IsSpace(w[i])
    requires rest == "" || IsSpace(rest[0])
    ensures NonSpaceRun(w + rest) == |w|
  {
    if w == "" {
      assert w + rest == rest;
    } else {
      assert (w + rest)[1..] == w[1..] + rest;
      NonSpaceRunOf(w[1..], rest);
    }
  }

  /** A blank, then a token: the token is read back and what follows it is kept. */
  lemma ReadTokenOf(w: string, rest: string)
    requires w != "" && forall i :: 0 <= i < |w| ==> !IsSpace(w[i])
    requires rest == "" || IsSpace(rest[0])
    ensures ReadToken(" " + w + rest) == Some((w, rest))
  {
    assert (" " + w + rest)[1..] == w + rest;
    assert SkipSpaces(w + rest) == w + rest;
    NonSpaceRunOf(w, rest);
    assert (w + rest)[..|w|] == w && (w + rest)[|w|..] == rest;
  }

  // ---- What is a number ----

  predicate IsWhite(space: string) {
    forall i :: 0 <= i < |space| ==> space[i] in {' ', '\t', '\n', '\r', '\U{000B}', '\U{000C}'}
  }

  predicate IsDigits(d: string) {
    d != "" && forall i :: 0 <= i < |d| ==> '0' <= d[i] <= '9'
  }

  /** White space, an optional sign, digits, and a text that does not go on with a digit. */
  ghost predicate NumberAt(s: string, space: string, sign: string, d: string, rest: string) {
    && s == space + sign + d + rest && IsWhite(space) && sign in {"", "+", "-"} && IsDigits(d)
    && (rest == "" || !('0' <= rest[0] <= '9'))
  }

  lemma {:induction false} SkipAll(space: string, t: string)
    requires IsWhite(space) && (t == "" || !IsSpace(t[0]))
    ensures SkipSpaces(space + t) == t
  {
    if space == "" {
      assert space + t == t;
      SkipNothing(t);
    } else {
      assert IsSpace(space[0]) && (space + t)[1..] == space[1..] + t;
      SkipAll(space[1..], t);
    }
  }

  /** A leading plus sign is dropped. */
  lemma ReadPlus(d: string, rest: string)
    requires d != "" && AllDigits(d) && (rest == "" || !IsDigit(rest[0]))
    ensures ReadInt("+" + d + rest) == ReadInt(d + rest)
  {
    hide NatOf, SkipSpaces;
    var s, u := "+" + d + rest, d + rest;
    SkipNothing(s);
    SkipNothing(u);
    assert s[1..] == u && s[0] == '+' && IsDigit(u[0]);
  }

  /** A text of that form is read as its value, if the value is in range. */
  lemma NumberIsRead(s: string, space: string, sign: string, d: string, rest: string)
    requires NumberAt(s, space, sign, d, rest)
    ensures AllDigits(d)
    ensures var v := SignedValue(sign == "-", d);
            ReadInt(s) == if InInt(v) then Some((v, rest)) else None
  {
    hide NatOf, SkipSpaces, ReadInt, SignedValue;
    var t := sign + d + rest;
    assert s == space + t;
    assert t[0] == if sign == "" then d[0] else sign[0];
    SkipAll(space, t);
    SkipNothing(t);
    SameSkipped(s, t);
    assert sign == "" ==> t == d + rest;
    if sign == "+" {
      ReadPlus(d, rest);
    }
    ReadSigned(sign == "-", d, rest);
  }

  lemma SameSkipped(s: string, t: string)
    requires SkipSpaces(s) == SkipSpaces(t)
    ensures ReadInt(s) == ReadInt(t)
  {
  }

  lemma {:induction false} SpacesSkipped(s: string) returns (space: string)
    ensures s == space + SkipSpaces(s) && IsWhite(space)
    ensures SkipSpaces(s) == "" || !IsSpace(SkipSpaces(s)[0])
  {
    if s != "" && IsSpace(s[0]) {
      var more := SpacesSkipped(s[1..]);
      space := [s[0]] + more;
    } else {
      space := "";
    }
  }

  /** The leading digits and the rest. */
  lemma DigitsSplit(u: string) returns (d: string, rest: string)
    ensures u == d + rest && |d| == DigitRun(u)
    ensures (d != "" ==> IsDigits(d)) && (rest == "" || !IsDigit(rest[0]))
  {
    var k := DigitRun(u);
    assert DigitsUpTo(u, k);
    d, rest := u[..k], u[k..];
    assert AllDigits(d);
  }

  lemma DigitsAreNeeded(t: string, u: string)
    requires SkipSpaces(t) == t && u == if t != "" && (t[0] == '-' || t[0] == '+') then t[1..] else t
    ensures ReadInt(t).Some? ==> DigitRun(u) > 0
  {
    hide NatOf, SkipSpaces, DigitRun;
  }

  lemma SignSplits(t: string) returns (sign: string, d: string, rest: string)
    requires SkipSpaces(t) == t
    ensures ReadInt(t).Some? ==> NumberAt(t, "", sign, d, rest)
  {
    hide SkipSpaces, DigitRun, IsDigits, ReadInt;
    sign := if t != "" && (t[0] == '-' || t[0] == '+') then [t[0]] else "";
    var u := if sign != "" then t[1..] else t;
    assert t == sign + u;
    d, rest := DigitsSplit(u);
    DigitsAreNeeded(t, u);
    assert "" + sign + d + rest == sign + (d + rest) == t;
  }

  /** Only a text of that form is read as a number. */
  lemma OnlyNumbersAreRead(s: string) returns (space: string, sign: string, d: string, rest: string)
    ensures ReadInt(s).Some? ==> NumberAt(s, space, sign, d, rest)
  {
    hide SkipSpaces, ReadInt, IsDigits;
    space := SpacesSkipped(s);
    var t := SkipSpaces(s);
    SkipNothing(t);
    SameSkipped(s, t);
    sign, d, rest := SignSplits(t);
    assert ReadInt(s).Some? ==> space + (sign + d + rest) == space + sign + d + rest && "" + sign == sign;
  }

  /** The text begins with a number of this value. */
  ghost predicate ReadsAs(s: string, v: int) {
    InInt(v) && exists space, sign, d, rest :: IsValueOf(s, v, space, sign, d, rest)
  }

  ghost predicate IsValueOf(s: string, v: int, space: string, sign: string, d: string, rest: string) {
    NumberAt(s, space, sign, d, rest) && AllDigits(d) && v == SignedValue(sign == "-", d)
  }

  /** The conversion gives a value exactly for the texts that begin with a number in range. */
  lemma StoiIff(s: string, v: int)
    ensures Stoi(s) == Some(v) <==> ReadsAs(s, v)
  {
    hide ReadInt, NumberAt, SignedValue;
    var space, sign, d, rest := OnlyNumbersAreRead(s);
    if Stoi(s) == Some(v) {
      NumberIsRead(s, space, sign, d, rest);
      assert IsValueOf(s, v, space, sign, d, rest);
    }
    if ReadsAs(s, v) {
      var a, b, c, e :| IsValueOf(s, v, a, b, c, e);
      NumberIsRead(s, a, b, c, e);
    }
  }

  /** The digits count tens: one more digit makes ten times the value and the digit's own. */
  lemma DigitsCount(d: string, c: char)
    requires AllDigits(d) && '0' <= c <= '9'
    ensures AllDigits(d + [c])
    ensures NatOf(d + [c]) == 10 * NatOf(d) + (c as int - 48) && NatOf("") == 0
  {
    assert (d + [c])[..|d|] == d;
  }
}
