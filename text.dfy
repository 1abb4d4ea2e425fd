/**
 * Character and string helpers shared by the server and the browser code:
 * decimal printing and parsing of integers, searching, splitting, trimming.
 */
module Text {
  import opened Wrappers

  predicate IsDigit(c: char) { '0' <= c <= '9' }

  predicate AllDigits(s: string) { forall i | 0 <= i < |s| :: IsDigit(s[i]) }

  function DigitValue(c: char): nat
    requires IsDigit(c)
  {
    (c as int) - ('0' as int)
  }

  function DigitChar(d: nat): (c: char)
    requires d < 10
    ensures IsDigit(c) && DigitValue(c) == d
  {
    ((('0' as int) + d) as char)
  }

  /** Value of a string of decimal digits, most significant first. */
  function DigitsValue(s: string): nat
    requires AllDigits(s)
    decreases |s|
  {
    if s == [] then 0 else DigitsValue(s[..|s| - 1]) * 10 + DigitValue(s[|s| - 1])
  }

  /** The decimal text of a natural number, as Python's str() and JavaScript's String() print it. */
  function NatToString(n: nat): (s: string)
    ensures |s| >= 1 && AllDigits(s)
    decreases n
  {
    if n < 10 then [DigitChar(n)] else NatToString(n / 10) + [DigitChar(n % 10)]
  }

  function IntToString(i: int): (s: string)
    ensures |s| >= 1
  {
    if i < 0 then "-" + NatToString(-i) else NatToString(i)
  }

  lemma {:induction false} NatToStringValue(n: nat)
    ensures DigitsValue(NatToString(n)) == n
    decreases n
  {
    if n >= 10 {
      NatToStringValue(n / 10);
      var s := NatToString(n);
      assert s[..|s| - 1] == NatToString(n / 10);
    }
  }

  /** Python's ASCII whitespace, the characters int() strips around its argument. */
  predicate IsPySpace(c: char) {
    c == ' ' || c == '\t' || c == '\n' || c == '\r' || c == '\U{B}' || c == '\U{C}'
  }

  /** JavaScript's WhiteSpace and LineTerminator characters: the class `\s` and what trim() removes. */
  predicate IsJsSpace(c: char) {
    IsPySpace(c) || c == '\U{A0}' || c == '\U{1680}' || ('\U{2000}' <= c <= '\U{200A}')
    || c == '\U{2028}' || c == '\U{2029}' || c == '\U{202F}' || c == '\U{205F}'
    || c == '\U{3000}' || c == '\U{FEFF}'
  }

  function TrimLeft(s: string, space: char -> bool): (r: string)
    ensures |r| <= |s| && r == s[|s| - |r|..]
    ensures r == [] || !space(r[0])
    ensures forall i | 0 <= i < |s| - |r| :: space(s[i])
  {
    if s != [] && space(s[0]) then TrimLeft(s[1..], space) else s
  }

  function TrimRight(s: string, space: char -> bool): (r: string)
    ensures |r| <= |s| && r == s[..|r|]
    ensures r == [] || !space(r[|r| - 1])
    ensures forall i | |r| <= i < |s| :: space(s[i])
  {
    if s != [] && space(s[|s| - 1]) then TrimRight(s[..|s| - 1], space) else s
  }

  /** String.prototype.trim */
  function JsTrim(s: string): string {
    TrimRight(TrimLeft(s, IsJsSpace), IsJsSpace)
  }

  /** str.strip() with the ASCII whitespace set. */
  function PyStrip(s: string): string {
    TrimRight(TrimLeft(s, IsPySpace), IsPySpace)
  }

  /**
   * Python's int() applied to a str whose characters are ASCII: optional
   * whitespace around an optional sign and decimal digits, single
   * underscores allowed between digits; anything else raises ValueError
   * (None here).
   */
  function ParsePyInt(s: string): (r: Option<int>)
    ensures r.Some? ==> PyStrip(s) != [] && !IsPySpace(PyStrip(s)[0])
  {
    ParseSigned(PyStrip(s))
  }

  /** Digits, with single underscores between two digits: "1_000" but not "_1", "1_" or "1__0". */
  predicate DigitGroups(t: string) {
    && t != [] && IsDigit(t[0]) && IsDigit(t[|t| - 1])
    && (forall i | 0 <= i < |t| :: IsDigit(t[i]) || t[i] == '_')
    && forall i, j | 0 <= i < |t| && 0 <= j < |t| && j == i + 1 :: IsDigit(t[i]) || IsDigit(t[j])
  }

  /** The digits of t, its underscores dropped. */
  function DropUnderscores(t: string): (d: string)
    ensures |d| <= |t|
    ensures (forall i | 0 <= i < |t| :: IsDigit(t[i]) || t[i] == '_') ==> AllDigits(d)
    ensures AllDigits(t) ==> d == t
    decreases |t|
  {
    if t == [] then []
    else DropUnderscores(t[..|t| - 1]) + (if t[|t| - 1] == '_' then [] else [t[|t| - 1]])
  }

  /** The value of digit groups, read with their underscores dropped. */
  function GroupsValue(t: string): (v: nat)
    requires DigitGroups(t)
    ensures AllDigits(t) ==> v == DigitsValue(t)
  {
    DigitsValue(DropUnderscores(t))
  }

  /** Digit groups and their value; None for anything else. */
  function ParseUnsigned(t: string): (r: Option<nat>)
    ensures r.Some? <==> DigitGroups(t)
    ensures AllDigits(t) && t != [] ==> r == Some(DigitsValue(t))
  {
    if DigitGroups(t) then Some(GroupsValue(t)) else None
  }

  /** An optional sign followed by digit groups, nothing else. */
  function ParseSigned(t: string): (r: Option<int>)
    ensures r.Some? ==> t != [] && (t[0] == '-' || t[0] == '+' || IsDigit(t[0]))
    ensures AllDigits(t) && t != [] ==> r == Some(DigitsValue(t))
  {
    if t == [] then None
    else if t[0] == '-' || t[0] == '+' then
      match ParseUnsigned(t[1..])
      case None => None
      case Some(v) => var w: int := v; Some(if t[0] == '-' then -w else w)
    else match ParseUnsigned(t)
      case None => None
      case Some(v) => Some(v)
  }

  /** Dropping the underscore between two runs of digits joins them. */
  lemma {:induction false} DropUnderscoresJoin(a: string, b: string)
    requires AllDigits(a) && AllDigits(b)
    ensures DropUnderscores(a + "_" + b) == a + b
    decreases |b|
  {
    var t := a + "_" + b;
    if b == [] {
      assert t[..|t| - 1] == a;
    } else {
      var b' := b[..|b| - 1];
      DropUnderscoresJoin(a, b');
      assert t[..|t| - 1] == a + "_" + b';
      assert a + b == a + b' + [b[|b| - 1]];
    }
  }

  /** str.strip() leaves a string alone when neither end is whitespace. */
  lemma PyStripKeeps(s: string)
    requires s != [] && !IsPySpace(s[0]) && !IsPySpace(s[|s| - 1])
    ensures PyStrip(s) == s && ParsePyInt(s) == ParseSigned(s)
  {
  }

  lemma DigitGroupsJoin(a: string, b: string)
    requires a != [] && b != [] && AllDigits(a) && AllDigits(b)
    ensures DigitGroups(a + "_" + b)
  {
    var t := a + "_" + b;
    forall i | 0 <= i < |t| ensures IsDigit(t[i]) || t[i] == '_' {
      if i < |a| { assert t[i] == a[i]; }
      else if i > |a| { assert t[i] == b[i - |a| - 1]; }
    }
    forall i, j | 0 <= i < |t| && 0 <= j < |t| && j == i + 1 ensures IsDigit(t[i]) || IsDigit(t[j]) {
      if i < |a| { assert t[i] == a[i]; } else { assert t[j] == b[j - |a| - 1]; }
    }
  }

  lemma AllDigitsJoin(a: string, b: string)
    requires AllDigits(a) && AllDigits(b)
    ensures AllDigits(a + b)
  {
    var u := a + b;
    forall i | 0 <= i < |u| ensures IsDigit(u[i]) {
      if i < |a| { assert u[i] == a[i]; } else { assert u[i] == b[i - |a|]; }
    }
  }

  /** Text that starts and ends with a digit is read by int() as unsigned digit groups. */
  lemma ParsesAsUnsigned(s: string)
    requires s != [] && IsDigit(s[0]) && IsDigit(s[|s| - 1])
    ensures ParsePyInt(s) == ParseUnsigned(s)
  {
    PyStripKeeps(s);
  }

  /** An underscore between digit groups does not change the value: int("1_000") is int("1000"). */
  lemma UnderscoreGroupsParse(a: string, b: string)
    requires a != [] && b != [] && AllDigits(a) && AllDigits(b)
    ensures ParsePyInt(a + "_" + b) == ParsePyInt(a + b) == Some(DigitsValue(a + b))
  {
    var t := a + "_" + b;
    var u := a + b;
    assert t[0] == a[0] && t[|t| - 1] == b[|b| - 1];
    assert u[0] == a[0] && u[|u| - 1] == b[|b| - 1];
    ParsesAsUnsigned(t);
    ParsesAsUnsigned(u);
    DigitGroupsJoin(a, b);
    DropUnderscoresJoin(a, b);
    AllDigitsJoin(a, b);
    assert GroupsValue(t) == DigitsValue(u);
  }

  /** A doubled underscore makes int() raise: int("1__0"). */
  lemma DoubledUnderscoreRejected(a: string, b: string)
    requires a != [] && b != [] && AllDigits(a) && AllDigits(b)
    ensures ParsePyInt(a + "__" + b).None?
  {
    var t := a + "__" + b;
    assert t[0] == a[0] && t[|t| - 1] == b[|b| - 1];
    PyStripKeeps(t);
    assert t[|a|] == '_' && t[|a| + 1] == '_';
    assert !DigitGroups(t);
  }

  /** A leading or a trailing underscore makes int() raise: int("_1"), int("1_"). */
  lemma EdgeUnderscoreRejected(a: string)
    requires a != [] && AllDigits(a)
    ensures ParsePyInt("_" + a).None? && ParsePyInt(a + "_").None?
  {
    var l := "_" + a;
    assert l[0] == '_' && l[|l| - 1] == a[|a| - 1];
    PyStripKeeps(l);
    assert !DigitGroups(l);
    var r := a + "_";
    assert r[0] == a[0] && r[|r| - 1] == '_';
    PyStripKeeps(r);
    assert !DigitGroups(r);
  }

  /** str(n) read back by int() gives n: the identity round trip of the session token. */
  lemma {:induction false} IntToStringParses(n: int)
    ensures ParsePyInt(IntToString(n)) == Some(n)
  {
    NoPySpaceInNumber(n);
    SignedParses(n);
  }

  lemma {:induction false} SignedParses(n: int)
    ensures ParseSigned(IntToString(n)) == Some(n)
  {
    if n < 0 {
      var d := NatToString(-n);
      assert IntToString(n) == "-" + d;
      NegativeParses(d, -n, n);
    } else {
      NatToStringValue(n);
      assert IntToString(n) == NatToString(n);
    }
  }

  lemma NegativeParses(d: string, m: nat, n: int)
    requires d == NatToString(m) && n + m == 0
    ensures ParseSigned("-" + d) == Some(n)
  {
    NatToStringValue(m);
    assert ParseUnsigned(d) == Some(m);
    MinusDigitsParse(d, m, n);
  }

  /** A minus sign before digit groups negates their value. */
  lemma MinusDigitsParse(d: string, v: nat, n: int)
    requires ParseUnsigned(d) == Some(v) && n + v == 0
    ensures ParseSigned("-" + d) == Some(n)
  {
    var s := "-" + d;
    assert s[0] == '-' && s[1..] == d;
  }

  lemma NoPySpaceInNumber(n: int)
    ensures PyStrip(IntToString(n)) == IntToString(n)
  {
    var s := IntToString(n);
    assert !IsPySpace(s[0]);
    assert !IsPySpace(s[|s| - 1]);
  }

  /** Index of the first occurrence of c in s. */
  function IndexOf(s: string, c: char): (r: Option<nat>)
    ensures r.Some? ==> r.value < |s| && s[r.value] == c && c !in s[..r.value]
    ensures r.None? <==> c !in s
  {
    if s == [] then None
    else if s[0] == c then Some(0)
    else match IndexOf(s[1..], c)
      case None => None
      case Some(k) => Some(k + 1)
  }

  /** Index of the last occurrence of c in s. */
  function LastIndexOf(s: string, c: char): (r: Option<nat>)
    ensures r.Some? ==> r.value < |s| && s[r.value] == c && c !in s[r.value + 1..]
    ensures r.None? <==> c !in s
  {
    if s == [] then None
    else if s[|s| - 1] == c then Some(|s| - 1)
    else LastIndexOf(s[..|s| - 1], c)
  }

  /** String.prototype.split and Python's str.split with a one-character separator. */
  function Split(s: string, sep: char): (parts: seq<string>)
    ensures |parts| >= 1
    ensures forall i | 0 <= i < |parts| :: sep !in parts[i]
    decreases |s|
  {
    match IndexOf(s, sep)
    case None => [s]
    case Some(k) => [s[..k]] + Split(s[k + 1..], sep)
  }

  /** Joining the pieces with the separator gives the string back. */
  lemma {:induction false} SplitJoin(s: string, sep: char)
    ensures Join(Split(s, sep), sep) == s
    decreases |s|
  {
    match IndexOf(s, sep)
    case None =>
    case Some(k) =>
      var rest := Split(s[k + 1..], sep);
      var parts := Split(s, sep);
      assert parts == [s[..k]] + rest;
      assert parts[1..] == rest;
      SplitJoin(s[k + 1..], sep);
      assert Join(parts, sep) == s[..k] + [sep] + Join(rest, sep);
      assert s == s[..k] + [sep] + s[k + 1..];
  }

  /** The first separator after a separator-free prefix is the one that follows it. */
  lemma {:induction false} IndexOfAfter(a: string, c: char, b: string)
    requires c !in a
    ensures IndexOf(a + [c] + b, c) == Some(|a|)
    decreases |a|
  {
    if a != [] {
      assert (a + [c] + b)[1..] == a[1..] + [c] + b;
      IndexOfAfter(a[1..], c, b);
    }
  }

  /** Splitting at a separator that follows a separator-free prefix peels that prefix off. */
  lemma SplitAfter(a: string, c: char, b: string)
    requires c !in a
    ensures Split(a + [c] + b, c) == [a] + Split(b, c)
  {
    IndexOfAfter(a, c, b);
    var s := a + [c] + b;
    assert s[..|a|] == a;
    assert s[|a| + 1..] == b;
  }

  /** Two separator-free pieces joined by the separator split back into exactly those two. */
  lemma SplitTwo(a: string, c: char, b: string)
    requires c !in a && c !in b
    ensures Split(a + [c] + b, c) == [a, b]
  {
    SplitAfter(a, c, b);
    assert IndexOf(b, c) == None;
  }

  /** The first piece of a string that is a separator-free prefix followed by nothing or by a separator. */
  lemma SplitFirst(a: string, c: char, tail: string)
    requires c !in a
    requires tail == [] || tail[0] == c
    ensures Split(a + tail, c)[0] == a
  {
    if tail == [] {
      assert a + tail == a;
      assert IndexOf(a, c) == None;
    } else {
      assert a + tail == a + [c] + tail[1..];
      SplitAfter(a, c, tail[1..]);
    }
  }

  function Join(parts: seq<string>, sep: char): string
    requires |parts| >= 1
  {
    if |parts| == 1 then parts[0] else parts[0] + [sep] + Join(parts[1..], sep)
  }

  predicate StartsWith(s: string, prefix: string) {
    |prefix| <= |s| && s[..|prefix|] == prefix
  }

  /** String.prototype.includes for a non-empty needle. */
  predicate Contains(s: string, needle: string)
    decreases |s|
  {
    StartsWith(s, needle) || (s != [] && Contains(s[1..], needle))
  }

  /** String.prototype.substring(0, n): at most the first n characters. */
  function Take(s: string, n: nat): (r: string)
    ensures |r| == if |s| < n then |s| else n
    ensures StartsWith(s, r)
  {
    if |s| <= n then s else s[..n]
  }

  function LowerAscii(c: char): (l: char)
    ensures 'A' <= c <= 'Z' ==> 'a' <= l <= 'z'
    ensures !('A' <= c <= 'Z') ==> l == c
  {
    if 'A' <= c <= 'Z' then ((c as int) + 32) as char else c
  }

  /** str.lower() and String.prototype.toLowerCase() on ASCII letters. */
  function Lower(s: string): (r: string)
    ensures |r| == |s| && forall i | 0 <= i < |s| :: r[i] == LowerAscii(s[i])
  {
    seq(|s|, i requires 0 <= i < |s| => LowerAscii(s[i]))
  }

  function UpperAscii(c: char): (u: char)
    ensures 'a' <= c <= 'z' ==> 'A' <= u <= 'Z'
    ensures !('a' <= c <= 'z') ==> u == c
  {
    if 'a' <= c <= 'z' then ((c as int) - 32) as char else c
  }

  /** String.prototype.toUpperCase() on ASCII letters. */
  function Upper(s: string): (r: string)
    ensures |r| == |s| && forall i | 0 <= i < |s| :: r[i] == UpperAscii(s[i])
  {
    seq(|s|, i requires 0 <= i < |s| => UpperAscii(s[i]))
  }

  /** String.prototype.replace with a one-character pattern: only the first occurrence changes. */
  function ReplaceFirst(s: string, from: char, to: char): (r: string)
    ensures |r| == |s|
    ensures from !in s ==> r == s
    ensures from in s ==>
      var k := IndexOf(s, from).value;
      r[k] == to && forall i | 0 <= i < |s| && i != k :: r[i] == s[i]
  {
    match IndexOf(s, from)
    case None => s
    case Some(k) => s[..k] + [to] + s[k + 1..]
  }
}
