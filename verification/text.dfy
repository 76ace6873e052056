/**
 * Text helpers standing in for the JavaScript string built-ins the storefront
 * calls: `trim`, `toLowerCase`, `includes`, template-literal number
 * formatting and the decimal reading done by `parseInt`.
 */
module Text {

  // ---------------------------------------------------------------- whitespace

  /** The characters `String.prototype.trim` removes: ECMAScript WhiteSpace
      (TAB, VT, FF, SP, NBSP, ZWNBSP and the Zs space separators) and
      LineTerminator (LF, CR, LS, PS). */
  predicate IsSpace(c: char) {
    || c == '\t' || c == '\U{000B}' || c == '\U{000C}' || c == ' '
    || c == '\U{00A0}' || c == '\U{FEFF}' || c == '\U{1680}'
    || ('\U{2000}' <= c <= '\U{200A}')
    || c == '\U{202F}' || c == '\U{205F}' || c == '\U{3000}'
    || c == '\n' || c == '\r' || c == '\U{2028}' || c == '\U{2029}'
  }

  predicate AllSpace(s: string) {
    forall i :: 0 <= i < |s| ==> IsSpace(s[i])
  }

  /** Leading whitespace removed. */
  function TrimStart(s: string): string {
    if s != [] && IsSpace(s[0]) then TrimStart(s[1..]) else s
  }

  /** Trailing whitespace removed. */
  function TrimEnd(s: string): string {
    if s != [] && IsSpace(s[|s| - 1]) then TrimEnd(s[..|s| - 1]) else s
  }

  /** `TrimStart` drops a prefix made only of whitespace, and what is left
      does not start with whitespace. */
  lemma {:induction false} TrimStartShape(s: string)
    ensures var r := TrimStart(s);
      |r| <= |s| && r == s[|s| - |r|..] && AllSpace(s[..|s| - |r|]) && (r != [] ==> !IsSpace(r[0]))
  {
    if s != [] && IsSpace(s[0]) {
      TrimStartShape(s[1..]);
      var r := TrimStart(s[1..]);
      assert s[..|s| - |r|] == [s[0]] + s[1..][..|s| - 1 - |r|];
    }
  }

  /** `TrimEnd` drops a suffix made only of whitespace, and what is left
      does not end with whitespace. */
  lemma {:induction false} TrimEndShape(s: string)
    ensures var r := TrimEnd(s);
      |r| <= |s| && r == s[..|r|] && AllSpace(s[|r|..]) && (r != [] ==> !IsSpace(r[|r| - 1]))
  {
    if s != [] && IsSpace(s[|s| - 1]) {
      TrimEndShape(s[..|s| - 1]);
      var r := TrimEnd(s[..|s| - 1]);
      assert s[..|s| - 1][|r|..] == s[|r|..|s| - 1];
      assert forall i :: 0 <= i < |s| - |r| - 1 ==> s[|r|..][i] == s[..|s| - 1][|r|..][i];
    }
  }

  /** `s.trim()`. */
  function Trim(s: string): string {
    TrimEnd(TrimStart(s))
  }

  /** `s.trim()` is `s` with whitespace dropped at both ends: a slice of `s`
      that neither starts nor ends with whitespace, with only whitespace
      around it. */
  lemma TrimShape(s: string)
    ensures var r := Trim(s);
      exists i :: 0 <= i <= |s| - |r| && r == s[i..i + |r|] && AllSpace(s[..i]) && AllSpace(s[i + |r|..])
    ensures var r := Trim(s); r == [] || (!IsSpace(r[0]) && !IsSpace(r[|r| - 1]))
  {
    var t := TrimStart(s);
    TrimStartShape(s);
    TrimEndShape(t);
    var r := Trim(s);
    var i := |s| - |t|;
    assert r == t[..|r|];
    assert s[i..i + |r|] == r;
    assert AllSpace(s[i + |r|..]) by {
      assert s[i + |r|..] == t[|r|..];
    }
  }

  /** Trimming a trimmed string changes nothing. */
  lemma TrimIdempotent(s: string)
    ensures Trim(Trim(s)) == Trim(s)
  {
    var r := Trim(s);
    TrimShape(s);
    if r != [] {
      assert TrimStart(r) == r;
      assert TrimEnd(r) == r;
    }
  }

  /** `!s.trim()`: the string is empty once trimmed. */
  predicate IsBlank(s: string) {
    Trim(s) == []
  }

  /** A string is blank exactly when every one of its characters is whitespace. */
  lemma BlankIffAllSpace(s: string)
    ensures IsBlank(s) <==> AllSpace(s)
  {
    var t := TrimStart(s);
    TrimStartShape(s);
    TrimEndShape(t);
    if !AllSpace(s) {
      var i :| 0 <= i < |s| && !IsSpace(s[i]);
      assert i >= |s| - |t|;
      assert t[i - (|s| - |t|)] == s[i];
    }
  }

  // ---------------------------------------------------------------- case folding

  /** `toLowerCase` on one character, for Basic Latin and Latin-1 letters. */
  function LowerChar(c: char): (r: char)
    ensures 'A' <= c <= 'Z' ==> 'a' <= r <= 'z'
    ensures !('A' <= c <= 'Z') && !('\U{00C0}' <= c <= '\U{00DE}') ==> r == c
  {
    if 'A' <= c <= 'Z' || ('\U{00C0}' <= c <= '\U{00DE}' && c != '\U{00D7}')
    then (c as int + 32) as char
    else c
  }

  /** `s.toLowerCase()`. */
  function Lower(s: string): (r: string)
    ensures |r| == |s|
    ensures forall i :: 0 <= i < |s| ==> r[i] == LowerChar(s[i])
  {
    seq(|s|, i requires 0 <= i < |s| => LowerChar(s[i]))
  }

  /** Lowering twice is lowering once: the letters produced are already
      lower-case. */
  lemma LowerIdempotent(s: string)
    ensures Lower(Lower(s)) == Lower(s)
  {
  }

  // ---------------------------------------------------------------- substring search

  /** `s.includes(sub)`: `sub` occurs in `s` at some position. */
  predicate Includes(s: string, sub: string) {
    exists i :: 0 <= i <= |s| - |sub| && OccursAt(s, sub, i)
  }

  predicate OccursAt(s: string, sub: string, i: int)
    requires 0 <= i <= |s| - |sub|
  {
    s[i..i + |sub|] == sub
  }

  /** Every string includes the empty string. */
  lemma IncludesEmpty(s: string)
    ensures Includes(s, "")
  {
    assert OccursAt(s, "", 0);
  }

  // ---------------------------------------------------------------- decimal numbers

  predicate IsDigit(c: char) {
    '0' <= c <= '9'
  }

  predicate AllDigits(s: string) {
    forall i :: 0 <= i < |s| ==> IsDigit(s[i])
  }

  function DigitValue(c: char): (d: nat)
    requires IsDigit(c)
    ensures d < 10
  {
    c as int - '0' as int
  }

  function DigitChar(d: nat): (c: char)
    requires d < 10
    ensures IsDigit(c) && DigitValue(c) == d
  {
    ('0' as int + d) as char
  }

  /** The value of the digits `d[i..]` read left to right after the value `acc`
      of the digits before them, as `parseInt` does. */
  function ValueFrom(d: string, i: nat, acc: nat): nat
    requires AllDigits(d)
    decreases |d| - i
  {
    if i >= |d| then acc else ValueFrom(d, i + 1, acc * 10 + DigitValue(d[i]))
  }

  /** The value of a string of decimal digits. */
  function DecimalValue(d: string): nat
    requires AllDigits(d)
  {
    ValueFrom(d, 0, 0)
  }

  /** The decimal text of a natural number, as a template literal prints it. */
  function NatToString(n: nat): (s: string)
    ensures s != [] && AllDigits(s)
    decreases n
  {
    if n < 10 then [DigitChar(n)] else NatToString(n / 10) + [DigitChar(n % 10)]
  }

  /** The decimal text of an integer, with a leading '-' when negative. */
  function IntToString(n: int): (s: string)
    ensures n >= 0 ==> s == NatToString(n)
    ensures n < 0 ==> s == "-" + NatToString(-n)
  {
    if n >= 0 then NatToString(n) else "-" + NatToString(-n)
  }

  /** Reading further digits continues from the value of those already read. */
  lemma {:induction false} ValueFromAppend(a: string, b: string, i: nat, acc: nat)
    requires AllDigits(a) && AllDigits(b) && i <= |a|
    ensures AllDigits(a + b)
    ensures ValueFrom(a + b, i, acc) == ValueFrom(b, 0, ValueFrom(a, i, acc))
    decreases |a| - i
  {
    assert AllDigits(a + b) by {
      forall k | 0 <= k < |a + b| ensures IsDigit((a + b)[k]) {
        if k < |a| { assert (a + b)[k] == a[k]; } else { assert (a + b)[k] == b[k - |a|]; }
      }
    }
    if i == |a| {
      ValueFromShift(a, b, 0, acc);
    } else {
      assert (a + b)[i] == a[i];
      ValueFromAppend(a, b, i + 1, acc * 10 + DigitValue(a[i]));
    }
  }

  /** Reading `a + b` from position `|a| + j` is reading `b` from `j`. */
  lemma {:induction false} ValueFromShift(a: string, b: string, j: nat, acc: nat)
    requires AllDigits(a + b) && AllDigits(b) && j <= |b|
    ensures ValueFrom(a + b, |a| + j, acc) == ValueFrom(b, j, acc)
    decreases |b| - j
  {
    if j < |b| {
      assert (a + b)[|a| + j] == b[j];
      ValueFromShift(a, b, j + 1, acc * 10 + DigitValue(b[j]));
    }
  }

  /** Round trip: reading back the printed form of a number gives the number. */
  lemma {:induction false} DecimalValueOfNatToString(n: nat)
    ensures DecimalValue(NatToString(n)) == n
    decreases n
  {
    if n >= 10 {
      var a, c := NatToString(n / 10), [DigitChar(n % 10)];
      ValueFromAppend(a, c, 0, 0);
      DecimalValueOfNatToString(n / 10);
      assert NatToString(n) == a + c;
      assert ValueFrom(c, 1, n / 10 * 10 + n % 10) == n / 10 * 10 + n % 10;
      assert ValueFrom(c, 0, n / 10) == n / 10 * 10 + n % 10;
    }
  }
}
