/** Character classes and string helpers shared by the components: the JavaScript
    regular-expression classes `\d`, `[A-Za-z]` and `\s`, `String.prototype.toUpperCase`
    restricted to ASCII, and `String.prototype.includes`. */
module Text {

  /** `\d` in a JavaScript regular expression without the `u` flag: ASCII digits only. */
  predicate IsDigit(c: char) {
    '0' <= c <= '9'
  }

  /** `[A-Za-z]`. */
  predicate IsAsciiLetter(c: char) {
    ('A' <= c <= 'Z') || ('a' <= c <= 'z')
  }

  /** `\s` in a JavaScript regular expression: the WhiteSpace and LineTerminator code points
      of ECMAScript (which are also the characters `String.prototype.trim` removes). */
  predicate IsSpace(c: char) {
    c == '\t' || c == '\n' || c == '\U{000B}' || c == '\U{000C}' || c == '\r' || c == ' ' ||
    c == '\U{00A0}' || c == '\U{1680}' || ('\U{2000}' <= c <= '\U{200A}') ||
    c == '\U{2028}' || c == '\U{2029}' || c == '\U{202F}' || c == '\U{205F}' ||
    c == '\U{3000}' || c == '\U{FEFF}'
  }

  /** Upper-casing of one character, on the ASCII range. */
  function UpperChar(c: char): (u: char)
    ensures 'a' <= c <= 'z' ==> 'A' <= u <= 'Z' && u as int == c as int - 32
    ensures !('a' <= c <= 'z') ==> u == c
  {
    if 'a' <= c <= 'z' then (c as int - 32) as char else c
  }

  /** `s.toUpperCase()` on ASCII text. */
  function Upper(s: string): (u: string)
    ensures |u| == |s|
    ensures forall i :: 0 <= i < |s| ==> u[i] == UpperChar(s[i])
  {
    seq(|s|, i requires 0 <= i < |s| => UpperChar(s[i]))
  }

  /** `part` occurs in `s` at position `i`. */
  predicate OccursAt(s: string, part: string, i: int) {
    0 <= i <= |s| - |part| && s[i..i + |part|] == part
  }

  /** `s.includes(part)`, scanning from the left: `part` occurs in `s` at some position. */
  predicate Contains(s: string, part: string)
    ensures Contains(s, part) <==> exists i :: OccursAt(s, part, i)
    decreases |s|
  {
    if part <= s then
      assert OccursAt(s, part, 0);
      true
    else if s == [] then false
    else
      OccursShifted(s, part);
      Contains(s[1..], part)
  }

  /** Past a first position where `part` does not start, its occurrences are those in the rest. */
  lemma OccursShifted(s: string, part: string)
    requires s != [] && !(part <= s)
    ensures (exists i :: OccursAt(s, part, i)) <==> (exists j :: OccursAt(s[1..], part, j))
  {
    if exists i :: OccursAt(s, part, i) {
      var i :| OccursAt(s, part, i);
      assert i != 0;
      assert s[1..][i - 1..i - 1 + |part|] == s[i..i + |part|];
      assert OccursAt(s[1..], part, i - 1);
    }
    if exists j :: OccursAt(s[1..], part, j) {
      var j :| OccursAt(s[1..], part, j);
      assert s[1..][j..j + |part|] == s[j + 1..j + 1 + |part|];
      assert OccursAt(s, part, j + 1);
    }
  }

  /** The value of a string of decimal digits. */
  function DigitsValue(r: string): nat
    requires forall i :: 0 <= i < |r| ==> IsDigit(r[i])
  {
    if r == [] then 0
    else
      assert IsDigit(r[|r| - 1]);
      10 * DigitsValue(r[..|r| - 1]) + (r[|r| - 1] as int - '0' as int)
  }

  /** Decimal rendering of a natural number, as a template literal `${n}` prints it: the digits
      of `n`, without leading zeros. */
  function Decimal(n: nat): (r: string)
    ensures |r| > 0 && forall i :: 0 <= i < |r| ==> IsDigit(r[i])
    ensures DigitsValue(r) == n
    ensures r[0] != '0' || r == "0"
  {
    var d := ['0' + (n % 10) as char];
    if n < 10 then d
    else
      var r := Decimal(n / 10) + d;
      assert r[..|r| - 1] == Decimal(n / 10);
      r
  }
}
