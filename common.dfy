/** Small helpers shared by the modules of the model: an optional value, the
    JavaScript `\s` character class, JavaScript's `||` default on numbers and
    strings, and a random index below `n`. */
module Common {

  datatype Option<+T> = None | Some(value: T)

  /** JavaScript's `\s` class (also the set `String.prototype.trim` removes):
      the ECMAScript WhiteSpace and LineTerminator code points. */
  predicate IsSpace(c: char) {
    c == ' ' || c == '\t' || c == '\n' || c == '\r' || c == '\U{B}' || c == '\U{C}'
    || c == '\U{A0}' || c == '\U{1680}' || ('\U{2000}' <= c <= '\U{200A}')
    || c == '\U{2028}' || c == '\U{2029}' || c == '\U{202F}' || c == '\U{205F}'
    || c == '\U{3000}' || c == '\U{FEFF}'
  }

  /** `x || d` for a number: a missing field and 0 are both falsy. */
  function OrInt(x: int, d: int): (r: int)
    ensures x != 0 ==> r == x
    ensures x == 0 ==> r == d
  {
    if x == 0 then d else x
  }

  /** `s || d` for a string: a missing field and "" are both falsy. */
  function OrStr(s: string, d: string): (r: string)
    ensures s != "" ==> r == s
    ensures s == "" ==> r == d
  {
    if s == "" then d else s
  }

  function Max(a: int, b: int): (r: int)
    ensures r >= a && r >= b && (r == a || r == b)
  {
    if a >= b then a else b
  }

  function Min(a: int, b: int): (r: int)
    ensures r <= a && r <= b && (r == a || r == b)
  {
    if a <= b then a else b
  }

  /** The floor of `roll * n`, where `roll` is a draw of the random generator in [0, 1). */
  function RandomIndex(roll: real, n: nat): (i: nat)
    requires 0.0 <= roll < 1.0
    requires n > 0
    ensures i < n
  {
    var x := roll * n as real;
    assert 0.0 <= x < n as real;
    x.Floor
  }

  /** `Math.round(x)`: the nearest integer, halves rounded up. */
  function Round(x: real): (r: int)
    ensures r as real - 0.5 <= x < r as real + 0.5
  {
    (x + 0.5).Floor
  }

  /** The decimal text of a digit, as `${i}` prints it for 0 <= i < 10. */
  function DigitText(i: nat): (s: string)
    requires i < 10
    ensures |s| == 1 && '0' <= s[0] <= '9'
  {
    [('0' as int + i) as char]
  }
}
