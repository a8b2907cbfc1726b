/** Small shared vocabulary: optional values, results, labelled values and the
    numeric helpers (clip, floor at zero, absolute value, lower-casing) that the
    three Python programs and the web client use. */
module Common {

  datatype Option<+T> = None | Some(value: T)

  datatype Result<+T, +E> = Ok(value: T) | Err(error: E)

  /** One labelled number, such as one entry of a probability table. */
  datatype Entry = Entry(name: string, value: real)

  /** A label encoder's classes: distinct names, indexed by class number. */
  type Classes = c: seq<string> | forall i, j :: 0 <= i < j < |c| ==> c[i] != c[j] witness []

  /** The trigonometric collaborators, measured in whole turns:
      `turnSin(x)` stands for sin(2·π·x) and `turnCos(x)` for cos(2·π·x).
      numpy computes them; the model does not look inside. */
  datatype Trig = Trig(turnSin: real -> real, turnCos: real -> real)

  /** numpy's `clip` of a single value into [lo, hi]. */
  function Clip(x: real, lo: real, hi: real): (r: real)
    requires lo <= hi
    ensures lo <= r <= hi
    ensures lo <= x <= hi ==> r == x
    ensures r != x ==> (x < lo && r == lo) || (hi < x && r == hi)
  {
    if x < lo then lo else if x > hi then hi else x
  }

  /** Python's `max(0.0, x)`. */
  function MaxZero(x: real): (r: real)
    ensures r >= 0.0 && r >= x
    ensures x >= 0.0 ==> r == x
  {
    if x < 0.0 then 0.0 else x
  }

  /** numpy's `abs` on one value. */
  function Abs(x: real): (r: real)
    ensures r >= 0.0 && (r == x || r == -x)
  {
    if x < 0.0 then -x else x
  }

  /** Lower-casing of one character; only the ASCII letters change. */
  function LowerChar(c: char): char
  {
    if 'A' <= c <= 'Z' then (c as int + 32) as char else c
  }

  /** Python's `str.lower`, restricted to ASCII case mapping: no capital
      letter is left, each capital becomes its small letter, and every other
      character stays as it was. */
  function Lower(s: string): (r: string)
    ensures |r| == |s|
    ensures forall i :: 0 <= i < |r| ==> !('A' <= r[i] <= 'Z')
    ensures forall i :: 0 <= i < |s| && 'A' <= s[i] <= 'Z' ==> r[i] as int - 'a' as int == s[i] as int - 'A' as int
    ensures forall i :: 0 <= i < |s| && !('A' <= s[i] <= 'Z') ==> r[i] == s[i]
  {
    seq(|s|, i requires 0 <= i < |s| => LowerChar(s[i]))
  }

  /** Lower-casing twice is lower-casing once, so a lower-cased alias list is
      closed under the guard's own normalisation. */
  lemma LowerIdempotent(s: string)
    ensures Lower(Lower(s)) == Lower(s)
  {
    assert forall i :: 0 <= i < |s| ==> LowerChar(LowerChar(s[i])) == LowerChar(s[i]);
  }
}
