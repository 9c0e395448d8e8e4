/**
 * Character case as the client code uses it (`String.prototype.toUpperCase`),
 * restricted to ASCII letters.
 */
module Text {

  predicate IsLower(c: char)
  {
    'a' <= c <= 'z'
  }

  /** The upper-case form of one character: `a`..`z` become `A`..`Z`, everything else is kept. */
  function UpperChar(c: char): (r: char)
    ensures IsLower(c) ==> 'A' <= r <= 'Z' && r as int == c as int - 32
    ensures !IsLower(c) ==> r == c
  {
    if IsLower(c) then (c as int - 32) as char else c
  }

  /** `s.toUpperCase()`: every character upper-cased in place, so the length is kept. */
  function Upper(s: string): (r: string)
    ensures |r| == |s|
    ensures forall i :: 0 <= i < |s| ==> r[i] == UpperChar(s[i])
  {
    seq(|s|, i requires 0 <= i < |s| => UpperChar(s[i]))
  }
}
