/** Hexadecimal digits: read in either case, written in the case asked for. */
module Hex {

  const DIGITS := "0123456789abcdef"

  const CAPITALS := "0123456789ABCDEF"

  predicate IsHex(c: char) { '0' <= c <= '9' || 'a' <= c <= 'f' || 'A' <= c <= 'F' }

  function Value(c: char): (v: nat)
    requires IsHex(c)
    ensures v < 16
  {
    if c <= '9' then (c - '0') as int else if c <= 'F' then (c - 'A') as int + 10 else (c - 'a') as int + 10
  }

  /** The digit of v, its letters counted from a. */
  function Digit(v: nat, a: char): (c: char)
    requires v < 16 && (a == 'a' || a == 'A')
    ensures IsHex(c) && Value(c) == v
  {
    if v < 10 then '0' + v as char else a + (v - 10) as char
  }

  lemma DigitText(v: nat)
    requires v < 16
    ensures Digit(v, 'a') == DIGITS[v] && Digit(v, 'A') == CAPITALS[v]
  {
  }

  lemma ValueText(c: char)
    requires IsHex(c)
    ensures c == DIGITS[Value(c)] || c == CAPITALS[Value(c)]
  {
  }
}
