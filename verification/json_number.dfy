/**
  The number literals `encoding/json` accepts when it encodes a `json.Number`
  (the albums' `mediaItemsCount`): an optional minus sign, an integer part
  without leading zeros, an optional fraction and an optional exponent. Any
  other non-empty text makes encoding fail.
 */
module JsonNumber {
  import opened Queries

  /** How many decimal digits `s` starts with. */
  function DigitRun(s: string): (n: nat)
    ensures n <= |s|
    ensures forall i :: 0 <= i < n ==> IsDigit(s[i])
    ensures n < |s| ==> !IsDigit(s[n])
  {
    if s == [] || !IsDigit(s[0]) then 0 else 1 + DigitRun(s[1..])
  }

  /** An optional exponent: `e` or `E`, an optional sign, at least one digit; nothing after. */
  predicate Exponent(s: string)
  {
    || s == []
    || (&& |s| >= 2
        && (s[0] == 'e' || s[0] == 'E')
        && var digits := if s[1] == '+' || s[1] == '-' then s[2..] else s[1..];
           |digits| > 0 && AllDigits(digits))
  }

  /** What may follow the integer part: an optional `.` and digits, then an optional exponent. */
  predicate FractionExponent(s: string)
  {
    if |s| > 0 && s[0] == '.' then
      var n := DigitRun(s[1..]);
      n > 0 && Exponent(s[1 + n..])
    else Exponent(s)
  }

  /** A JSON number literal, as the encoder checks it. */
  predicate NumberLiteral(s: string)
  {
    var t := if |s| > 0 && s[0] == '-' then s[1..] else s;
    && |t| > 0
    && IsDigit(t[0])
    && (if t[0] == '0' then FractionExponent(t[1..]) else FractionExponent(t[DigitRun(t)..]))
  }

  /** An empty `json.Number` is left out of the encoding; any other must be a literal. */
  predicate Encodable(n: string)
  {
    n == "" || NumberLiteral(n)
  }

  /** Words, a leading zero before digits, a bare sign and a dangling point are rejected; signed, fractional and exponent forms are not. */
  lemma NonLiterals()
    ensures !NumberLiteral("many")
    ensures !NumberLiteral("01")
    ensures !NumberLiteral("-")
    ensures !NumberLiteral("1.")
    ensures NumberLiteral("12") && NumberLiteral("-0.5e+3")
  {
  }
}
