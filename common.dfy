/** Shared vocabulary of the backend model: identifiers, bytes, optional values, decimal
    digits, the decimal amount column, and the read-only field rule that every
    serializer of the backend applies. */
module Common {

  /** A user's primary key. */
  type UserId = nat

  /** An octet, as produced by encoding a string. */
  newtype byte = x: int | 0 <= x < 256

  datatype Option<+T> = None | Some(value: T) {
    function GetOr(default: T): T {
      match this
      case Some(v) => v
      case None => default
    }
  }

  /** An ASCII decimal digit. */
  predicate IsDigit(c: char) {
    '0' <= c <= '9'
  }

  predicate AllDigits(s: string) {
    forall i | 0 <= i < |s| :: IsDigit(s[i])
  }

  /** The number a string of decimal digits denotes. */
  function ParseDigits(s: string): nat
    requires AllDigits(s)
  {
    if s == [] then 0
    else 10 * ParseDigits(s[..|s| - 1]) + (s[|s| - 1] as int - '0' as int)
  }

  /** A `DecimalField(max_digits=12, decimal_places=2)` value held in cents: at most
      twelve digits in all, so its magnitude is below 10^12. */
  predicate FitsDecimal12(cents: int) {
    -1_000_000_000_000 < cents < 1_000_000_000_000
  }

  /** `d.get(key, default)` on a string-keyed dictionary. */
  function Get<V>(d: map<string, V>, key: string, default: V): (r: V)
    ensures key in d ==> r == d[key]
    ensures key !in d ==> r == default
  {
    if key in d then d[key] else default
  }

  /** What a serializer takes from a client's input: the declared fields that are
      not read-only. Every other key of the input is ignored. */
  function Writable(fields: set<string>, readOnly: set<string>): set<string> {
    fields - readOnly
  }

  /** The portion of the client's input a serializer keeps for writing. */
  function Accepted<V>(fields: set<string>, readOnly: set<string>, input: map<string, V>): (r: map<string, V>)
    ensures r.Keys == input.Keys * fields - readOnly
    ensures forall k | k in r :: r[k] == input[k]
  {
    map k | k in input && k in fields && k !in readOnly :: input[k]
  }
}
