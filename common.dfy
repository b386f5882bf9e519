/** Small shared vocabulary: optional values, results, thrown JavaScript
    values, and the text helpers the client needs (decimal rendering of
    numbers, substring search, joining). */
module Common {

  datatype Option<+T> = None | Some(value: T)

  datatype Result<+T, +E> = Ok(value: T) | Err(error: E)

  /** A string-valued field read with JavaScript truthiness: absent or `""`
      is falsy. */
  predicate Truthy(s: Option<string>) {
    s.Some? && s.value != ""
  }

  /** The kinds of `Error` object the request layer distinguishes. */
  datatype ErrorKind = AbortError | TypeError | OtherError

  /** A value thrown by a JavaScript operation: an `Error` object of some
      kind with its message, or a value that is not an `Error` at all. */
  datatype Thrown = Raised(kind: ErrorKind, message: string) | NotAnError

  /** `error instanceof Error ? error.message : fallback` */
  function MessageOr(t: Thrown, fallback: string): (m: string)
    ensures t.Raised? ==> m == t.message
    ensures t.NotAnError? ==> m == fallback
  {
    match t
    case Raised(_, msg) => msg
    case NotAnError => fallback
  }

  /** `s.includes(sub)`: `sub` occurs in `s` at some position. */
  predicate Contains(s: string, sub: string)
    decreases |s|
  {
    sub <= s || (|s| > 0 && Contains(s[1..], sub))
  }

  lemma {:induction false} ContainsAt(s: string, sub: string, i: nat)
    requires i + |sub| <= |s| && s[i..i + |sub|] == sub
    ensures Contains(s, sub)
    decreases i
  {
    if i > 0 {
      assert s[1..][i - 1..i - 1 + |sub|] == s[i..i + |sub|];
      ContainsAt(s[1..], sub, i - 1);
    } else {
      assert sub <= s;
    }
  }

  lemma {:induction false} ContainsSuffix(s: string, t: string, sub: string)
    requires Contains(t, sub)
    ensures Contains(s + t, sub)
    decreases |s|
  {
    if |s| > 0 {
      assert (s + t)[1..] == s[1..] + t;
      ContainsSuffix(s[1..], t, sub);
    } else {
      assert s + t == t;
    }
  }

  function DigitChar(d: nat): (c: char)
    requires d < 10
    ensures '0' <= c <= '9'
  {
    "0123456789"[d]
  }

  function DigitValue(c: char): nat
    requires '0' <= c <= '9'
  {
    (c as int) - ('0' as int)
  }

  /** The decimal numeral JavaScript prints for a non-negative integer
      number below 10^21 (template-literal conversion). */
  function Decimal(n: nat): (s: string)
    ensures |s| >= 1
    ensures forall i :: 0 <= i < |s| ==> '0' <= s[i] <= '9'
    ensures |s| > 1 ==> s[0] != '0'
  {
    if n < 10 then [DigitChar(n)] else Decimal(n / 10) + [DigitChar(n % 10)]
  }

  /** Value of a string of decimal digits. */
  function DecimalValue(s: string): nat
    requires forall i :: 0 <= i < |s| ==> '0' <= s[i] <= '9'
  {
    if s == [] then 0 else 10 * DecimalValue(s[..|s| - 1]) + DigitValue(s[|s| - 1])
  }

  /** Reading back the numeral gives the number: the rendering is exact. */
  lemma {:induction false} DecimalRoundTrip(n: nat)
    ensures DecimalValue(Decimal(n)) == n
  {
    if n >= 10 {
      var s := Decimal(n);
      assert s[..|s| - 1] == Decimal(n / 10);
      DecimalRoundTrip(n / 10);
    }
  }

  /** Different numbers get different numerals. */
  lemma DecimalInjective(m: nat, n: nat)
    requires Decimal(m) == Decimal(n)
    ensures m == n
  {
    DecimalRoundTrip(m);
    DecimalRoundTrip(n);
  }

  /** `Math.round(num / den)` for non-negative operands: the integer
      nearest the quotient, halves rounded up. */
  function RoundHalfUp(num: nat, den: nat): (r: nat)
    requires den > 0
    ensures 2 * den * r <= 2 * num + den < 2 * den * (r + 1)
  {
    (2 * num + den) / (2 * den)
  }

  /** `parts.join(sep)` */
  function Join(parts: seq<string>, sep: string): (s: string)
    ensures |parts| == 1 ==> s == parts[0]
  {
    if parts == [] then ""
    else if |parts| == 1 then parts[0]
    else Join(parts[..|parts| - 1], sep) + sep + parts[|parts| - 1]
  }
}
