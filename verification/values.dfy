/** JSON-like values as they travel in socket payloads, stored records and
    response envelopes, with the few JavaScript conversions the core relies on. */
module Values {

  datatype Option<+T> = None | Some(value: T)

  /** A payload, record or envelope value. Numbers are integers; `Date` is an
      instant of an abstract clock. */
  datatype Value =
    | Str(s: string)
    | Num(n: int)
    | Bool(b: bool)
    | Null
    | Date(t: int)
    | Arr(items: seq<Value>)
    | Obj(fields: map<string, Value>)

  /** A plain object: a payload, or a record of the data store. */
  type Doc = map<string, Value>

  /** JavaScript truthiness (`!v` is false). */
  predicate Truthy(v: Value) {
    match v
    case Str(s) => s != ""
    case Num(n) => n != 0
    case Bool(b) => b
    case Null => false
    case _ => true
  }

  /** Truthiness of `d[k]`, where a missing key reads as `undefined`. */
  predicate Present(d: Doc, k: string) {
    k in d && Truthy(d[k])
  }

  /** A string-valued source (a header, a cookie, a handshake field) that may be
      missing; `Filled` is its truthiness. */
  predicate Filled(o: Option<string>) {
    o.Some? && o.value != ""
  }

  /** What a `throw` delivers to a `catch`: an `Error` instance with its
      message, or some other value. */
  datatype Thrown = ErrorValue(message: string) | NonError

  /** `error instanceof Error ? error.message : "Unknown error"` */
  function ErrorText(t: Thrown): string {
    match t
    case ErrorValue(m) => m
    case NonError => "Unknown error"
  }

  predicate IsDigit(c: char) {
    '0' <= c <= '9'
  }

  /** Number of leading decimal digits of `s`. */
  function DigitRun(s: string): (k: nat)
    ensures k <= |s|
    ensures forall i :: 0 <= i < k ==> IsDigit(s[i])
    ensures k < |s| ==> !IsDigit(s[k])
  {
    if s == [] || !IsDigit(s[0]) then 0 else 1 + DigitRun(s[1..])
  }

  /** Value of a string of decimal digits. */
  function DigitsValue(s: string): nat
    requires forall i :: 0 <= i < |s| ==> IsDigit(s[i])
  {
    if s == [] then 0
    else
      assert IsDigit(s[|s| - 1]);
      10 * DigitsValue(s[..|s| - 1]) + (s[|s| - 1] as int - '0' as int)
  }

  /** The value of the leading digit run, `None` when there is none. */
  function LeadingDigits(s: string): (r: Option<nat>)
    ensures r.Some? <==> |s| > 0 && IsDigit(s[0])
  {
    var k := DigitRun(s);
    if k == 0 then None else Some(DigitsValue(s[..k]))
  }

  /** `Number.parseInt` of a string: an optional sign, then the longest run of
      decimal digits; `None` stands for `NaN` (no digit at all). */
  function ParseDecimal(s: string): (r: Option<int>)
    ensures r.Some? <==>
      (|s| > 0 && IsDigit(s[0])) || (|s| > 1 && (s[0] == '-' || s[0] == '+') && IsDigit(s[1]))
  {
    if |s| > 0 && (s[0] == '-' || s[0] == '+') then
      match LeadingDigits(s[1..])
      case None => None
      case Some(m) => Some(if s[0] == '-' then -(m as int) else m)
    else
      match LeadingDigits(s)
      case None => None
      case Some(m) => Some(m)
  }

  /** The digit run of digits `d` followed by text not starting with a digit is `d`. */
  lemma {:induction false} DigitRunOfDigits(d: string, t: string)
    requires forall i :: 0 <= i < |d| ==> IsDigit(d[i])
    requires t == [] || !IsDigit(t[0])
    ensures DigitRun(d + t) == |d|
  {
    if d != [] {
      assert (d + t)[1..] == d[1..] + t;
      DigitRunOfDigits(d[1..], t);
    } else {
      assert d + t == t;
    }
  }

  /** Digits followed by text that does not start with a digit have the
      digits' value as their leading digit run. */
  lemma LeadingDigitsOfDigits(d: string, t: string)
    requires |d| > 0 && forall i :: 0 <= i < |d| ==> IsDigit(d[i])
    requires t == [] || !IsDigit(t[0])
    ensures LeadingDigits(d + t) == Some(DigitsValue(d))
  {
    DigitRunOfDigits(d, t);
    assert (d + t)[..|d|] == d;
  }

  /** `parseInt` reads the leading digit run `m`: as it is without a sign or
      after a `+`, negated after a `-`. With `LeadingDigitsOfDigits`, digits
      followed by anything that does not start with a digit are read as
      their value, whatever follows them. */
  lemma ParseSign(u: string, m: int)
    requires |u| > 0 && IsDigit(u[0]) && LeadingDigits(u) == Some(m)
    ensures ParseDecimal(u) == Some(m)
    ensures ParseDecimal(['+'] + u) == Some(m)
    ensures ParseDecimal(['-'] + u) == Some(-m)
  {
    var plus, minus := ['+'] + u, ['-'] + u;
    assert plus[0] == '+' && plus[1..] == u;
    assert minus[0] == '-' && minus[1..] == u;
  }

  /** `Number.parseInt(String(v))`: a number is read as itself, a string as
      `ParseDecimal` reads it, anything else is `NaN`. */
  function ParseInt(v: Value): (r: Option<int>)
    ensures v.Num? ==> r == Some(v.n)
    ensures v.Str? ==> r == ParseDecimal(v.s)
    ensures !v.Num? && !v.Str? ==> r.None?
  {
    match v
    case Num(n) => Some(n)
    case Str(s) => ParseDecimal(s)
    case _ => None
  }
}
