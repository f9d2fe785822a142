/** Shared vocabulary of the client model: optional values, the outcome of a
    remote call, the side effects a handler asks the browser to perform, and
    the JavaScript truthiness rules the components branch on. */
module Common {

  datatype Option<+T> = None | Some(value: T)

  /** What an awaited HTTP call comes back with: the response payload or the
      rejection. Handlers are split at the await; the "complete" half takes
      one of these as a parameter. */
  datatype Outcome<+T, +E> = Success(payload: T) | Failure(err: E)

  /** Effects recorded instead of performed: `router.push`, `alert`,
      `confirm` (its answer is an input of the handler) and `console.error`
      (with its leading string label, or "" when only the error is logged). */
  datatype Effect =
    | Navigate(path: string)
    | Alert(text: string)
    | Confirm(text: string)
    | LogError(message: string)

  /** A string-valued JavaScript expression is truthy exactly when it is
      neither null/undefined nor the empty string. */
  predicate Truthy(s: Option<string>) {
    s.Some? && |s.value| > 0
  }

  /** A number-valued JavaScript expression is truthy exactly when it is
      present and not 0. */
  predicate TruthyNumber(n: Option<int>) {
    n.Some? && n.value != 0
  }

  /** `s.startsWith(prefix)` */
  predicate StartsWith(s: string, prefix: string) {
    |prefix| <= |s| && s[..|prefix|] == prefix
  }

  /** `x || 0` for an optional count. */
  function CountOrZero(n: Option<int>): (r: int)
    ensures TruthyNumber(n) ==> r == n.value
    ensures !TruthyNumber(n) ==> r == 0
  {
    if n.Some? then n.value else 0
  }

  /** A list endpoint's reply: either a bare JSON array or a paginated object
      carrying the list under `results`. */
  datatype ListPayload<T> = Bare(items: seq<T>) | Paged(results: seq<T>)

  /** `res.data.results || res.data`. A JavaScript array is truthy even when
      empty, so a present `results` always wins. */
  function ResultsOrData<T>(p: ListPayload<T>): (r: seq<T>)
    ensures p.Paged? ==> r == p.results
    ensures p.Bare? ==> r == p.items
  {
    match p
    case Bare(items) => items
    case Paged(results) => results
  }

  /** A list endpoint's reply as seen by code that first tests
      `Array.isArray(res.data)`: an array, an object with `results`, or an
      object without it. */
  datatype Payload<T> = ArrayPayload(items: seq<T>) | ResultsPayload(results: seq<T>) | OtherPayload

  /** `Array.isArray(res.data) ? res.data : res.data.results || []` */
  function ArrayOrResults<T>(p: Payload<T>): (r: seq<T>)
    ensures p.ArrayPayload? ==> r == p.items
    ensures p.ResultsPayload? ==> r == p.results
    ensures p.OtherPayload? ==> r == []
  {
    match p
    case ArrayPayload(items) => items
    case ResultsPayload(results) => results
    case OtherPayload => []
  }

  /** First `n` elements, as `slice(0, n)` gives them. */
  function Take<T>(s: seq<T>, n: nat): (r: seq<T>)
    ensures |r| == if |s| < n then |s| else n
    ensures forall i :: 0 <= i < |r| ==> r[i] == s[i]
  {
    if |s| <= n then s else s[..n]
  }

  /** A browser `File` handle; only its identity matters to the model. */
  datatype File = File(name: string, handle: nat)

  /** `list[0]` in a template literal: an empty list prints `undefined`. */
  function FirstOrUndefined(list: seq<string>): (r: string)
    ensures list != [] ==> r == list[0]
    ensures list == [] ==> r == "undefined"
  {
    if list == [] then "undefined" else list[0]
  }

  /** `Array.prototype.join(sep)` */
  function Join(parts: seq<string>, sep: string): (r: string)
    ensures parts == [] ==> r == ""
    ensures |parts| == 1 ==> r == parts[0]
  {
    if parts == [] then ""
    else if |parts| == 1 then parts[0]
    else parts[0] + sep + Join(parts[1..], sep)
  }

  /** Joining a longer list adds the separator and the new part at the end. */
  lemma {:induction false} JoinSnoc(parts: seq<string>, last: string, sep: string)
    requires parts != []
    ensures Join(parts + [last], sep) == Join(parts, sep) + sep + last
    decreases |parts|
  {
    if |parts| == 1 {
      assert parts + [last] == [parts[0], last];
    } else {
      assert (parts + [last])[1..] == parts[1..] + [last];
      JoinSnoc(parts[1..], last, sep);
    }
  }

  /** The joined text starts with the first part. */
  lemma {:induction false} JoinStartsWithFirst(parts: seq<string>, sep: string)
    requires parts != []
    ensures StartsWith(Join(parts, sep), parts[0])
  {
    var r := Join(parts, sep);
    if |parts| > 1 {
      assert r == parts[0] + (sep + Join(parts[1..], sep));
    }
    assert r[..|parts[0]|] == parts[0];
  }

  predicate IsDigit(c: char) {
    '0' <= c <= '9'
  }

  function DigitChar(d: int): (c: char)
    requires 0 <= d < 10
    ensures IsDigit(c) && c as int - '0' as int == d
  {
    ('0' as int + d) as char
  }

  /** A number interpolated into a template string (`${n}`), for
      non-negative integers: its decimal digits, with no leading zero. */
  function NatToDecimal(n: nat): (s: string)
    ensures s != [] && forall i :: 0 <= i < |s| ==> IsDigit(s[i])
    decreases n
  {
    if n < 10 then [DigitChar(n)] else NatToDecimal(n / 10) + [DigitChar(n % 10)]
  }

  /** `${n}` for any integer: a minus sign before the digits of a negative
      number. */
  function IntToDecimal(n: int): (s: string)
    ensures n >= 0 ==> s == NatToDecimal(n)
    ensures n < 0 ==> s == "-" + NatToDecimal(-n)
  {
    if n < 0 then "-" + NatToDecimal(-n) else NatToDecimal(n)
  }

  /** The value of a string of decimal digits, read left to right. */
  function ParseDecimal(s: string): nat
    requires forall i :: 0 <= i < |s| ==> IsDigit(s[i])
  {
    if s == [] then 0
    else
      assert IsDigit(s[|s| - 1]);
      ParseDecimal(s[..|s| - 1]) * 10 + (s[|s| - 1] as int - '0' as int)
  }

  /** Reading the digits back gives the number, and the first digit is
      zero only for zero itself, so the rendering is one-to-one. */
  lemma {:induction false} DecimalRoundTrip(n: nat)
    ensures ParseDecimal(NatToDecimal(n)) == n
    ensures NatToDecimal(n)[0] == '0' <==> n == 0
    decreases n
  {
    if n >= 10 {
      DecimalRoundTrip(n / 10);
      var s := NatToDecimal(n);
      assert s[..|s| - 1] == NatToDecimal(n / 10);
      assert s[0] == NatToDecimal(n / 10)[0];
    }
  }

  /** Two numbers render alike only when they are equal. */
  lemma DecimalInjective(m: nat, n: nat)
    requires NatToDecimal(m) == NatToDecimal(n)
    ensures m == n
  {
    DecimalRoundTrip(m);
    DecimalRoundTrip(n);
  }
}
