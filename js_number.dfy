/** The two pieces of JavaScript number semantics that the server's listing relies on:
    `parseInt(string)` with no radix (ECMAScript section 19.2.5), and the range of
    time values that `new Date(ms)` accepts before `toISOString` throws
    (ECMAScript section 21.4.1, TimeClip). Only integers reach these here, and every
    integer inside the time range is exactly representable as a double. */
module JsNumber {
  import opened Wrappers
  import opened Text

  /** Largest magnitude of a valid time value, in milliseconds from the epoch. */
  const MaxTimeMs: nat := 8_640_000_000_000_000

  /** WhiteSpace or LineTerminator code points, which `parseInt` skips at the start. */
  predicate IsStrWhiteSpace(c: char) {
    var n := c as int;
    n == 0x09 || n == 0x0A || n == 0x0B || n == 0x0C || n == 0x0D || n == 0x20 || n == 0xA0
    || n == 0x1680 || (0x2000 <= n <= 0x200A) || n == 0x2028 || n == 0x2029
    || n == 0x202F || n == 0x205F || n == 0x3000 || n == 0xFEFF
  }

  /** The string with its leading white space removed. */
  function TrimStart(s: string): (t: string)
    ensures EndsWith(s, t)
    ensures t != [] ==> !IsStrWhiteSpace(t[0])
    ensures forall i :: 0 <= i < |s| - |t| ==> IsStrWhiteSpace(s[i])
  {
    if s != [] && IsStrWhiteSpace(s[0]) then
      var t := TrimStart(s[1..]);
      assert forall i :: 1 <= i < |s| - |t| ==> s[i] == s[1..][i - 1];
      t
    else s
  }

  /** `parseInt(s)`: skip white space, take an optional sign, then read the digits;
      `None` stands for NaN (no digit at all). A negative zero is the integer 0. */
  function ParseInt(s: string): Option<int> {
    var t := TrimStart(s);
    if t != [] && (t[0] == '-' || t[0] == '+') then
      match ParseUnsigned(t[1..])
      case None => None
      case Some(v) => var n: int := v; Some(if t[0] == '-' then -n else n)
    else ParseUnsigned(t)
  }

  /** The digits after the sign: radix 16 after a `0x`/`0X` prefix and radix 10
      otherwise, converting the longest run of digits of that radix. */
  function ParseUnsigned(u: string): Option<nat> {
    var hex := |u| >= 2 && u[0] == '0' && (u[1] == 'x' || u[1] == 'X');
    var radix := if hex then 16 else 10;
    var z := LeadingDigits(if hex then u[2..] else u, radix);
    if z == [] then None else Some(DigitsValue(z, radix))
  }

  /** The decimal rendering of `n`, followed by anything that cannot continue it, parses back to `n`. */
  lemma ParseIntOfDecimal(n: nat, rest: string)
    requires rest != [] ==> !IsDigit(rest[0], 10) && rest[0] != 'x' && rest[0] != 'X'
    ensures ParseInt(Decimal(n) + rest) == Some(n)
  {
    var d := Decimal(n);
    var t := d + rest;
    assert t[0] == d[0];
    if |t| >= 2 && t[0] == '0' {
      assert t[1] == rest[0];
    }
    ParseIntOfDigits(t);
    LeadingDigitsOfRun(d, rest, 10);
  }

  /** Text starting with a decimal digit, and not with `0x` or `0X`, parses as its leading digit run. */
  lemma ParseIntOfDigits(t: string)
    requires t != [] && IsDigit(t[0], 10)
    requires |t| >= 2 && t[0] == '0' ==> t[1] != 'x' && t[1] != 'X'
    ensures ParseInt(t) == Some(DigitsValue(LeadingDigits(t, 10), 10))
  {
    assert ParseInt(t) == ParseUnsigned(t) by {
      DigitIsNotWhiteSpace(t[0]);
      TrimStartOfNonSpace(t);
    }
    assert LeadingDigits(t, 10) != [];
  }

  lemma TrimStartOfNonSpace(s: string)
    requires s != [] && !IsStrWhiteSpace(s[0])
    ensures TrimStart(s) == s
  {
  }

  lemma DigitIsNotWhiteSpace(c: char)
    requires IsDigit(c, 10)
    ensures !IsStrWhiteSpace(c) && c != '-' && c != '+'
  {
    assert '0' <= c <= '9';
  }

  /** A string whose first character is neither white space, a sign nor a decimal digit is NaN. */
  lemma ParseIntWithoutDigits(s: string)
    requires s != [] && !IsStrWhiteSpace(s[0]) && s[0] != '-' && s[0] != '+' && !IsDigit(s[0], 10)
    ensures ParseInt(s) == None
  {
    TrimStartOfNonSpace(s);
  }

  /** `new Date(n)` followed by `toISOString()`: the time value when `n` is a number
      inside the valid range, `None` where JavaScript throws a RangeError. */
  function TimeClip(n: Option<int>): (t: Option<int>)
    ensures t.Some? <==> n.Some? && -(MaxTimeMs as int) <= n.value <= MaxTimeMs
    ensures t.Some? ==> t == n
  {
    match n
    case Some(v) => if -(MaxTimeMs as int) <= v <= MaxTimeMs then Some(v) else None
    case None => None
  }
}
