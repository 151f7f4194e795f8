/**
 * The pieces of PHP and Carbon semantics the booking repository relies on:
 * `empty()`, loose comparison with `''`, truthiness, `strtolower`, integer
 * to string conversion, `%02d` padding and Carbon's `diffInHours`.
 */
module PhpValues {
  import opened Wrappers

  /** PHP `empty($data[k])` on a request field: missing, `null`, `""` and `"0"` are empty. */
  predicate IsEmpty(v: Option<string>) {
    v.None? || v.value == "" || v.value == "0"
  }

  /** PHP `$data[k] == ''` (loose): `null` and `""` compare equal to `''`, `"0"` does not. */
  predicate LooseEqualsEmpty(v: Option<string>) {
    v.None? || v.value == ""
  }

  /** PHP truthiness of an optional string (`if ($x)`): the negation of `empty`. */
  predicate Truthy(v: Option<string>) {
    !IsEmpty(v)
  }

  lemma EmptyVersusLoose(v: Option<string>)
    ensures LooseEqualsEmpty(v) ==> IsEmpty(v)
    ensures IsEmpty(v) && !LooseEqualsEmpty(v) <==> v == Some("0")
  {
  }

  /** `strtolower` on one character: ASCII letters only (PHP 8.2 and later, or the C locale). */
  function LowerChar(c: char): (r: char)
    ensures !('A' <= r <= 'Z')
    ensures ('A' <= c <= 'Z') || r == c
  {
    if 'A' <= c <= 'Z' then (c as int + 32) as char else c
  }

  function Lower(s: string): (r: string)
    ensures |r| == |s|
    ensures forall i :: 0 <= i < |s| ==> r[i] == LowerChar(s[i])
  {
    seq(|s|, i requires 0 <= i < |s| => LowerChar(s[i]))
  }

  lemma {:induction false} LowerIdempotent(s: string)
    ensures Lower(Lower(s)) == Lower(s)
  {
    var once := Lower(s);
    var twice := Lower(once);
    forall i | 0 <= i < |s| ensures twice[i] == once[i] {
      assert !('A' <= once[i] <= 'Z');
    }
  }

  predicate IsDigit(c: char) {
    '0' <= c <= '9'
  }

  function DigitChar(d: nat): (c: char)
    requires d < 10
    ensures IsDigit(c)
  {
    ('0' as int + d) as char
  }

  function DigitValue(c: char): (d: nat)
    requires IsDigit(c)
    ensures d < 10
  {
    c as int - '0' as int
  }

  /** The decimal digits of `n`, as PHP's `(string)$n` for a non-negative integer. */
  function NatToString(n: nat): (s: string)
    ensures |s| >= 1
    ensures forall i :: 0 <= i < |s| ==> IsDigit(s[i])
    decreases n
  {
    if n < 10 then [DigitChar(n)] else NatToString(n / 10) + [DigitChar(n % 10)]
  }

  /** PHP's `(string)$n` (and `.` concatenation) for any integer. */
  function IntToString(n: int): (s: string)
    ensures |s| >= 1
  {
    if n < 0 then "-" + NatToString(-n) else NatToString(n)
  }

  /** The value of a string of decimal digits; the partner of `NatToString`. */
  function ParseDigits(s: string): (n: nat)
    requires forall i :: 0 <= i < |s| ==> IsDigit(s[i])
    decreases |s|
  {
    if s == [] then 0 else ParseDigits(s[..|s| - 1]) * 10 + DigitValue(s[|s| - 1])
  }

  lemma {:induction false} ParseNatToString(n: nat)
    ensures ParseDigits(NatToString(n)) == n
    decreases n
  {
    var s := NatToString(n);
    if n >= 10 {
      ParseNatToString(n / 10);
      assert s[..|s| - 1] == NatToString(n / 10);
      assert DigitValue(s[|s| - 1]) == n % 10;
    } else {
      assert s[..|s| - 1] == [];
    }
  }

  lemma NatToStringInjective(m: nat, n: nat)
    requires NatToString(m) == NatToString(n)
    ensures m == n
  {
    ParseNatToString(m);
    ParseNatToString(n);
  }

  /** `sprintf('%02d', n)` for a non-negative `n`: at least two digits, zero padded. */
  function Pad2(n: nat): (s: string)
    ensures |s| >= 2
    ensures forall i :: 0 <= i < |s| ==> IsDigit(s[i])
  {
    var digits := NatToString(n);
    if |digits| < 2 then ['0'] + digits else digits
  }

  lemma {:induction false} LeadingZero(s: string)
    requires forall i :: 0 <= i < |s| ==> IsDigit(s[i])
    ensures ParseDigits(['0'] + s) == ParseDigits(s)
    decreases |s|
  {
    if s != [] {
      var t := ['0'] + s;
      assert t[..|t| - 1] == ['0'] + s[..|s| - 1];
      LeadingZero(s[..|s| - 1]);
    } else {
      assert (['0'] + s)[..0] == [];
    }
  }

  lemma Pad2Value(n: nat)
    ensures ParseDigits(Pad2(n)) == n
    ensures n < 100 ==> |Pad2(n)| == 2
  {
    ParseNatToString(n);
    if |NatToString(n)| < 2 {
      LeadingZero(NatToString(n));
    }
    if n < 100 && n >= 10 {
      assert NatToString(n) == NatToString(n / 10) + [DigitChar(n % 10)];
    }
  }

  const SecondsPerHour: int := 3600

  /**
   * Carbon's `diffInHours`: the absolute difference between two instants,
   * truncated to whole hours. Instants are integer seconds.
   */
  function DiffInHours(a: int, b: int): (h: nat)
    ensures h * SecondsPerHour <= (if a <= b then b - a else a - b) < (h + 1) * SecondsPerHour
  {
    (if a <= b then b - a else a - b) / SecondsPerHour
  }

  lemma DiffInHoursSymmetric(a: int, b: int)
    ensures DiffInHours(a, b) == DiffInHours(b, a)
  {
  }

  /** A whole-hour difference of at least `k` hours means at least `k * 3600` seconds apart. */
  lemma DiffAtLeast(a: int, b: int, k: nat)
    ensures DiffInHours(a, b) >= k <==> (if a <= b then b - a else a - b) >= k * SecondsPerHour
  {
    var h := DiffInHours(a, b);
    if h >= k {
      assert h * SecondsPerHour >= k * SecondsPerHour;
    } else {
      assert (h + 1) * SecondsPerHour <= k * SecondsPerHour;
    }
  }
}
