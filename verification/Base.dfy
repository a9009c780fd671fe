/** Shared vocabulary: octets, options and the uint64 bound of the Go sources. */
module Base {

  type Byte = b: int | 0 <= b < 256

  type Bytes = seq<Byte>

  const UINT64_MAX: nat := 0xFFFF_FFFF_FFFF_FFFF

  datatype Option<+T> = None | Some(value: T)

  function Min(a: int, b: int): int {
    if a <= b then a else b
  }

  // ------------------------------------------------------------- text

  /** The characters Python's `str.strip` removes. */
  predicate IsSpace(c: char) {
    || c == ' ' || '\t' <= c <= '\r' || '\U{1C}' <= c <= '\U{1F}' || c == '\U{85}' || c == '\U{A0}'
    || c == '\U{1680}' || '\U{2000}' <= c <= '\U{200A}' || c == '\U{2028}' || c == '\U{2029}'
    || c == '\U{202F}' || c == '\U{205F}' || c == '\U{3000}'
  }

  function StripLeft(s: string): string {
    if s != "" && IsSpace(s[0]) then StripLeft(s[1..]) else s
  }

  function StripRight(s: string): string {
    if s != "" && IsSpace(s[|s| - 1]) then StripRight(s[..|s| - 1]) else s
  }

  /** `str.strip`. */
  function Strip(s: string): string {
    StripRight(StripLeft(s))
  }

  predicate Unspaced(s: string) {
    s != "" && !IsSpace(s[0]) && !IsSpace(s[|s| - 1])
  }

  lemma {:induction false} StripLeftStops(s: string)
    ensures StripLeft(s) == "" || !IsSpace(StripLeft(s)[0])
  {
    if s != "" && IsSpace(s[0]) { StripLeftStops(s[1..]); }
  }

  lemma {:induction false} StripRightStops(s: string)
    ensures StripRight(s) == "" || !IsSpace(StripRight(s)[|StripRight(s)| - 1])
    ensures StripRight(s) <= s
  {
    if s != "" && IsSpace(s[|s| - 1]) { StripRightStops(s[..|s| - 1]); }
  }

  lemma UnspacedStays(s: string)
    requires Unspaced(s)
    ensures Strip(s) == s
  {
  }

  /** Stripped text has no blanks left to strip. */
  lemma StripTwice(s: string)
    ensures Strip(s) == "" || Unspaced(Strip(s))
    ensures Strip(Strip(s)) == Strip(s)
  {
    StripLeftStops(s);
    StripRightStops(StripLeft(s));
  }

  function LowerChar(c: char): char {
    if 'A' <= c <= 'Z' then ((c as int) + 32) as char else c
  }

  function UpperChar(c: char): char {
    if 'a' <= c <= 'z' then ((c as int) - 32) as char else c
  }

  /** `str.lower` on ASCII letters. */
  function Lower(s: string): (u: string)
    ensures |u| == |s| && forall i :: 0 <= i < |s| ==> u[i] == LowerChar(s[i])
  {
    seq(|s|, i requires 0 <= i < |s| => LowerChar(s[i]))
  }

  /** `str.upper` on ASCII letters. */
  function Upper(s: string): (u: string)
    ensures |u| == |s| && forall i :: 0 <= i < |s| ==> u[i] == UpperChar(s[i])
  {
    seq(|s|, i requires 0 <= i < |s| => UpperChar(s[i]))
  }

  /** `value.split(c, 1)[0]`. */
  function Before(s: string, c: char): string {
    if s == "" || s[0] == c then "" else [s[0]] + Before(s[1..], c)
  }

  lemma {:induction false} BeforeAbsent(s: string, c: char)
    requires c !in s
    ensures Before(s, c) == s
  {
    if s != "" {
      BeforeAbsent(s[1..], c);
      assert s == [s[0]] + s[1..];
    }
  }

  lemma {:induction false} BeforeFound(a: string, c: char, b: string)
    requires c !in a
    ensures Before(a + [c] + b, c) == a
  {
    var s := a + [c] + b;
    if a != "" {
      assert s[1..] == a[1..] + [c] + b;
      BeforeFound(a[1..], c, b);
      assert a == [a[0]] + a[1..];
    }
  }

  // ---------------------------------------------------------- decimals

  function Decimal(n: nat): string {
    if n < 10 then [Digit(n)] else Decimal(n / 10) + [Digit(n % 10)]
  }

  function Digit(n: nat): char
    requires n < 10
  {
    ('0' as int + n) as char
  }

  function Number(digits: string): int {
    if digits == "" then 0
    else
      var n := |digits| - 1;
      Number(digits[..n]) * 10 + (digits[n] as int - '0' as int)
  }

  /** Decimals read back, so no two numbers share one. */
  lemma {:induction false} DecimalReadsBack(n: nat)
    ensures Decimal(n) != "" && forall c :: c in Decimal(n) ==> '0' <= c <= '9'
    ensures Number(Decimal(n)) == n
    decreases n
  {
    var d := Decimal(n);
    if n < 10 {
      assert d[..0] == "";
    } else {
      DecimalReadsBack(n / 10);
      assert d[..|d| - 1] == Decimal(n / 10);
    }
  }

  // -------------------------------------------------- integer division

  lemma DivMonotone(x: int, y: int, t: int)
    requires 0 <= x <= y && t > 0
    ensures 0 <= x / t <= y / t
  {
    var q, r := x / t, y / t;
    assert x == q * t + x % t && y == r * t + y % t;
    assert (q - r) * t < t;
    AtLeastOne(q - r, t);
  }

  lemma {:induction false} AtLeastOne(d: int, t: int)
    requires t > 0
    ensures d >= 1 ==> d * t >= t
    decreases d
  {
    if d > 1 {
      AtLeastOne(d - 1, t);
      assert d * t == (d - 1) * t + t;
    }
  }

  lemma ExactQuotient(k: int, t: int)
    requires t > 0
    ensures k * t / t == k
  {
    var q := k * t / t;
    assert k * t == q * t + k * t % t;
    assert (k - q) * t < t && (q - k) * t < t;
    AtLeastOne(k - q, t);
    AtLeastOne(q - k, t);
  }

  lemma QuotientAtMost(n: int, d: int)
    requires n >= 0 && d > 0
    ensures 0 <= n / d <= n
  {
    DivMonotone(0, n, d);
    ExactQuotient(0, d);
    if n / d > 0 {
      AtLeastOne(d, n / d);
      assert n == d * (n / d) + n % d;
    }
  }
}
