/**
  Go values that log records and contexts carry, and the two pieces of the
  fmt package that the logger and the trace code depend on: message formatting (kept symbolic) and
  the `%x` rendering of trace identifiers (modelled concretely).
*/
module Values {

  /** A dynamically typed Go value (`interface{}`), in the shapes the logger and the contexts store. */
  datatype Value = Str(s: string) | Int(i: int) | Nil

  /** Go's `Fields`: structured attributes of one record, `map[string]interface{}`. */
  type Fields = map<string, Value>

  /**
    A message string. `fmt.Sprint` and `fmt.Sprintf` are foreign code, so the
    strings they produce are kept as terms recording their inputs: `Raw(s)` is
    a literal string, `Sprint(args)` the result of `fmt.Sprint(args...)` and
    `Sprintf(format, args)` the result of `fmt.Sprintf(format, args...)`.
  */
  datatype Text = Raw(s: string) | Sprint(args: seq<Value>) | Sprintf(format: Text, args: seq<Value>)

  // ----- Go int64 arithmetic -----

  const MinInt64: int := -0x8000_0000_0000_0000
  const MaxInt64: int := 0x7fff_ffff_ffff_ffff

  /** Clamps an exact difference into int64, as Go's `time.Time.Sub` saturates. */
  function Saturate64(x: int): (r: int)
    ensures MinInt64 <= r <= MaxInt64
    ensures MinInt64 <= x <= MaxInt64 ==> r == x
    ensures x > MaxInt64 ==> r == MaxInt64
    ensures x < MinInt64 ==> r == MinInt64
  {
    if x > MaxInt64 then MaxInt64 else if x < MinInt64 then MinInt64 else x
  }

  /** Go's integer division, which truncates toward zero (Dafny's `/` is Euclidean). */
  function GoDiv(a: int, b: int): (q: int)
    requires b > 0
    ensures a >= 0 ==> q * b <= a < q * b + b
    ensures a < 0 ==> q * b - b < a <= q * b
  {
    if a >= 0 then a / b else -((-a) / b)
  }

  // ----- %x: lowercase hexadecimal without prefix or leading zeros -----

  predicate IsHexDigit(c: char) {
    '0' <= c <= '9' || 'a' <= c <= 'f'
  }

  function HexDigit(d: nat): (c: char)
    requires d < 16
    ensures IsHexDigit(c)
  {
    if d < 10 then ('0' as int + d) as char else ('a' as int + (d - 10)) as char
  }

  function DigitValue(c: char): (d: nat)
    requires IsHexDigit(c)
    ensures d < 16 && HexDigit(d) == c
  {
    if c <= '9' then c as int - '0' as int else c as int - 'a' as int + 10
  }

  /** What `fmt.Sprintf("%x", n)` yields for an unsigned integer `n`. */
  function Hex(n: nat): (s: string)
    ensures 1 <= |s|
    ensures forall i :: 0 <= i < |s| ==> IsHexDigit(s[i])
    ensures n > 0 ==> s[0] != '0'
    ensures n == 0 ==> s == "0"
  {
    if n < 16 then [HexDigit(n)] else Hex(n / 16) + [HexDigit(n % 16)]
  }

  /** Reads a lowercase hexadecimal string back into its value. */
  function ParseHex(s: string): nat
    requires forall i :: 0 <= i < |s| ==> IsHexDigit(s[i])
  {
    if s == [] then 0 else ParseHex(s[..|s| - 1]) * 16 + DigitValue(s[|s| - 1])
  }

  /** `%x` loses nothing: the rendered string decodes to the identifier. */
  lemma {:induction false} ParseHexOfHex(n: nat)
    ensures ParseHex(Hex(n)) == n
  {
    if n >= 16 {
      ParseHexOfHex(n / 16);
      var s := Hex(n);
      assert s[..|s| - 1] == Hex(n / 16);
      assert DigitValue(s[|s| - 1]) == n % 16;
    } else {
      assert DigitValue(HexDigit(n)) == n;
    }
  }

  /** Two identifiers render to the same string exactly when they are equal. */
  lemma HexInjective(a: nat, b: nat)
    ensures Hex(a) == Hex(b) <==> a == b
  {
    if Hex(a) == Hex(b) {
      ParseHexOfHex(a);
      ParseHexOfHex(b);
    }
  }
}
