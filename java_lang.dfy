/** The parts of Java's runtime that the bot's logic depends on: the 32-bit
    `int`, `String.toLowerCase`, `String.contains`, rendering an int as text
    (`n + ""`), `Integer.valueOf`, and `BufferedReader.readLine` applied to a
    file's whole content. */
module JavaLang {

  datatype Option<+T> = None | Some(value: T)

  datatype Result<+T, +E> = Success(value: T) | Failure(error: E)

  /** What string concatenation writes for a String reference that may be null. */
  function JavaText(s: Option<string>): string {
    if s.None? then "null" else s.value
  }

  // ---------------------------------------------------------------------
  // int

  const MinInt: int := -0x8000_0000
  const MaxInt: int := 0x7fff_ffff
  const Modulus: int := 0x1_0000_0000

  /** A value of Java type `int`. */
  type Int32 = x: int | MinInt <= x <= MaxInt

  /** Two's-complement wrap-around: the `int` an arithmetic expression evaluates to. */
  function Wrap(x: int): (r: Int32)
    ensures MinInt <= x <= MaxInt ==> r == x
  {
    (x - MinInt) % Modulus + MinInt
  }

  /** `x + 1` on a Java `int`: the largest int wraps to the smallest. */
  function Inc(x: Int32): (r: Int32)
    ensures x < MaxInt ==> r == x + 1
    ensures x == MaxInt ==> r == MinInt
  {
    if x == MaxInt then MinInt else x + 1
  }

  /** Inc is the wrapped sum. */
  lemma {:induction false} WrapStep(x: Int32)
    ensures Inc(x) == Wrap(x + 1)
  {
    if x == MaxInt {
      ModShift(x + 1 - MinInt, 1);
    }
  }

  /** Incrementing after wrapping is wrapping after incrementing. */
  lemma {:induction false} WrapInc(x: int)
    ensures Inc(Wrap(x)) == Wrap(x + 1)
  {
    WrapStep(Wrap(x));
    var q := (x - MinInt) / Modulus;
    assert Wrap(x) == x - q * Modulus;
    var y := Wrap(x) + 1;
    assert y - MinInt == (x + 1 - MinInt) - q * Modulus;
    ModShift(x + 1 - MinInt, q);
  }

  /** x incremented k times. */
  function IncTimes(x: Int32, k: nat): Int32 {
    if k == 0 then x else Inc(IncTimes(x, k - 1))
  }

  /** A counter bumped k times holds `Wrap(start + k)`. */
  lemma {:induction false} IncTimesWrap(x: Int32, k: nat)
    ensures IncTimes(x, k) == Wrap(x + k)
  {
    if k > 0 {
      IncTimesWrap(x, k - 1);
      WrapInc(x + k - 1);
    }
  }

  /** Narrowing to an `int` (the wrap of arithmetic, and `intValue()` of an
      integral JSON number) forgets multiples of 2^32. */
  lemma {:induction false} WrapPeriodic(x: int, q: int)
    ensures Wrap(x + q * Modulus) == Wrap(x)
  {
    ModShift(x + q * Modulus - MinInt, q);
  }

  lemma {:induction false} ModShift(a: int, q: int)
    ensures (a - q * Modulus) % Modulus == a % Modulus
  {
    var r := a % Modulus;
    var d := a / Modulus;
    assert a == d * Modulus + r;
    assert a - q * Modulus == (d - q) * Modulus + r;
  }

  // ---------------------------------------------------------------------
  // String.toLowerCase, restricted to ASCII letters

  predicate IsUpper(c: char) {
    'A' <= c <= 'Z'
  }

  function LowerChar(c: char): char {
    if IsUpper(c) then (c as int + 32) as char else c
  }

  function Lower(s: string): string {
    if s == [] then [] else [LowerChar(s[0])] + Lower(s[1..])
  }

  predicate NoUpper(s: string) {
    forall i :: 0 <= i < |s| ==> !IsUpper(s[i])
  }

  /** Lowercasing keeps the length, maps each character on its own, and leaves
      no upper-case letter behind. */
  lemma {:induction false} LowerFacts(s: string)
    ensures |Lower(s)| == |s|
    ensures forall i :: 0 <= i < |s| ==> Lower(s)[i] == LowerChar(s[i])
    ensures NoUpper(Lower(s))
  {
    if s != [] {
      LowerFacts(s[1..]);
      assert Lower(s) == [LowerChar(s[0])] + Lower(s[1..]);
    }
  }

  // ---------------------------------------------------------------------
  // String.contains

  predicate OccursAt(s: string, sub: string, i: int) {
    0 <= i <= |s| - |sub| && s[i..i + |sub|] == sub
  }

  predicate Contains(s: string, sub: string) {
    exists i | 0 <= i <= |s| - |sub| :: OccursAt(s, sub, i)
  }

  /** A text contains every piece it is glued together from. */
  lemma {:induction false} ContainsMiddle(a: string, sub: string, b: string)
    ensures Contains(a + sub + b, sub)
  {
    var s := a + sub + b;
    assert OccursAt(s, sub, |a|);
  }

  // ---------------------------------------------------------------------
  // Integer.toString (what `n + ""` produces)

  predicate IsDigit(c: char) {
    '0' <= c <= '9'
  }

  predicate AllDigits(s: string) {
    forall i :: 0 <= i < |s| ==> IsDigit(s[i])
  }

  function DigitChar(d: nat): char
    requires d < 10
  {
    ('0' as int + d) as char
  }

  /** The decimal digits of n, most significant first, without leading zeros. */
  function Digits(n: nat): string
    decreases n
  {
    if n < 10 then [DigitChar(n)] else Digits(n / 10) + [DigitChar(n % 10)]
  }

  /** The text Java produces for `n + ""` when n is an `int`. */
  function DecimalString(n: int): string {
    if n < 0 then "-" + Digits(-n) else Digits(n)
  }

  // ---------------------------------------------------------------------
  // Integer.valueOf, restricted to ASCII digits

  function DigitsValue(s: string): nat
    requires AllDigits(s)
  {
    if s == [] then 0
    else DigitsValue(s[..|s| - 1]) * 10 + (s[|s| - 1] as int - '0' as int)
  }

  /** `Integer.valueOf(s)`: an optional sign and at least one digit, within
      the range of `int`; None stands for NumberFormatException. */
  function ParseInt(s: string): (r: Option<Int32>)
    ensures r.Some? ==> |s| > 0
  {
    if s == [] then None
    else if s[0] == '-' || s[0] == '+' then
      var body := s[1..];
      if body == [] || !AllDigits(body) then None
      else
        var v: int := if s[0] == '-' then 0 - DigitsValue(body) as int else DigitsValue(body);
        if MinInt <= v <= MaxInt then Some(v) else None
    else if !AllDigits(s) then None
    else
      var v := DigitsValue(s);
      if v <= MaxInt then Some(v) else None
  }

  lemma {:induction false} DigitsRoundTrip(n: nat)
    ensures |Digits(n)| > 0 && AllDigits(Digits(n))
    ensures DigitsValue(Digits(n)) == n
  {
    if n >= 10 {
      DigitsRoundTrip(n / 10);
      var s := Digits(n);
      assert s[..|s| - 1] == Digits(n / 10);
    }
  }

  /** Writing an int as text and reading it back with `Integer.valueOf`
      gives the same int. */
  lemma {:induction false} DecimalRoundTrip(n: Int32)
    ensures ParseInt(DecimalString(n)) == Some(n)
  {
    if n < 0 {
      var m: nat := 0 - n as int;
      DigitsRoundTrip(m);
      assert DecimalString(n)[1..] == Digits(m);
    } else {
      DigitsRoundTrip(n);
    }
  }

  // ---------------------------------------------------------------------
  // BufferedReader.readLine on the content of a file

  predicate IsLineEnd(c: char) {
    c == '\n' || c == '\r'
  }

  function LineOf(s: string): string {
    if s == [] || IsLineEnd(s[0]) then [] else [s[0]] + LineOf(s[1..])
  }

  /** The first line of a file whose content is s; None is the null returned
      for an empty file. */
  function FirstLine(s: string): Option<string> {
    if s == [] then None else Some(LineOf(s))
  }

  lemma {:induction false} LineOfPlain(s: string)
    requires forall i :: 0 <= i < |s| ==> !IsLineEnd(s[i])
    ensures LineOf(s) == s
  {
    if s != [] {
      LineOfPlain(s[1..]);
    }
  }

  /** The text of an int is read back whole as the first line of a file. */
  lemma {:induction false} DecimalIsOneLine(n: int)
    ensures FirstLine(DecimalString(n)) == Some(DecimalString(n))
  {
    var m: nat := if n < 0 then -n else n;
    DigitsRoundTrip(m);
    LineOfPlain(DecimalString(n));
  }
}
