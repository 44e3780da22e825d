/** Base-unit amounts: a human-denominated whole number of tokens is scaled by
    ten to the power of the token's decimal precision, the way
    `ethers.utils.parseUnits` does for the whole-number strings the liquidity
    script passes it. */
module Units {

  datatype Option<+T> = None | Some(value: T)

  /** Precision `parseUnits` assumes when no precision is given. */
  const DefaultDecimals: nat := 18
  /** Precision the script uses for USDC amounts. */
  const UsdcDecimals: nat := 6
  /** Precision the script uses for PERIVALON amounts. */
  const PerivalonDecimals: nat := 9

  /** 2^256: every uint256 argument of approve and addLiquidity is below it. */
  const Uint256Limit: nat := 0x1_0000_0000_0000_0000_0000_0000_0000_0000_0000_0000_0000_0000_0000_0000_0000_0000

  function Pow10(d: nat): (r: nat)
    ensures r >= 1
    ensures d > 0 ==> r >= 10
  {
    if d == 0 then 1 else 10 * Pow10(d - 1)
  }

  /** `n` whole tokens expressed in base units of a `decimals`-precision token.
      The amount divides evenly by 10^decimals and dividing gives `n` back, so
      no part of the quantity is lost (no floating point is involved). */
  function Scale(n: nat, decimals: nat): (r: nat)
    ensures r % Pow10(decimals) == 0 && r / Pow10(decimals) == n
    ensures n > 0 <==> r > 0
    ensures r >= n
  {
    var p := Pow10(decimals);
    MulDivExact(n, p);
    n * p
  }

  lemma MulDivExact(n: nat, p: nat)
    requires p >= 1
    ensures (n * p) % p == 0 && (n * p) / p == n
    ensures n * p >= n
  {
    var m := n * p;
    var q, r := m / p, m % p;
    // q * p <= m < (q + 1) * p pins the quotient down to n
    MulMono(q + 1, n, p);
    MulMono(n + 1, q, p);
    assert (q + 1) * p == q * p + p;
    assert (n + 1) * p == n * p + p;
    MulMono(1, p, n);
  }

  lemma MulMono(a: int, b: int, p: nat)
    ensures a <= b ==> a * p <= b * p
  {
    if a <= b {
      assert b * p == a * p + (b - a) * p;
    }
  }

  predicate IsDigit(c: char) {
    '0' <= c <= '9'
  }

  /** A non-empty string of decimal digits: the form of every amount literal
      in the script. */
  predicate IsWhole(s: string) {
    |s| > 0 && forall i :: 0 <= i < |s| ==> IsDigit(s[i])
  }

  /** The number a string of decimal digits denotes, most significant digit
      first. */
  function DecimalValue(s: string): nat
    requires forall i :: 0 <= i < |s| ==> IsDigit(s[i])
    decreases |s|
  {
    if s == [] then 0
    else 10 * DecimalValue(s[..|s| - 1]) + DigitValue(s[|s| - 1])
  }

  function DigitValue(c: char): (k: nat)
    requires IsDigit(c)
    ensures k < 10
  {
    c as int - '0' as int
  }

  function DigitChar(k: nat): (c: char)
    requires k < 10
    ensures IsDigit(c) && DigitValue(c) == k
  {
    ('0' as int + k) as char
  }

  /** The decimal rendering of `n`, without leading zeros. */
  function DigitsOf(n: nat): (s: string)
    ensures IsWhole(s)
    decreases n
  {
    if n < 10 then [DigitChar(n)] else DigitsOf(n / 10) + [DigitChar(n % 10)]
  }

  /** Reading back the rendering of `n` gives `n`. */
  lemma {:induction false} DecimalValueOfDigits(n: nat)
    ensures DecimalValue(DigitsOf(n)) == n
  {
    var s := DigitsOf(n);
    if n < 10 {
      assert s[..|s| - 1] == [];
    } else {
      assert s[..|s| - 1] == DigitsOf(n / 10);
      DecimalValueOfDigits(n / 10);
    }
  }

  /** `parseUnits(value, decimals)` restricted to whole-number strings: a
      string that is not a non-empty run of digits is an error. */
  function ParseUnits(value: string, decimals: nat := DefaultDecimals): (r: Option<nat>)
    ensures r.Some? <==> IsWhole(value)
    ensures r.Some? ==> r.value % Pow10(decimals) == 0 && r.value / Pow10(decimals) == DecimalValue(value)
  {
    if IsWhole(value) then Some(Scale(DecimalValue(value), decimals)) else None
  }

  /** Parsing the decimal rendering of a whole number `n` gives `n` base-unit
      scaled: the string and the number forms of an amount agree. */
  lemma ParseUnitsOfDigits(n: nat, decimals: nat)
    ensures ParseUnits(DigitsOf(n), decimals) == Some(n * Pow10(decimals))
  {
    DecimalValueOfDigits(n);
  }

  /** The five amount literals of the script parse to the whole numbers they
      spell, scaled by the precision given (or the default 18). */
  lemma ScriptLiterals()
    ensures ParseUnits("40000000", UsdcDecimals) == Some(Scale(40000000, UsdcDecimals))
    ensures ParseUnits("20000000") == Some(Scale(20000000, DefaultDecimals))
    ensures ParseUnits("5000000", PerivalonDecimals) == Some(Scale(5000000, PerivalonDecimals))
    ensures ParseUnits("4000000", PerivalonDecimals) == Some(Scale(4000000, PerivalonDecimals))
    ensures ParseUnits("10000000") == Some(Scale(10000000, DefaultDecimals))
  {
    assert "40000000" == [DigitChar(4)] + Zeros(7);
    assert "20000000" == [DigitChar(2)] + Zeros(7);
    assert "5000000" == [DigitChar(5)] + Zeros(6);
    assert "4000000" == [DigitChar(4)] + Zeros(6);
    assert "10000000" == [DigitChar(1)] + Zeros(7);
    DigitThenZeros(4, 7);
    DigitThenZeros(2, 7);
    DigitThenZeros(5, 6);
    DigitThenZeros(4, 6);
    DigitThenZeros(1, 7);
  }

  function Zeros(k: nat): (s: string)
    ensures |s| == k && forall i :: 0 <= i < k ==> s[i] == '0'
  {
    seq(k, _ => '0')
  }

  /** A digit `d` followed by `k` zeros denotes d * 10^k. */
  lemma {:induction false} DigitThenZeros(d: nat, k: nat)
    requires d < 10
    ensures IsWhole([DigitChar(d)] + Zeros(k))
    ensures DecimalValue([DigitChar(d)] + Zeros(k)) == d * Pow10(k)
  {
    var s := [DigitChar(d)] + Zeros(k);
    if k == 0 {
      assert s[..|s| - 1] == [];
    } else {
      assert s[..|s| - 1] == [DigitChar(d)] + Zeros(k - 1);
      DigitThenZeros(d, k - 1);
      assert d * Pow10(k) == 10 * (d * Pow10(k - 1));
    }
  }

  /** The exact base-unit values those amounts take. */
  lemma ScriptAmounts()
    ensures Scale(40000000, UsdcDecimals) == 40_000_000_000_000
    ensures Scale(20000000, DefaultDecimals) == 20_000_000_000_000_000_000_000_000
    ensures Scale(5000000, PerivalonDecimals) == 5_000_000_000_000_000
    ensures Scale(4000000, PerivalonDecimals) == 4_000_000_000_000_000
    ensures Scale(10000000, DefaultDecimals) == 10_000_000_000_000_000_000_000_000
  {
    assert Pow10(6) == 1_000_000;
    assert Pow10(9) == 1_000_000_000;
    assert Pow10(18) == 1_000_000_000_000_000_000;
  }
}
