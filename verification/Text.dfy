/** UTF-16 text as the gateway sees it: lengths, offsets and budgets all count code units. */
module Text {
  newtype CodeUnit = u: int | 0 <= u < 0x10000

  type Text = seq<CodeUnit>

  const TAB: CodeUnit := 9
  const LF: CodeUnit := 10
  const SPACE: CodeUnit := 32
  const HASH: CodeUnit := 35

  lemma NamedCharacters()
    ensures TAB as int == '\t' as int && LF as int == '\n' as int
    ensures SPACE as int == ' ' as int && HASH as int == '#' as int
  {
  }

  /** The code units of a string literal. */
  function Units(s: string): (t: Text)
    requires forall i | 0 <= i < |s| :: (s[i] as int) < 0x10000
    ensures |t| == |s|
  {
    seq(|s|, i requires 0 <= i < |s| && (s[i] as int) < 0x10000 => s[i] as int as CodeUnit)
  }

  /** The decimal numeral of `n`, as string interpolation prints it. */
  function Decimal(n: nat): (t: Text)
    ensures |t| == Digits(n)
  {
    var last := [(48 + n % 10) as CodeUnit];
    if n < 10 then last else Decimal(n / 10) + last
  }

  function Digits(n: nat): (d: nat)
    ensures d >= 1
  {
    if n < 10 then 1 else 1 + Digits(n / 10)
  }

  /** The number a row of decimal digits stands for. */
  function ValueOf(t: Text): nat
    requires forall i | 0 <= i < |t| :: 48 <= t[i] <= 57
  {
    if t == [] then 0 else 10 * ValueOf(t[..|t| - 1]) + (t[|t| - 1] as int - 48)
  }

  /** `t` is the decimal numeral of `n`: digits that stand for it, without a leading zero. */
  ghost predicate IsNumeral(t: Text, n: nat) {
    && t != []
    && (forall i | 0 <= i < |t| :: 48 <= t[i] <= 57)
    && ValueOf(t) == n
    && (t[0] == 48 ==> |t| == 1)
  }

  lemma {:induction false} DecimalIsNumeral(n: nat)
    ensures IsNumeral(Decimal(n), n)
  {
    var t := Decimal(n);
    if n < 10 {
      assert t[..0] == [];
    } else {
      DecimalIsNumeral(n / 10);
      var before := Decimal(n / 10);
      assert t[..|t| - 1] == before;
      assert |before| == 1 ==> before[..0] == [] && ValueOf(before) == before[0] as int - 48;
    }
  }

  lemma UnitsAreCharacters(s: string, i: nat)
    requires i < |s| && forall k | 0 <= k < |s| :: (s[k] as int) < 0x10000
    ensures Units(s)[i] as int == s[i] as int
  {
  }

  lemma DigitsMonotone(m: nat, n: nat)
    requires m <= n
    ensures Digits(m) <= Digits(n)
  {
    if 10 <= m {
      DigitsMonotone(m / 10, n / 10);
    }
  }

  function Pow10(k: nat): (p: nat)
    ensures p >= 1
  {
    if k == 0 then 1 else 10 * Pow10(k - 1)
  }

  /** A number has at most `k` digits exactly when it is below the k-th power of ten. */
  lemma DigitsBound(n: nat, k: nat)
    requires k >= 1
    ensures Digits(n) <= k <==> n < Pow10(k)
  {
    if n < 10 {
      assert Pow10(k) >= 10 by { assert Pow10(k) == 10 * Pow10(k - 1); }
    } else if k == 1 {
      assert Pow10(1) == 10 * Pow10(0);
    } else {
      DigitsBound(n / 10, k - 1);
      assert Pow10(k) == 10 * Pow10(k - 1);
    }
  }

  lemma {:induction false} DigitsStep(n: nat)
    requires n >= 1
    ensures Digits(n - 1) <= Digits(n) <= Digits(n - 1) + 1
  {
    if n >= 10 {
      if n % 10 == 0 {
        assert (n - 1) / 10 == n / 10 - 1;
        DigitsStep(n / 10);
      } else {
        assert (n - 1) / 10 == n / 10;
      }
    }
  }

  lemma {:induction false} StepsAddUp(f: nat -> nat, n: nat, k: nat)
    requires k <= n && forall m: nat :: f(m + 1) <= f(m) + 1
    ensures f(n) <= f(n - k) + k
    decreases k
  {
    if k > 0 {
      StepsAddUp(f, n, k - 1);
      assert f((n - k) + 1) <= f(n - k) + 1;
    }
  }

  /** 10, 100, 1000, ... */
  ghost predicate IsHigherPowerOfTen(n: nat) {
    exists k: nat :: k >= 1 && n == Pow10(k)
  }

  lemma PowersAddADigit(k: nat)
    requires k >= 1
    ensures Digits(Pow10(k) - 1) <= k < Digits(Pow10(k))
  {
    DigitsBound(Pow10(k) - 1, k);
    DigitsBound(Pow10(k), k);
  }

  lemma DigitsOfPower(k: nat)
    requires k >= 1
    ensures Digits(Pow10(k)) == k + 1
  {
    PowersAddADigit(k);
    DigitsStep(Pow10(k));
  }

  lemma OnlyPowersAddADigit(n: nat, d: nat)
    requires n >= 1 && d >= 1 && Digits(n - 1) <= d < Digits(n)
    ensures n == Pow10(d)
  {
    DigitsBound(n - 1, d);
    DigitsBound(n, d);
  }

  /** A larger power is further away than its exponent. */
  lemma {:induction false} PowersAreFarApart(k: nat, j: nat)
    requires j >= 1
    ensures Pow10(k + j) > Pow10(k) + j
    decreases j
  {
    if j > 1 {
      PowersAreFarApart(k, j - 1);
    }
    assert Pow10(k + j) == 10 * Pow10(k + j - 1);
  }

  /** The numerals get longer exactly at the powers of ten. */
  lemma DigitsGrowAtPowers(n: nat)
    requires n >= 1
    ensures Digits(n - 1) < Digits(n) <==> IsHigherPowerOfTen(n)
  {
    if Digits(n - 1) < Digits(n) {
      OnlyPowersAddADigit(n, Digits(n - 1));
    } else if IsHigherPowerOfTen(n) {
      var k: nat :| k >= 1 && n == Pow10(k);
      PowersAddADigit(k);
    }
  }

  /** The characters of `s` that are not line breaks, in order. */
  function NonBreaks(s: Text): Text {
    if s == [] then []
    else if s[0] == LF then NonBreaks(s[1..])
    else [s[0]] + NonBreaks(s[1..])
  }

  lemma NonBreaksConcat(a: Text, b: Text)
    ensures NonBreaks(a + b) == NonBreaks(a) + NonBreaks(b)
  {
    if a == [] {
      assert a + b == b;
    } else {
      assert (a + b)[1..] == a[1..] + b;
      NonBreaksConcat(a[1..], b);
    }
  }

  lemma NonBreaksOfBreaks(s: Text)
    requires forall k | 0 <= k < |s| :: s[k] == LF
    ensures NonBreaks(s) == []
  {
  }

  function TotalLength(parts: seq<Text>): nat {
    if parts == [] then 0 else |parts[0]| + TotalLength(parts[1..])
  }

  lemma TotalLengthAppend(parts: seq<Text>, part: Text)
    ensures TotalLength(parts + [part]) == TotalLength(parts) + |part|
  {
    if parts == [] {
      assert parts + [part] == [part];
    } else {
      assert (parts + [part])[1..] == parts[1..] + [part];
      TotalLengthAppend(parts[1..], part);
    }
  }

  /** The end of the longest run from `i` of characters that satisfy `p`. */
  function RunEnd(text: Text, p: CodeUnit -> bool, i: nat): (k: nat)
    requires i <= |text|
    ensures i <= k <= |text|
    ensures forall j | i <= j < k :: p(text[j])
    ensures k < |text| ==> !p(text[k])
    decreases |text| - i
  {
    if i < |text| && p(text[i]) then RunEnd(text, p, i + 1) else i
  }

  predicate IsLineFeed(c: CodeUnit) { c == LF }

  predicate IsHash(c: CodeUnit) { c == HASH }

  predicate IsSpaceBar(c: CodeUnit) { c == SPACE }
}
