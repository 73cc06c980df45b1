/** The CPF (Brazilian tax-payer number) validator of the associate model:
    eleven ASCII digits, not all equal, whose last two digits are the
    Receita Federal mod-11 check digits of the first nine and ten. */
module Cpf {
  import opened Text

  const MsgFormato := "CPF deve ter exatamente 11 dígitos numéricos."
  const MsgInvalido := "CPF inválido."

  /** `validar_cpf` returns normally or raises `ValidationError(message)`. */
  datatype Verdict = Accepted | Rejected(message: string)

  predicate DigitsUpTo(cpf: string, n: nat) {
    n <= |cpf| && forall i :: 0 <= i < n ==> IsDigit(cpf[i])
  }

  /** `sum(int(cpf[i]) * (top - i) for i in range(n))`. */
  function WeightedSum(cpf: string, n: nat, top: int): int
    requires DigitsUpTo(cpf, n)
  {
    if n == 0 then 0
    else WeightedSum(cpf, n - 1, top) + DigitValue(cpf[n - 1]) * (top - (n - 1))
  }

  /** `(soma * 10) % 11`, before 10 is mapped to 0. */
  function Raw(soma: int): (r: int)
    ensures 0 <= r <= 10
  {
    (soma * 10) % 11
  }

  /** A check digit: the raw value, with 10 replaced by 0. */
  function CheckDigit(soma: int): (d: int)
    ensures 0 <= d <= 9
    ensures Raw(soma) < 10 ==> d == Raw(soma)
    ensures Raw(soma) == 10 ==> d == 0
  {
    var r := Raw(soma);
    if r == 10 then 0 else r
  }

  /** First check digit: weights 10..2 over the first nine digits. */
  function FirstDigit(cpf: string): (d: int)
    requires DigitsUpTo(cpf, 9)
  {
    CheckDigit(WeightedSum(cpf, 9, 10))
  }

  /** Second check digit: weights 11..2 over the first ten digits of the
      INPUT (its own tenth digit, not the computed first check digit). */
  function SecondDigit(cpf: string): (d: int)
    requires DigitsUpTo(cpf, 10)
  {
    CheckDigit(WeightedSum(cpf, 10, 11))
  }

  predicate WellFormed(cpf: string) {
    |cpf| == 11 && AllDigits(cpf)
  }

  /** `cpf == cpf[0] * 11` */
  predicate Repeated(cpf: string)
    requires |cpf| == 11
  {
    cpf == seq(11, _ => cpf[0])
  }

  /** principais/models.py `validar_cpf`. */
  function ValidarCpf(cpf: string): (v: Verdict)
    ensures !WellFormed(cpf) ==> v == Rejected(MsgFormato)
    ensures WellFormed(cpf) && Repeated(cpf) ==> v == Rejected(MsgInvalido)
    ensures v.Rejected? ==> v.message in {MsgFormato, MsgInvalido}
    ensures v == Accepted <==>
      WellFormed(cpf) && !Repeated(cpf)
      && cpf[9] == DigitChar(FirstDigit(cpf))
      && cpf[10] == DigitChar(SecondDigit(cpf))
  {
    if |cpf| != 11 || !AllDigits(cpf) then Rejected(MsgFormato)
    else if cpf == seq(11, _ => cpf[0]) then Rejected(MsgInvalido)
    else if cpf[9..] != [DigitChar(FirstDigit(cpf)), DigitChar(SecondDigit(cpf))] then
      assert cpf[9..] != [cpf[9], cpf[10]] || cpf[9] != DigitChar(FirstDigit(cpf)) || cpf[10] != DigitChar(SecondDigit(cpf));
      Rejected(MsgInvalido)
    else
      assert cpf[9] == cpf[9..][0] && cpf[10] == cpf[9..][1];
      Accepted
  }

  /** A CPF built from nine digits by appending its two check digits. */
  function Complete(base: string): (cpf: string)
    requires |base| == 9 && AllDigits(base)
    ensures WellFormed(cpf) && cpf[..9] == base
  {
    var ten := base + [DigitChar(FirstDigit(base))];
    ten + [DigitChar(SecondDigit(ten))]
  }

  // ---------------------------------------------------------------------
  // Lemmas
  // ---------------------------------------------------------------------

  /** The weighted sum only reads the first `n` characters. */
  lemma {:induction false} WeightedSumPrefix(a: string, b: string, n: nat, top: int)
    requires DigitsUpTo(a, n) && DigitsUpTo(b, n) && a[..n] == b[..n]
    ensures WeightedSum(a, n, top) == WeightedSum(b, n, top)
  {
    if n > 0 {
      assert a[n - 1] == a[..n][n - 1] == b[..n][n - 1] == b[n - 1];
      assert a[..n - 1] == a[..n][..n - 1] == b[..n][..n - 1] == b[..n - 1];
      WeightedSumPrefix(a, b, n - 1, top);
    }
  }

  /** Changing the digit at position `i` moves the weighted sum by the
      change times that position's weight. */
  lemma {:induction false} WeightedSumUpdate(c: string, n: nat, top: int, i: nat, x: char)
    requires DigitsUpTo(c, n) && i < |c| && IsDigit(x)
    ensures DigitsUpTo(c[i := x], n)
    ensures WeightedSum(c[i := x], n, top)
         == WeightedSum(c, n, top) + (if i < n then (DigitValue(x) - DigitValue(c[i])) * (top - i) else 0)
  {
    if n > 0 {
      WeightedSumUpdate(c, n - 1, top, i, x);
      var c' := c[i := x];
      var w := top - (n - 1);
      if i == n - 1 {
        assert c'[n - 1] == x;
        MulSub(DigitValue(x), DigitValue(c[i]), w);
      } else {
        assert c'[n - 1] == c[n - 1];
      }
    }
  }

  lemma MulSub(a: int, b: int, w: int)
    ensures a * w - b * w == (a - b) * w
  {
  }

  /** Every string of eleven equal digits is refused. */
  lemma RepeatedRejected(d: char)
    requires IsDigit(d)
    ensures ValidarCpf(seq(11, _ => d)) == Rejected(MsgInvalido)
  {
    var s: string := seq(11, _ => d);
    assert s[0] == d;
  }

  /** Appending the two computed check digits to any nine digits gives an
      accepted CPF, unless all eleven digits come out equal. */
  lemma CompleteAccepted(base: string)
    requires |base| == 9 && AllDigits(base)
    ensures !Repeated(Complete(base)) ==> ValidarCpf(Complete(base)) == Accepted
  {
    var ten := base + [DigitChar(FirstDigit(base))];
    var cpf := Complete(base);
    assert cpf[..9] == base[..9];
    WeightedSumPrefix(cpf, base, 9, 10);
    assert cpf[..10] == ten[..10];
    WeightedSumPrefix(cpf, ten, 10, 11);
  }

  /** `(a + b) % 11 == a % 11` exactly when `b` is a multiple of 11, and
      multiplying by 10 (a unit modulo 11) keeps "multiple of 11". */
  lemma RawShift(s: int, k: int)
    ensures Raw(s + k) == Raw(s) <==> k % 11 == 0
  {
    var x := s * 10;
    var q := k / 11;
    var r := k % 11;
    assert (s + k) * 10 == (x + 10 * r) + 11 * (10 * q);
    ModAddMultiple(x + 10 * r, 10 * q);
    var a := x % 11;
    ModAddMultiple(a + 10 * r, x / 11);
    assert x + 10 * r == (a + 10 * r) + 11 * (x / 11);
    if r != 0 {
      assert (a + 10 * r) % 11 != a;
    }
  }

  lemma ModAddMultiple(y: int, m: int)
    ensures (y + 11 * m) % 11 == y % 11
  {
  }

  /** A nonzero digit difference times a weight in 2..10 is never a
      multiple of 11 (11 is prime). */
  lemma DigitChangeTimesWeight(delta: int, w: int)
    requires -9 <= delta <= 9 && delta != 0 && 2 <= w <= 10
    ensures (delta * w) % 11 != 0
  {
    var p := delta * w;
    var t := p / 11;
    var r := p % 11;
    assert p == 11 * t + r;
    assert -90 <= p <= 90;
  }

  /** What the check digits catch.  If a valid CPF has one digit changed and
      the result is still accepted, the change was among the first nine
      digits and it moved the first raw check value between 0 and 10, the
      two values that both give check digit 0. */
  lemma {:induction false} SingleChangeCaught(c: string, i: nat, x: char)
    requires ValidarCpf(c) == Accepted
    requires i < 11 && IsDigit(x) && x != c[i]
    ensures ValidarCpf(c[i := x]) == Accepted ==>
      i < 9 && {Raw(WeightedSum(c, 9, 10)), Raw(WeightedSum(c[i := x], 9, 10))} == {0, 10}
  {
    var c' := c[i := x];
    if ValidarCpf(c') == Accepted {
      if i == 9 {
        assert c'[..9] == c[..9];
        WeightedSumPrefix(c', c, 9, 10);
        assert false;
      } else if i == 10 {
        assert c'[..10] == c[..10];
        WeightedSumPrefix(c', c, 10, 11);
        assert false;
      } else {
        WeightedSumUpdate(c, 9, 10, i, x);
        var delta := DigitValue(x) - DigitValue(c[i]);
        DigitChangeTimesWeight(delta, 10 - i);
        RawShift(WeightedSum(c, 9, 10), delta * (10 - i));
        assert DigitValue(c'[9]) == DigitValue(c[9]);
      }
    }
  }

  /** Position 0 carries weight 11 in the second sum, a multiple of 11, so
      the second check digit never sees a change there. */
  lemma SecondDigitBlindToFirstPosition(c: string, x: char)
    requires WellFormed(c) && IsDigit(x)
    ensures DigitsUpTo(c[0 := x], 10)
    ensures SecondDigit(c[0 := x]) == SecondDigit(c)
  {
    WeightedSumUpdate(c, 10, 11, 0, x);
    var delta := DigitValue(x) - DigitValue(c[0]);
    assert (delta * 11) % 11 == 0;
    RawShift(WeightedSum(c, 10, 11), delta * 11);
  }

  /** Two accepted CPFs that differ only in their first digit: the check
      digits do not catch every single-digit typing error. */
  lemma UndetectedFirstDigitChange()
    ensures ValidarCpf("70499962206") == Accepted
    ensures ValidarCpf("70499962206"[0 := '8']) == Accepted
  {
    var a := "70499962206";
    WellFormedCounterexample(a, 298, 346);
    RawOf(298, 270, 10);
    RawOf(346, 314, 6);
    WellFormedCounterexample(a[0 := '8'], 308, 357);
    RawOf(308, 280, 0);
    RawOf(357, 324, 6);
  }

  /** `Raw` read off a division of `soma * 10` by 11 written out. */
  lemma RawOf(soma: int, q: int, r: int)
    requires soma * 10 == 11 * q + r && 0 <= r < 11
    ensures Raw(soma) == r
  {
  }

  /** Evaluates the two sums of "70499962206" and of the same digits with
      an 8 in front. */
  lemma WellFormedCounterexample(s: string, s1: int, s2: int)
    requires |s| == 11 && (s[0] == '7' || s[0] == '8')
    requires s[1] == '0' && s[2] == '4' && s[3] == '9' && s[4] == '9' && s[5] == '9'
    requires s[6] == '6' && s[7] == '2' && s[8] == '2' && s[9] == '0' && s[10] == '6'
    requires s1 == (if s[0] == '7' then 298 else 308)
    requires s2 == (if s[0] == '7' then 346 else 357)
    ensures WellFormed(s) && !Repeated(s)
    ensures WeightedSum(s, 9, 10) == s1 && WeightedSum(s, 10, 11) == s2
  {
    assert AllDigits(s);
    assert s[1] != s[0];
    var first := DigitValue(s[0]);
    assert WeightedSum(s, 1, 10) == first * 10;
    assert WeightedSum(s, 2, 10) == first * 10;
    assert WeightedSum(s, 3, 10) == first * 10 + 32;
    assert WeightedSum(s, 4, 10) == first * 10 + 95;
    assert WeightedSum(s, 5, 10) == first * 10 + 149;
    assert WeightedSum(s, 6, 10) == first * 10 + 194;
    assert WeightedSum(s, 7, 10) == first * 10 + 218;
    assert WeightedSum(s, 8, 10) == first * 10 + 224;
    assert WeightedSum(s, 9, 10) == first * 10 + 228;
    assert WeightedSum(s, 1, 11) == first * 11;
    assert WeightedSum(s, 2, 11) == first * 11;
    assert WeightedSum(s, 3, 11) == first * 11 + 36;
    assert WeightedSum(s, 4, 11) == first * 11 + 108;
    assert WeightedSum(s, 5, 11) == first * 11 + 171;
    assert WeightedSum(s, 6, 11) == first * 11 + 225;
    assert WeightedSum(s, 7, 11) == first * 11 + 255;
    assert WeightedSum(s, 8, 11) == first * 11 + 263;
    assert WeightedSum(s, 9, 11) == first * 11 + 269;
    assert WeightedSum(s, 10, 11) == first * 11 + 269;
  }
}
