/**
  Decimal formatting of truck numbers, as a format field `{n:03}` writes a
  non-negative integer: its decimal digits, padded on the left with zeros to
  at least three characters and never cut.
 */
module Formato {

  predicate EhDigito(c: char)
  {
    '0' <= c <= '9'
  }

  predicate SoDigitos(s: string)
  {
    forall i :: 0 <= i < |s| ==> EhDigito(s[i])
  }

  function Digito(v: nat): (c: char)
    requires v < 10
    ensures EhDigito(c)
  {
    ('0' as int + v) as char
  }

  function ValorDigito(c: char): (v: nat)
    requires EhDigito(c)
    ensures v < 10
  {
    c as int - '0' as int
  }

  /** The number a string of decimal digits denotes, most significant digit first. */
  function Valor(s: string): nat
    requires SoDigitos(s)
  {
    if s == [] then 0 else Valor(s[..|s| - 1]) * 10 + ValorDigito(s[|s| - 1])
  }

  /** The decimal digits of `n`, most significant first, with no leading zero. */
  function Decimal(n: nat): (s: string)
    ensures |s| >= 1 && SoDigitos(s)
    ensures s[0] == '0' ==> n == 0
    ensures n < 10 <==> |s| == 1
  {
    if n < 10 then [Digito(n)] else Decimal(n / 10) + [Digito(n % 10)]
  }

  /** Reading the decimal digits of `n` back gives `n`. */
  lemma {:induction false} ValorDecimal(n: nat)
    ensures Valor(Decimal(n)) == n
  {
    if n >= 10 {
      var s := Decimal(n);
      assert s[..|s| - 1] == Decimal(n / 10);
      ValorDecimal(n / 10);
    }
  }

  function Zeros(k: nat): (z: string)
    ensures |z| == k && SoDigitos(z)
    ensures forall i :: 0 <= i < k ==> z[i] == '0'
  {
    if k == 0 then [] else Zeros(k - 1) + ['0']
  }

  /** A string of zeros denotes 0. */
  lemma {:induction false} ValorZeros(k: nat)
    ensures Valor(Zeros(k)) == 0
  {
    if k > 0 {
      assert Zeros(k)[..k - 1] == Zeros(k - 1);
      ValorZeros(k - 1);
    }
  }

  /** Leading zeros do not change the number a digit string denotes. */
  lemma {:induction false} ValorZerosAEsquerda(k: nat, s: string)
    requires SoDigitos(s)
    ensures SoDigitos(Zeros(k) + s)
    ensures Valor(Zeros(k) + s) == Valor(s)
  {
    var t := Zeros(k) + s;
    assert SoDigitos(t) by {
      forall i | 0 <= i < |t| ensures EhDigito(t[i]) {
        if i >= k { assert t[i] == s[i - k]; }
      }
    }
    if s == [] {
      assert t == Zeros(k);
      ValorZeros(k);
    } else {
      assert t[..|t| - 1] == Zeros(k) + s[..|s| - 1];
      ValorZerosAEsquerda(k, s[..|s| - 1]);
    }
  }

  /** `s` padded on the left with zeros to at least `largura` characters. */
  function PreencherZeros(s: string, largura: nat): (r: string)
  {
    if |s| < largura then Zeros(largura - |s|) + s else s
  }

  /** `n` as the format field `{n:03}` writes it. */
  function Formatar03(n: nat): string
  {
    PreencherZeros(Decimal(n), 3)
  }

  /**
    `{n:03}` writes digits only, at least three of them, exactly three below
    1000, and they denote `n`; a number of three or more digits is written
    as it is, never cut.
   */
  lemma Formatar03Legivel(n: nat)
    ensures SoDigitos(Formatar03(n)) && Valor(Formatar03(n)) == n
    ensures |Formatar03(n)| >= 3
    ensures n < 1000 ==> |Formatar03(n)| == 3
    ensures |Decimal(n)| >= 3 ==> Formatar03(n) == Decimal(n)
  {
    var digitos := Decimal(n);
    ValorDecimal(n);
    DigitosDeMenorQueMil(n);
    if |digitos| < 3 {
      ValorZerosAEsquerda(3 - |digitos|, digitos);
    }
  }

  /** Numbers below 1000 have at most three decimal digits. */
  lemma DigitosDeMenorQueMil(n: nat)
    ensures n < 1000 ==> |Decimal(n)| <= 3
  {
  }

  /** Distinct numbers are formatted differently. */
  lemma Formatar03Injetiva(m: nat, n: nat)
    requires m != n
    ensures Formatar03(m) != Formatar03(n)
  {
    Formatar03Legivel(m);
    Formatar03Legivel(n);
  }
}
