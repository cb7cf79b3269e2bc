/**
 * The few pieces of java.lang.String that the modelled code relies on:
 * `trim().isEmpty()` (the "blank" test used by every validator),
 * `toLowerCase()` / `equalsIgnoreCase` for attribute names, and the decimal
 * rendering of integers (`String.valueOf(int)`, `"" + int`, `"%.2f"` of a
 * price held in cents).
 */
module Texto {

  /** `String.trim()` drops every leading and trailing character whose code is at most U+0020. */
  predicate Aparavel(c: char) {
    c <= ' '
  }

  function TirarInicio(s: string): (r: string)
    ensures |r| <= |s| && r == s[|s| - |r|..]
    ensures forall i :: 0 <= i < |s| - |r| ==> Aparavel(s[i])
    ensures r != [] ==> !Aparavel(r[0])
  {
    if s != [] && Aparavel(s[0]) then TirarInicio(s[1..]) else s
  }

  function TirarFim(s: string): (r: string)
    ensures |r| <= |s| && r == s[..|r|]
    ensures forall i :: |r| <= i < |s| ==> Aparavel(s[i])
    ensures r != [] ==> !Aparavel(r[|r| - 1])
  {
    if s != [] && Aparavel(s[|s| - 1]) then TirarFim(s[..|s| - 1]) else s
  }

  /** `s[a..b]` is `s` with only trimmable characters cut off before `a` and from `b` on. */
  predicate Recorte(s: string, a: int, b: int) {
    0 <= a <= b <= |s| &&
    (forall i :: 0 <= i < a ==> Aparavel(s[i])) && (forall i :: b <= i < |s| ==> Aparavel(s[i]))
  }

  /**
   * `String.trim()`: the result is a slice of the input, everything cut off
   * at either end is trimmable, and the result neither starts nor ends with
   * a trimmable character.
   */
  function Trim(s: string): (r: string)
    ensures |r| <= |s|
    ensures exists a, b :: Recorte(s, a, b) && r == s[a..b]
    ensures r != [] ==> !Aparavel(r[0]) && !Aparavel(r[|r| - 1])
  {
    var t := TirarInicio(s);
    RecorteDeTrim(s, t, TirarFim(t));
    TirarFim(t)
  }

  /** Cutting trimmable characters off the front (giving `t`) and then off the back (giving `u`) leaves a slice of `s`. */
  lemma RecorteDeTrim(s: string, t: string, u: string)
    requires |t| <= |s| && t == s[|s| - |t|..] && forall i :: 0 <= i < |s| - |t| ==> Aparavel(s[i])
    requires |u| <= |t| && u == t[..|u|] && forall i :: |u| <= i < |t| ==> Aparavel(t[i])
    ensures Recorte(s, |s| - |t|, |s| - |t| + |u|) && u == s[|s| - |t|..|s| - |t| + |u|]
  {
    var a := |s| - |t|;
    forall i | a + |u| <= i < |s|
      ensures Aparavel(s[i])
    {
      assert s[i] == t[i - a];
    }
  }

  /** `s == null || s.trim().isEmpty()`; the model has no null strings, see README. */
  predicate EmBranco(s: string) {
    Trim(s) == []
  }

  /** A string is blank exactly when every one of its characters is trimmable. */
  lemma EmBrancoSeSoAparaveis(s: string)
    ensures EmBranco(s) <==> forall i :: 0 <= i < |s| ==> Aparavel(s[i])
  {
  }

  /** `Character.toLowerCase` restricted to ASCII letters. */
  function MinusculaChar(c: char): (d: char)
    ensures 'A' <= c <= 'Z' ==> 'a' <= d <= 'z' && d as int == c as int + 32
    ensures !('A' <= c <= 'Z') ==> d == c
  {
    if 'A' <= c <= 'Z' then (c as int + 32) as char else c
  }

  /** `String.toLowerCase()` on ASCII letters; other characters are kept. */
  function Minusculas(s: string): (r: string)
    ensures |r| == |s|
    ensures forall i :: 0 <= i < |s| ==> r[i] == MinusculaChar(s[i])
  {
    if s == [] then [] else [MinusculaChar(s[0])] + Minusculas(s[1..])
  }

  /** Text with no capital letter is its own lower case. */
  lemma MinusculasSemMaiusculas(s: string)
    requires forall i :: 0 <= i < |s| ==> !('A' <= s[i] <= 'Z')
    ensures Minusculas(s) == s
  {
    assert forall i :: 0 <= i < |s| ==> Minusculas(s)[i] == s[i];
  }

  /** The lower case of a text is the text whose every character is the lower case of the original's. */
  lemma MinusculasPorCaractere(s: string, t: string)
    requires |s| == |t| && forall i :: 0 <= i < |s| ==> MinusculaChar(s[i]) == t[i]
    ensures Minusculas(s) == t
  {
    assert forall i :: 0 <= i < |s| ==> Minusculas(s)[i] == t[i];
  }

  /** Lower-casing twice is lower-casing once. */
  lemma MinusculasIdempotente(s: string)
    ensures Minusculas(Minusculas(s)) == Minusculas(s)
  {
    var m := Minusculas(s);
    assert forall i :: 0 <= i < |m| ==> Minusculas(m)[i] == m[i];
  }

  /** `a.equalsIgnoreCase(b)` for ASCII text. */
  predicate IgualIgnorandoCaixa(a: string, b: string) {
    Minusculas(a) == Minusculas(b)
  }

  predicate EhDigito(c: char) {
    '0' <= c <= '9'
  }

  predicate SoDigitos(s: string) {
    forall i :: 0 <= i < |s| ==> EhDigito(s[i])
  }

  function Digito(d: int): (c: char)
    requires 0 <= d < 10
    ensures EhDigito(c)
  {
    ('0' as int + d) as char
  }

  function ValorDigito(c: char): (d: int)
    requires EhDigito(c)
    ensures 0 <= d < 10 && Digito(d) == c
  {
    c as int - '0' as int
  }

  /** The decimal value of a string of digits (what `Integer.parseInt` reads from it). */
  function ValorDecimal(s: string): nat
    requires SoDigitos(s)
  {
    if s == [] then 0 else ValorDecimal(s[..|s| - 1]) * 10 + ValorDigito(s[|s| - 1])
  }

  /** `String.valueOf(n)` for a non-negative n: digits only, most significant first. */
  function NatParaTexto(n: nat): (r: string)
    ensures r != [] && SoDigitos(r)
    decreases n
  {
    if n < 10 then [Digito(n)] else NatParaTexto(n / 10) + [Digito(n % 10)]
  }

  /** Rendering a number in decimal and reading it back gives the number. */
  lemma {:induction false} NatParaTextoIdaVolta(n: nat)
    ensures ValorDecimal(NatParaTexto(n)) == n
  {
    if n >= 10 {
      NatParaTextoIdaVolta(n / 10);
      var s := NatParaTexto(n);
      assert s[..|s| - 1] == NatParaTexto(n / 10);
    }
  }

  /** The rendering has no leading zero, except for the number zero itself. */
  lemma {:induction false} NatParaTextoSemZeroAEsquerda(n: nat)
    ensures NatParaTexto(n)[0] == '0' <==> n == 0
  {
    if n >= 10 {
      NatParaTextoSemZeroAEsquerda(n / 10);
    }
  }

  /** `String.valueOf(int)` / `"" + i`: a minus sign for negative numbers, then the digits. */
  function IntParaTexto(i: int): (r: string)
    ensures r != []
    ensures (r[0] == '-') <==> i < 0
    ensures i < 0 ==> SoDigitos(r[1..]) && ValorDecimal(r[1..]) == -i
    ensures i >= 0 ==> SoDigitos(r) && ValorDecimal(r) == i
  {
    if i < 0 then
      NatParaTextoIdaVolta(-i);
      assert ("-" + NatParaTexto(-i))[1..] == NatParaTexto(-i);
      "-" + NatParaTexto(-i)
    else
      NatParaTextoIdaVolta(i);
      NatParaTexto(i)
  }

  /**
   * `String.format(Locale.US, "%.2f", v)` for an amount v held exactly as a
   * whole number of cents: sign, whole units, a dot, exactly two digits.
   */
  function CentavosParaTexto(c: int): (r: string)
    ensures |r| >= 4 && r[|r| - 3] == '.'
    ensures EhDigito(r[|r| - 2]) && EhDigito(r[|r| - 1])
    ensures (r[0] == '-') <==> c < 0
  {
    var a := if c < 0 then -c else c;
    var unidades := NatParaTexto(a / 100);
    (if c < 0 then "-" else "") + unidades + "." + [Digito(a % 100 / 10), Digito(a % 10)]
  }

  /** Reading the rendered amount back (units, then the two decimals) gives the number of cents. */
  lemma CentavosParaTextoIdaVolta(c: nat)
    ensures var r := CentavosParaTexto(c);
            SoDigitos(r[..|r| - 3]) &&
            ValorDecimal(r[..|r| - 3]) * 100 + ValorDigito(r[|r| - 2]) * 10 + ValorDigito(r[|r| - 1]) == c
  {
    var r := CentavosParaTexto(c);
    assert r[..|r| - 3] == NatParaTexto(c / 100);
    NatParaTextoIdaVolta(c / 100);
  }
}
