/**
 * The "HH:MM" opening-hours rules of `Sistema` (horaFormatoValido,
 * horaDentroLimite, validarOrdemHorarios). The regular expression and
 * `Integer.parseInt` are written out over characters.
 */
module Horas {
  import opened Erros
  import opened Texto

  /** `hora.matches("\\d{2}:\\d{2}")`: exactly two ASCII digits, a colon, two ASCII digits. */
  function FormatoValido(h: string): (ok: bool)
    ensures ok ==> |h| == 5 && h[2] == ':' && SoDigitos(h[..2]) && SoDigitos(h[3..])
    ensures ok <== |h| == 5 && h[2] == ':' && SoDigitos(h[..2]) && SoDigitos(h[3..])
  {
    |h| == 5 && EhDigito(h[0]) && EhDigito(h[1]) && h[2] == ':' && EhDigito(h[3]) && EhDigito(h[4])
  }

  /** `Integer.parseInt(hora.split(":")[0])` on a well-formed hour. */
  function Hora(h: string): (n: int)
    requires FormatoValido(h)
    ensures n == ValorDecimal(h[..2]) && 0 <= n < 100
  {
    var d := h[..2];
    assert d[..1][..0] == [];
    assert ValorDecimal(d[..1]) == ValorDigito(h[0]);
    ValorDigito(h[0]) * 10 + ValorDigito(h[1])
  }

  /** `Integer.parseInt(hora.split(":")[1])` on a well-formed hour. */
  function Minuto(h: string): (n: int)
    requires FormatoValido(h)
    ensures n == ValorDecimal(h[3..]) && 0 <= n < 100
  {
    var d := h[3..];
    assert d[..1][..0] == [];
    assert ValorDecimal(d[..1]) == ValorDigito(h[3]);
    ValorDigito(h[3]) * 10 + ValorDigito(h[4])
  }

  /**
   * horaDentroLimite: hours 0..23 and minutes 0..59. The source only calls
   * it after the format check, where `parseInt` cannot fail.
   */
  function DentroLimite(h: string): (ok: bool)
    requires FormatoValido(h)
    ensures ok <==> 0 <= Hora(h) <= 23 && 0 <= Minuto(h) <= 59
  {
    !(Hora(h) < 0 || Hora(h) > 23 || Minuto(h) < 0 || Minuto(h) > 59)
  }

  /**
   * validarOrdemHorarios: closing must be strictly later than opening,
   * comparing hours first and minutes on a tie.
   */
  function OrdemValida(abre: string, fecha: string): (ok: bool)
    requires FormatoValido(abre) && FormatoValido(fecha)
    ensures ok <==> Hora(abre) < Hora(fecha) || (Hora(abre) == Hora(fecha) && Minuto(abre) < Minuto(fecha))
  {
    if Hora(fecha) < Hora(abre) then false
    else if Hora(fecha) == Hora(abre) && Minuto(fecha) <= Minuto(abre) then false
    else true
  }

  /** The "HH:MM" text of a clock reading with two-digit fields. */
  function Formatar(hora: int, minuto: int): (s: string)
    requires 0 <= hora < 100 && 0 <= minuto < 100
    ensures FormatoValido(s)
  {
    [Digito(hora / 10), Digito(hora % 10), ':', Digito(minuto / 10), Digito(minuto % 10)]
  }

  /** Reading back a formatted clock reading gives the same hour and minute. */
  lemma FormatarIdaVolta(hora: int, minuto: int)
    requires 0 <= hora < 100 && 0 <= minuto < 100
    ensures Hora(Formatar(hora, minuto)) == hora && Minuto(Formatar(hora, minuto)) == minuto
  {
  }

  /** Every well-formed hour is the formatting of the hour and minute read from it. */
  lemma FormatarVoltaIda(h: string)
    requires FormatoValido(h)
    ensures Formatar(Hora(h), Minuto(h)) == h
  {
    var f := Formatar(Hora(h), Minuto(h));
    assert f[0] == h[0] && f[1] == h[1] && f[3] == h[3] && f[4] == h[4];
  }

  /** An hour is accepted by the format and range checks exactly when it is a clock time of the day. */
  lemma DentroLimiteSeRelogio(h: string)
    ensures (FormatoValido(h) && DentroLimite(h)) <==>
            exists hora, minuto :: 0 <= hora <= 23 && 0 <= minuto <= 59 && h == Formatar(hora, minuto)
  {
    if FormatoValido(h) && DentroLimite(h) {
      FormatarVoltaIda(h);
    }
    forall hora, minuto | 0 <= hora <= 23 && 0 <= minuto <= 59 && h == Formatar(hora, minuto)
      ensures FormatoValido(h) && DentroLimite(h)
    {
      FormatarIdaVolta(hora, minuto);
    }
  }

  /** Minutes since midnight. */
  function MinutosDoDia(h: string): int
    requires FormatoValido(h)
  {
    Hora(h) * 60 + Minuto(h)
  }

  /**
   * Within the accepted range the order check is the comparison of the
   * minutes elapsed since midnight: closing must come strictly later.
   */
  lemma OrdemValidaSeMaisTarde(abre: string, fecha: string)
    requires FormatoValido(abre) && FormatoValido(fecha)
    requires DentroLimite(abre) && DentroLimite(fecha)
    ensures OrdemValida(abre, fecha) <==> MinutosDoDia(abre) < MinutosDoDia(fecha)
  {
  }

  /** A pair of opening and closing hours that passes every check of `alterarFuncionamento`. */
  predicate HorarioAceito(abre: string, fecha: string) {
    FormatoValido(abre) && FormatoValido(fecha) &&
    DentroLimite(abre) && DentroLimite(fecha) && OrdemValida(abre, fecha)
  }

  /** The "HH:MM" text of the minute `t` of the day. */
  function Relogio(t: int): (s: string)
    requires 0 <= t < 1440
    ensures FormatoValido(s) && DentroLimite(s)
  {
    FormatarIdaVolta(t / 60, t % 60);
    Formatar(t / 60, t % 60)
  }

  lemma RelogioIdaVolta(t: int)
    requires 0 <= t < 1440
    ensures MinutosDoDia(Relogio(t)) == t
  {
    FormatarIdaVolta(t / 60, t % 60);
  }

  /**
   * The accepted pairs are exactly the pairs of clock times of one day with
   * the closing time strictly later than the opening time.
   */
  lemma HorarioAceitoSeIntervalo(abre: string, fecha: string)
    ensures HorarioAceito(abre, fecha) <==>
            exists x, y :: 0 <= x < y < 1440 && abre == Relogio(x) && fecha == Relogio(y)
  {
    if HorarioAceito(abre, fecha) {
      var x, y := MinutosDoDia(abre), MinutosDoDia(fecha);
      OrdemValidaSeMaisTarde(abre, fecha);
      FormatarVoltaIda(abre);
      FormatarVoltaIda(fecha);
      assert x / 60 == Hora(abre) && x % 60 == Minuto(abre);
      assert y / 60 == Hora(fecha) && y % 60 == Minuto(fecha);
      assert abre == Relogio(x) && fecha == Relogio(y);
    }
    forall x, y | 0 <= x < y < 1440 && abre == Relogio(x) && fecha == Relogio(y)
      ensures HorarioAceito(abre, fecha)
    {
      RelogioIdaVolta(x);
      RelogioIdaVolta(y);
      OrdemValidaSeMaisTarde(abre, fecha);
    }
  }

  /**
   * The opening-hours checks of `alterarFuncionamento`, in their order: a
   * missing hour, then the "HH:MM" format of both, then their range, then
   * their order.
   */
  function ValidarFuncionamento(abre: Option<string>, fecha: Option<string>): (r: Option<Erro>)
    ensures r.None? <==> abre.Some? && fecha.Some? && HorarioAceito(abre.value, fecha.value)
    ensures r == Some(FormatoHoraInvalido) <==>
            abre.Some? && fecha.Some? && !(FormatoValido(abre.value) && FormatoValido(fecha.value))
    ensures r.Some? ==> r.value == HorarioInvalido || r.value == FormatoHoraInvalido
  {
    if abre.None? || fecha.None? then Some(HorarioInvalido)
    else if !FormatoValido(abre.value) || !FormatoValido(fecha.value) then Some(FormatoHoraInvalido)
    else if !DentroLimite(abre.value) || !DentroLimite(fecha.value) then Some(HorarioInvalido)
    else if !OrdemValida(abre.value, fecha.value) then Some(HorarioInvalido)
    else None
  }
}
