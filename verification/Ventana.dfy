/** The daily update window (app/domain/firmware_update.py). Instants are UTC microseconds,
    days are counted from the epoch, and a window opens once per local day. */
module Ventana {

  const MINUTO: int := 60_000_000
  const DIA: int := 1440 * MINUTO
  const VENTANA_MINUTOS_MAXIMA := 720

  /** A time zone: its UTC offset at an instant, and the offset Python uses to turn a local
      day and hour into an instant (`fold=0`, gaps included). */
  datatype Zona = Zona(desvio: int -> int, desvioLocal: (int, int) -> int)

  /** The date on the calendar of the place at `ahora`. */
  function DiaLocal(ahora: int, z: Zona): int { (ahora + z.desvio(ahora)) / DIA }

  /** The UTC instant at which it is that day and that hour there. */
  function Instante(dia: int, hora: int, z: Zona): int { dia * DIA + hora - z.desvioLocal(dia, hora) }

  /** The loop of `proxima_ventana` from day `hoy + k` on, ending in its last line. */
  function ProximaDesde(k: int, ahora: int, hora: int, v: int, z: Zona): int
    requires -1 <= k <= 2
    decreases 2 - k
  {
    var inicio := Instante(DiaLocal(ahora, z) + k, hora, z);
    if k == 2 then inicio
    else if ahora < inicio then inicio
    else if ahora < inicio + v then ahora
    else ProximaDesde(k + 1, ahora, hora, v, z)
  }

  function ProximaVentana(ahora: int, hora: int, ventanaMinutos: int, z: Zona): int {
    ProximaDesde(-1, ahora, hora, ventanaMinutos * MINUTO, z)
  }

  function DentroDeVentana(ahora: int, aplicarDesde: int, ventanaMinutos: int): bool {
    aplicarDesde <= ahora && ahora < aplicarDesde + ventanaMinutos * MINUTO
  }

  // --- what the answer has to be --------------------------------------------

  /** Some daily window, of any day at all, is open at `t`. */
  ghost predicate Cubierto(t: int, hora: int, v: int, z: Zona) {
    exists d: int :: Instante(d, hora, z) <= t < Instante(d, hora, z) + v
  }

  /** `r` is the least instant from `ahora` on at which a window is open. */
  ghost predicate EsProxima(r: int, ahora: int, hora: int, v: int, z: Zona) {
    ahora <= r && Cubierto(r, hora, v, z) && forall t :: ahora <= t < r ==> !Cubierto(t, hora, v, z)
  }

  /** Windows open in the order of their days, and no three of them together. A place that
      moves across the date line repeats one opening; every smaller clock change repeats none. */
  ghost predicate DiasEnOrden(hora: int, z: Zona) {
    && (forall d: int, e: int :: d <= e ==> Instante(d, hora, z) <= Instante(e, hora, z))
    && (forall d: int, e: int :: d + 2 <= e ==> Instante(d, hora, z) < Instante(e, hora, z))
  }

  /** The last day whose window opens strictly before yesterday's. */
  function Anteayer(hoy: int, hora: int, z: Zona): int {
    if Instante(hoy - 2, hora, z) < Instante(hoy - 1, hora, z) then hoy - 2 else hoy - 3
  }

  /** What looking at three local days takes for granted: the window of the day before
      yesterday neither is still open while yesterday's is yet to start, nor, when all three
      are over, has the one of the day after tomorrow already opened. */
  predicate TresDiasBastan(ahora: int, hora: int, v: int, z: Zona) {
    var hoy := DiaLocal(ahora, z);
    && !(ahora < Instante(hoy - 1, hora, z) && ahora < Instante(Anteayer(hoy, hora, z), hora, z) + v)
    && !(Instante(hoy + 1, hora, z) + v <= ahora && Instante(hoy + 2, hora, z) < ahora)
  }

  lemma ProximaDesplegada(ahora: int, hora: int, v: int, z: Zona)
    ensures var hoy := DiaLocal(ahora, z);
      ProximaDesde(-1, ahora, hora, v, z) ==
        if ahora < Instante(hoy - 1, hora, z) then Instante(hoy - 1, hora, z)
        else if ahora < Instante(hoy - 1, hora, z) + v then ahora
        else if ahora < Instante(hoy, hora, z) then Instante(hoy, hora, z)
        else if ahora < Instante(hoy, hora, z) + v then ahora
        else if ahora < Instante(hoy + 1, hora, z) then Instante(hoy + 1, hora, z)
        else if ahora < Instante(hoy + 1, hora, z) + v then ahora
        else Instante(hoy + 2, hora, z)
  {
    var hoy := DiaLocal(ahora, z);
    assert hoy + -1 == hoy - 1;
    assert ProximaDesde(2, ahora, hora, v, z) == Instante(hoy + 2, hora, z);
    assert ProximaDesde(1, ahora, hora, v, z) ==
      if ahora < Instante(hoy + 1, hora, z) then Instante(hoy + 1, hora, z)
      else if ahora < Instante(hoy + 1, hora, z) + v then ahora
      else ProximaDesde(2, ahora, hora, v, z);
  }

  /** Between two consecutive windows nothing is open, so the start of the later one is the
      answer for any instant in between. */
  lemma InicioEsProxima(p: int, d: int, ahora: int, hora: int, v: int, z: Zona)
    requires DiasEnOrden(hora, z) && v > 0
    requires p < d && Instante(d, hora, z) <= Instante(p + 1, hora, z)
    requires Instante(p, hora, z) + v <= ahora <= Instante(d, hora, z)
    ensures EsProxima(Instante(d, hora, z), ahora, hora, v, z)
  {
    var r := Instante(d, hora, z);
    assert Instante(d, hora, z) <= r < Instante(d, hora, z) + v;
    forall t | ahora <= t < r
      ensures !Cubierto(t, hora, v, z)
    {
      forall e: int
        ensures !(Instante(e, hora, z) <= t < Instante(e, hora, z) + v)
      {
        assert e <= p || p + 1 <= e;
      }
    }
  }

  lemma AbiertaEsProxima(d: int, ahora: int, hora: int, v: int, z: Zona)
    requires Instante(d, hora, z) <= ahora < Instante(d, hora, z) + v
    ensures EsProxima(ahora, ahora, hora, v, z)
  {}

  /** When day `d`'s window is still open at `ahora` (or still to come) and starts before `r`,
      `r` is not the next instant. */
  lemma NoEsProxima(d: int, r: int, ahora: int, hora: int, v: int, z: Zona)
    requires v > 0
    requires ahora < Instante(d, hora, z) + v && Instante(d, hora, z) < r && ahora < r
    ensures !EsProxima(r, ahora, hora, v, z)
  {
    var t := if ahora < Instante(d, hora, z) then Instante(d, hora, z) else ahora;
    assert Cubierto(t, hora, v, z);
  }

  lemma AntesDeAyer(hoy: int, ahora: int, hora: int, v: int, z: Zona)
    requires v > 0 && DiasEnOrden(hora, z) && ahora < Instante(hoy - 1, hora, z)
    ensures EsProxima(Instante(hoy - 1, hora, z), ahora, hora, v, z) <==>
      Instante(Anteayer(hoy, hora, z), hora, z) + v <= ahora
  {
    var p := Anteayer(hoy, hora, z);
    assert Instante(hoy - 3, hora, z) < Instante(hoy - 1, hora, z);
    if ahora < Instante(p, hora, z) + v {
      NoEsProxima(p, Instante(hoy - 1, hora, z), ahora, hora, v, z);
    } else {
      InicioEsProxima(p, hoy - 1, ahora, hora, v, z);
    }
  }

  lemma TrasElDiaAnterior(d: int, ahora: int, hora: int, v: int, z: Zona)
    requires v > 0 && DiasEnOrden(hora, z)
    requires Instante(d - 1, hora, z) + v <= ahora
    requires ahora < Instante(d, hora, z) + v
    ensures EsProxima(if ahora < Instante(d, hora, z) then Instante(d, hora, z) else ahora, ahora, hora, v, z)
  {
    if ahora < Instante(d, hora, z) {
      InicioEsProxima(d - 1, d, ahora, hora, v, z);
    } else {
      AbiertaEsProxima(d, ahora, hora, v, z);
    }
  }

  /** The three-day loop answers the question about all days exactly when the window of the
      day before yesterday, or of the day after tomorrow, does not get in the way. */
  lemma ProximaVentanaExacta(ahora: int, hora: int, ventanaMinutos: int, z: Zona)
    requires ventanaMinutos >= 1 && DiasEnOrden(hora, z)
    ensures TresDiasBastan(ahora, hora, ventanaMinutos * MINUTO, z) <==>
      EsProxima(ProximaVentana(ahora, hora, ventanaMinutos, z), ahora, hora, ventanaMinutos * MINUTO, z)
  {
    var v, hoy := ventanaMinutos * MINUTO, DiaLocal(ahora, z);
    ProximaDesplegada(ahora, hora, v, z);
    var i0, i1, i2, i3 := Instante(hoy - 1, hora, z), Instante(hoy, hora, z), Instante(hoy + 1, hora, z), Instante(hoy + 2, hora, z);
    assert i0 <= i1 <= i2 <= i3;
    if ahora < i0 {
      AntesDeAyer(hoy, ahora, hora, v, z);
    } else if ahora < i0 + v {
      AbiertaEsProxima(hoy - 1, ahora, hora, v, z);
    } else if ahora < i1 + v {
      TrasElDiaAnterior(hoy, ahora, hora, v, z);
    } else if ahora < i2 + v {
      TrasElDiaAnterior(hoy + 1, ahora, hora, v, z);
    } else if ahora <= i3 {
      InicioEsProxima(hoy + 1, hoy + 2, ahora, hora, v, z);
    }
  }

  // --- when it holds --------------------------------------------------------

  /** No two offsets of the zone are more than `s` apart. */
  ghost predicate Separacion(s: int, z: Zona) {
    && (forall d: int, e: int, h: int :: z.desvioLocal(d, h) - z.desvioLocal(e, h) <= s)
    && (forall d: int, h: int, t: int ::
          -s <= z.desvioLocal(d, h) - z.desvio(t) <= s)
  }

  predicate HoraDelDia(hora: int) { 0 <= hora < DIA }

  /** The hour of the day on the clock of the place at `ahora`. */
  function HoraLocal(ahora: int, z: Zona): int { (ahora + z.desvio(ahora)) % DIA }

  /** From now to the window of the day after tomorrow the clock is put forward by a day at most,
      as every place that crossed the date line did. */
  predicate SinSaltoDeMasDeUnDia(ahora: int, hora: int, z: Zona) {
    z.desvioLocal(DiaLocal(ahora, z) + 2, hora) - z.desvio(ahora) <= DIA
  }

  /** Since the window of the day before yesterday the clock was put forward by no more than what
      the length of a window leaves of a day. */
  predicate SinAdelantoReciente(ahora: int, hora: int, v: int, z: Zona) {
    z.desvio(ahora) - z.desvioLocal(DiaLocal(ahora, z) - 2, hora) <= DIA - v
  }

  lemma TresDiasBastanAqui(ahora: int, hora: int, v: int, z: Zona)
    requires HoraDelDia(hora) && v >= 1
    requires Instante(DiaLocal(ahora, z) - 3, hora, z) <= Instante(DiaLocal(ahora, z) - 2, hora, z)
    requires SinAdelantoReciente(ahora, hora, v, z) && SinSaltoDeMasDeUnDia(ahora, hora, z)
    ensures TresDiasBastan(ahora, hora, v, z)
  {
    var hoy := DiaLocal(ahora, z);
    assert hoy * DIA <= ahora + z.desvio(ahora) < (hoy + 1) * DIA;
    assert Instante(hoy - 2, hora, z) + v <= ahora;
    assert ahora <= Instante(hoy + 2, hora, z);
  }

  /** The law at one instant, for what the clock of the place does in the days around it. Whatever
      it did before or does later is of no consequence, as long as the days come in order. */
  lemma ProximaVentanaEsLaProxima(ahora: int, hora: int, ventanaMinutos: int, z: Zona)
    requires HoraDelDia(hora) && ventanaMinutos >= 1 && DiasEnOrden(hora, z)
    requires SinAdelantoReciente(ahora, hora, ventanaMinutos * MINUTO, z) && SinSaltoDeMasDeUnDia(ahora, hora, z)
    ensures EsProxima(ProximaVentana(ahora, hora, ventanaMinutos, z), ahora, hora, ventanaMinutos * MINUTO, z)
  {
    TresDiasBastanAqui(ahora, hora, ventanaMinutos * MINUTO, z);
    ProximaVentanaExacta(ahora, hora, ventanaMinutos, z);
  }

  lemma AperturasSeparadas(d: int, e: int, hora: int, z: Zona, s: int)
    requires Separacion(s, z) && d < e
    ensures Instante(e, hora, z) - Instante(d, hora, z) >= DIA - s
  {
    assert z.desvioLocal(e, hora) - z.desvioLocal(d, hora) <= s;
    assert (e - d) * DIA >= DIA;
  }

  lemma SeparacionDaOrden(hora: int, z: Zona, s: int)
    requires Separacion(s, z) && s < DIA
    ensures DiasEnOrden(hora, z)
  {
    forall d: int, e: int | d < e
      ensures Instante(d, hora, z) < Instante(e, hora, z)
    {
      AperturasSeparadas(d, e, hora, z, s);
    }
    assert forall d: int, e: int :: d <= e ==> d < e || Instante(d, hora, z) == Instante(e, hora, z);
  }

  /** In particular the law holds at every instant, for every window up to the cap, wherever no
      two offsets are more than twelve hours apart. */
  lemma DoceHorasBastan(ahora: int, hora: int, ventanaMinutos: int, z: Zona)
    requires HoraDelDia(hora) && 1 <= ventanaMinutos <= VENTANA_MINUTOS_MAXIMA
    requires Separacion(720 * MINUTO, z)
    ensures EsProxima(ProximaVentana(ahora, hora, ventanaMinutos, z), ahora, hora, ventanaMinutos * MINUTO, z)
  {
    var hoy := DiaLocal(ahora, z);
    SeparacionDaOrden(hora, z, 720 * MINUTO);
    assert -720 * MINUTO <= z.desvioLocal(hoy - 2, hora) - z.desvio(ahora);
    assert z.desvioLocal(hoy + 2, hora) - z.desvio(ahora) <= 720 * MINUTO;
    ProximaVentanaEsLaProxima(ahora, hora, ventanaMinutos, z);
  }

  /** The law does fail for a place that skips a whole day. It goes from UTC-12 to UTC+12 one
      hour into a window that started at 23:00 and lasts twelve: the window is open, and the
      answer is the opening of the day after. */
  lemma ProximaVentanaPuedeFallar()
    ensures exists z: Zona, ahora: int, hora: int ::
      HoraDelDia(hora) && Separacion(DIA, z)
      && Cubierto(ahora, hora, 720 * MINUTO, z) && ProximaVentana(ahora, hora, 720, z) > ahora
  {
    var cambio, hora := -720 * MINUTO, 1380 * MINUTO;
    var z := Zona(
      t => if t < cambio then -720 * MINUTO else 720 * MINUTO,
      (d, h) => if d * DIA + h < 0 then -720 * MINUTO else 720 * MINUTO);
    assert DiaLocal(cambio, z) == 0;
    assert Instante(-2, hora, z) <= cambio < Instante(-2, hora, z) + 720 * MINUTO;
    assert Instante(-1, hora, z) == 660 * MINUTO;
    ProximaDesplegada(cambio, hora, 720 * MINUTO, z);
    assert ProximaVentana(cambio, hora, 720, z) == 660 * MINUTO;
    assert Separacion(DIA, z);
  }

  /** The loop runs out of days. */
  predicate LlegaAlFinal(ahora: int, hora: int, v: int, z: Zona) {
    var hoy := DiaLocal(ahora, z);
    Instante(hoy - 1, hora, z) + v <= ahora
    && Instante(hoy, hora, z) + v <= ahora
    && Instante(hoy + 1, hora, z) + v <= ahora
  }

  /** The last line, documented as unreachable, is what answers exactly when the clock went back,
      since tomorrow's window opened, by at least what is left of today plus the hour and the
      length of that window. Otherwise the answer is `ahora`, or an opening of those three days that
      is still ahead. */
  lemma FinalSii(ahora: int, hora: int, ventanaMinutos: int, z: Zona)
    requires DiasEnOrden(hora, z) && ventanaMinutos >= 1
    ensures var v, hoy := ventanaMinutos * MINUTO, DiaLocal(ahora, z);
      && (LlegaAlFinal(ahora, hora, v, z) <==>
            z.desvioLocal(hoy + 1, hora) - z.desvio(ahora) >= DIA - HoraLocal(ahora, z) + hora + v)
      && (LlegaAlFinal(ahora, hora, v, z) <==> Instante(hoy + 1, hora, z) + v <= ahora)
    ensures var p, hoy := ProximaVentana(ahora, hora, ventanaMinutos, z), DiaLocal(ahora, z);
      if LlegaAlFinal(ahora, hora, ventanaMinutos * MINUTO, z) then p == Instante(hoy + 2, hora, z)
      else p == ahora || (ahora < p && exists d :: hoy - 1 <= d <= hoy + 1 && p == Instante(d, hora, z))
  {
    var v, hoy := ventanaMinutos * MINUTO, DiaLocal(ahora, z);
    ProximaDesplegada(ahora, hora, v, z);
    assert ahora + z.desvio(ahora) == hoy * DIA + HoraLocal(ahora, z);
  }

  /** A date is in the past exactly when the loop ran out of days and the window of the day after
      tomorrow had already opened; never where the clock moves by a day at most. */
  lemma ProximaNoEsPasada(ahora: int, hora: int, ventanaMinutos: int, z: Zona)
    requires ventanaMinutos >= 1
    ensures ahora <= ProximaVentana(ahora, hora, ventanaMinutos, z) <==>
      !(LlegaAlFinal(ahora, hora, ventanaMinutos * MINUTO, z) && Instante(DiaLocal(ahora, z) + 2, hora, z) < ahora)
    ensures HoraDelDia(hora) && SinSaltoDeMasDeUnDia(ahora, hora, z) ==>
      ahora <= ProximaVentana(ahora, hora, ventanaMinutos, z)
  {
    ProximaDesplegada(ahora, hora, ventanaMinutos * MINUTO, z);
    assert ahora + z.desvio(ahora) < (DiaLocal(ahora, z) + 1) * DIA;
  }

  lemma FinalInalcanzableSinCambios(ahora: int, hora: int, ventanaMinutos: int, z: Zona)
    requires Separacion(0, z) && HoraDelDia(hora) && ventanaMinutos >= 1
    ensures !LlegaAlFinal(ahora, hora, ventanaMinutos * MINUTO, z)
  {
    SeparacionDaOrden(hora, z, 0);
    FinalSii(ahora, hora, ventanaMinutos, z);
    assert z.desvioLocal(DiaLocal(ahora, z) + 1, hora) - z.desvio(ahora) <= 0;
  }

  /** It can be reached: a zone that goes from UTC+11 back to UTC+8 at two in the morning
      repeats three hours of the previous day after the window of midnight is over. */
  lemma FinalAlcanzable()
    ensures exists z: Zona, ahora: int ::
      Separacion(180 * MINUTO, z) && LlegaAlFinal(ahora, 0, 60 * MINUTO, z)
  {
    var cambio := 10 * DIA + 120 * MINUTO - 660 * MINUTO;
    var z := Zona(
      t => if t < cambio then 660 * MINUTO else 480 * MINUTO,
      (d, h) => if d * DIA + h < 10 * DIA + 120 * MINUTO then 660 * MINUTO else 480 * MINUTO);
    assert z.desvio(cambio) == 480 * MINUTO;
    assert cambio + z.desvio(cambio) == 10 * DIA - 60 * MINUTO;
    assert DiaLocal(cambio, z) == 9;
    assert Instante(10, 0, z) == 10 * DIA - 660 * MINUTO;
    assert LlegaAlFinal(cambio, 0, 60 * MINUTO, z);
    assert Separacion(180 * MINUTO, z);
  }

  /** Permission given inside an open window runs past its end, by less than a window. Wherever in
      the window it is given, it is over before any later day's window opens, exactly when the
      clock is not put forward in between by more than two windows leave of a day. */
  lemma ConcesionTerminaAntes(d: int, hora: int, ventanaMinutos: int, z: Zona)
    requires DiasEnOrden(hora, z) && ventanaMinutos >= 1
    ensures forall ahora :: DentroDeVentana(ahora, Instante(d, hora, z), ventanaMinutos) ==>
      ahora + ventanaMinutos * MINUTO < Instante(d, hora, z) + 2 * ventanaMinutos * MINUTO
    ensures z.desvioLocal(d + 1, hora) - z.desvioLocal(d, hora) <= DIA - 2 * ventanaMinutos * MINUTO <==>
      forall ahora, e :: d < e && DentroDeVentana(ahora, Instante(d, hora, z), ventanaMinutos) ==>
        ahora + ventanaMinutos * MINUTO < Instante(e, hora, z)
  {
    var v := ventanaMinutos * MINUTO;
    var ultimo := Instante(d, hora, z) + v - 1;
    assert DentroDeVentana(ultimo, Instante(d, hora, z), ventanaMinutos);
    assert Instante(d + 1, hora, z) == Instante(d, hora, z) + DIA - (z.desvioLocal(d + 1, hora) - z.desvioLocal(d, hora));
    if z.desvioLocal(d + 1, hora) - z.desvioLocal(d, hora) <= DIA - 2 * v {
      assert forall e :: d < e ==> Instante(d + 1, hora, z) <= Instante(e, hora, z);
    } else {
      assert ultimo + v >= Instante(d + 1, hora, z);
    }
  }
}
