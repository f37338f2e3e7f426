/** What the fleet shares about when to update, read from text rows
    (`FirmwareUpdateService.config` in app/services/firmware.py and the parsers it calls). */
module ConfigFlota {
  import opened Wrappers
  import opened Texto
  import Ajustes
  import Ventana

  datatype Lectura = Lectura(activo: bool, hora: int, ventanaMinutos: int, rollbackAuto: bool, baseUrl: string)

  /** An hour of the day and a window of one minute to twelve hours. */
  predicate Utilizable(c: Lectura) {
    && Ventana.HoraDelDia(c.hora)
    && 1 <= c.ventanaMinutos <= Ventana.VENTANA_MINUTOS_MAXIMA
  }

  type VentanaConfig = c: Lectura | Utilizable(c) witness Lectura(false, 0, 1, false, "")

  function Minuscula(c: char): char {
    if 'A' <= c <= 'Z' then c + ('a' - 'A') else if c == '\U{00CD}' then '\U{00ED}' else c
  }

  function Minusculas(s: string): string { seq(|s|, i requires 0 <= i < |s| => Minuscula(s[i])) }

  predicate ParseBandera(texto: string) {
    Minusculas(Strip(texto)) in {"true", "1", "si", ['s', '\U{00ED}'], "yes", "on"}
  }

  function ParseHora(texto: string): (r: Option<int>)
    ensures r.Some? ==> Ventana.HoraDelDia(r.value)
  {
    var t := Strip(texto);
    if |t| != 5 || t[2] != ':' || !SonDigitos(t[..2], 10) || !SonDigitos(t[3..], 10) then None else
    var horas, minutos := Numero(t[..2], 10), Numero(t[3..], 10);
    if horas > 23 || minutos > 59 then None else Some((60 * horas + minutos) * Ventana.MINUTO)
  }

  function ParseVentanaMinutos(texto: string): (r: Option<int>)
    ensures r.Some? ==> 1 <= r.value <= Ventana.VENTANA_MINUTOS_MAXIMA
  {
    var t := Strip(texto);
    if t == "" || !SonDigitos(t, 10) then None else
    var minutos := Numero(t, 10);
    if minutos < 1 || minutos > Ventana.VENTANA_MINUTOS_MAXIMA then None else Some(minutos)
  }

  /** A missing row reads as empty; a secret one is refused. */
  function Valor(filas: Ajustes.Tabla, clave: string): Result<string, Error> {
    var r := Ajustes.ValorPublico(filas, clave);
    if r == Err(NoEncontrado) then Ok("") else r
  }

  const ACTIVO := "FIRMWARE_UPDATE_ACTIVO"
  const BASE_URL := "GATEWAY_RELEASE_BASE_URL"
  const ROLLBACK := "FIRMWARE_ROLLBACK_AUTO"
  const HORA := "FIRMWARE_UPDATE_HORA"
  const VENTANA := "FIRMWARE_UPDATE_VENTANA_MINUTOS"

  /** Unusable texts turn the updates off and fall back to 03:00 and two hours, which the
      rollout still uses to write a date down. The window is read only after the hour. */
  function Config(filas: Ajustes.Tabla): Result<VentanaConfig, Error> {
    var activo :- Valor(filas, ACTIVO);
    var base :- Valor(filas, BASE_URL);
    var rollback :- Valor(filas, ROLLBACK);
    var apagada := Lectura(false, 180 * Ventana.MINUTO, 120, ParseBandera(rollback), Strip(base));
    var textoHora :- Valor(filas, HORA);
    match ParseHora(textoHora)
    case None => Ok(apagada)
    case Some(hora) =>
      var textoVentana :- Valor(filas, VENTANA);
      match ParseVentanaMinutos(textoVentana)
      case None => Ok(apagada)
      case Some(minutos) =>
        Ok(Lectura(ParseBandera(activo) && Strip(base) != "", hora, minutos, ParseBandera(rollback), Strip(base)))
  }

  /** The text a row contributes when it can be read. */
  function TextoDe(filas: Ajustes.Tabla, clave: string): string {
    if clave in filas then filas[clave].valor else ""
  }

  predicate Secreta(filas: Ajustes.Tabla, clave: string) { clave in filas && filas[clave].esSecreto }

  /** It fails closed: updates are on exactly when every text says so and none is hidden. */
  lemma FallaCerrado(filas: Ajustes.Tabla)
    ensures (Config(filas).Ok? && Config(filas).value.activo) <==>
      && ParseBandera(TextoDe(filas, ACTIVO)) && !Secreta(filas, ACTIVO)
      && Strip(TextoDe(filas, BASE_URL)) != "" && !Secreta(filas, BASE_URL)
      && ParseHora(TextoDe(filas, HORA)).Some? && !Secreta(filas, HORA)
      && ParseVentanaMinutos(TextoDe(filas, VENTANA)).Some? && !Secreta(filas, VENTANA)
      && !Secreta(filas, ROLLBACK)
  {
    forall clave
      ensures !Secreta(filas, clave) ==> Valor(filas, clave) == Ok(TextoDe(filas, clave))
      ensures Secreta(filas, clave) ==> Valor(filas, clave).Err?
    {}
  }

  /** A setting is hidden where it is read: the window is looked at only after a readable hour. */
  predicate AlgoOculto(filas: Ajustes.Tabla) {
    || Secreta(filas, ACTIVO) || Secreta(filas, BASE_URL) || Secreta(filas, ROLLBACK) || Secreta(filas, HORA)
    || (ParseHora(TextoDe(filas, HORA)).Some? && Secreta(filas, VENTANA))
  }

  /** Reading the settings fails exactly when one of those is hidden, and in one way only. */
  lemma ConfigFallaSii(filas: Ajustes.Tabla)
    ensures Config(filas).Err? <==> AlgoOculto(filas)
    ensures Config(filas).Err? ==> Config(filas).error == ReglaDeNegocio
  {
    forall clave
      ensures !Secreta(filas, clave) ==> Valor(filas, clave) == Ok(TextoDe(filas, clave))
      ensures Secreta(filas, clave) ==> Valor(filas, clave) == Err(ReglaDeNegocio)
    {}
  }

  // --- how each text is read -------------------------------------------------

  /** The same word but for capitals. */
  predicate SinCaja(s: string, w: string) {
    |s| == |w| && forall i :: 0 <= i < |s| ==>
      s[i] == w[i] || ('A' <= s[i] <= 'Z' && w[i] == s[i] + ('a' - 'A')) || (s[i] == '\U{00CD}' && w[i] == '\U{00ED}')
  }

  lemma MinusculasEs(s: string, w: string)
    requires forall i :: 0 <= i < |w| ==> !('A' <= w[i] <= 'Z') && w[i] != '\U{00CD}'
    ensures Minusculas(s) == w <==> SinCaja(s, w)
  {
    if SinCaja(s, w) {
      assert forall i :: 0 <= i < |s| ==> Minusculas(s)[i] == w[i];
    }
  }

  /** A flag is on only with one of six words, in capitals or not, with blanks around or not. */
  lemma BanderaSii(texto: string)
    ensures ParseBandera(texto) <==>
      || SinCaja(Strip(texto), "true") || SinCaja(Strip(texto), "1") || SinCaja(Strip(texto), "si")
      || SinCaja(Strip(texto), "s\U{00ED}") || SinCaja(Strip(texto), "yes") || SinCaja(Strip(texto), "on")
  {
    var t := Strip(texto);
    MinusculasEs(t, "true");
    MinusculasEs(t, "1");
    MinusculasEs(t, "si");
    MinusculasEs(t, "s\U{00ED}");
    MinusculasEs(t, "yes");
    MinusculasEs(t, "on");
    assert "s\U{00ED}" == ['s', '\U{00ED}'];
  }

  lemma DosCifras(p: nat, q: nat)
    requires p < 10 && q < 10
    ensures (10 * p + q) / 10 == p && (10 * p + q) % 10 == q
  {}

  lemma DigitoDePeso(c: char)
    requires EsDigito(c, 10)
    ensures 0 <= Peso(c) < 10 && Digito(Peso(c)) == c
  {}

  lemma DosDigitosDe(s: string)
    requires |s| == 2 && SonDigitos(s, 10)
    ensures Numero(s, 10) < 100 && DosDigitos(Numero(s, 10)) == s
  {
    DigitoDePeso(s[0]);
    DigitoDePeso(s[1]);
    NumeroDeDosCifras(s[0], s[1]);
    DosCifras(Peso(s[0]), Peso(s[1]));
    assert s == [s[0], s[1]];
  }

  lemma NumeroDeDosCifras(a: char, b: char)
    requires EsDigito(a, 10) && EsDigito(b, 10)
    ensures Numero([a, b], 10) == 10 * Peso(a) + Peso(b)
  {
    NumeroAlAgregar([], a, 10);
    NumeroAlAgregar([a], b, 10);
    assert [] + [a] == [a] && [a] + [b] == [a, b];
  }

  /** An hour is read exactly when the text, trimmed, is two digits below 24, a colon and two
      digits below 60. */
  lemma HoraSii(texto: string, hora: int)
    ensures ParseHora(texto) == Some(hora) <==>
      exists h: nat, m: nat ::
        h < 24 && m < 60 && Strip(texto) == DosDigitos(h) + ":" + DosDigitos(m) && hora == (60 * h + m) * Ventana.MINUTO
  {
    var t := Strip(texto);
    if ParseHora(texto) == Some(hora) {
      DosDigitosDe(t[..2]);
      DosDigitosDe(t[3..]);
      assert t == t[..2] + ":" + t[3..];
    }
    forall h: nat, m: nat | h < 24 && m < 60 && t == DosDigitos(h) + ":" + DosDigitos(m)
      ensures ParseHora(texto) == Some((60 * h + m) * Ventana.MINUTO)
    {
      HoraIdaYVuelta(h, m);
      StripRecorta(texto);
    }
  }

  /** A length is read exactly when the text, trimmed, is its number after any zeros. */
  lemma VentanaSii(texto: string, n: nat)
    ensures ParseVentanaMinutos(texto) == Some(n) <==>
      1 <= n <= 720 && exists k: nat :: Strip(texto) == Ceros(k) + Imprimir(n, 10)
  {
    var t := Strip(texto);
    if ParseVentanaMinutos(texto) == Some(n) {
      var k := CerosEImprimir(t);
    }
    forall k: nat | t == Ceros(k) + Imprimir(n, 10)
      ensures t != "" && SonDigitos(t, 10) && Numero(t, 10) == n
    {
      NumeroDeImprimir(n, 10);
      NumeroConCeros(Ceros(k), Imprimir(n, 10), 10);
    }
  }

  /** What settings that can be read say: with an hour and a length that can be read, those; without
      either of them, three in the morning and two hours, and no updates. */
  lemma ConfigDice(filas: Ajustes.Tabla)
    requires !AlgoOculto(filas)
    ensures Config(filas).Ok?
    ensures var c := Config(filas).value;
      var hora, minutos := ParseHora(TextoDe(filas, HORA)), ParseVentanaMinutos(TextoDe(filas, VENTANA));
      && c.rollbackAuto == ParseBandera(TextoDe(filas, ROLLBACK)) && c.baseUrl == Strip(TextoDe(filas, BASE_URL))
      && if hora.Some? && minutos.Some? then
           && c.hora == hora.value && c.ventanaMinutos == minutos.value
           && c.activo == (ParseBandera(TextoDe(filas, ACTIVO)) && c.baseUrl != "")
         else c.hora == 3 * 60 * 60_000_000 && c.ventanaMinutos == 120 && !c.activo
  {
    forall clave
      ensures !Secreta(filas, clave) ==> Valor(filas, clave) == Ok(TextoDe(filas, clave))
    {}
  }

  function DosDigitos(n: nat): string
    requires n < 100
  {
    [Digito(n / 10), Digito(n % 10)]
  }

  /** Every hour of the day is read back from its `HH:MM` form. */
  lemma HoraIdaYVuelta(horas: nat, minutos: nat)
    requires horas < 24 && minutos < 60
    ensures ParseHora(DosDigitos(horas) + ":" + DosDigitos(minutos)) == Some((60 * horas + minutos) * Ventana.MINUTO)
  {
    var hh, mm := DosDigitos(horas), DosDigitos(minutos);
    var t := hh + ":" + mm;
    assert t[..2] == hh && t[3..] == mm && t[2] == ':';
    NumeroDeDosDigitos(horas);
    NumeroDeDosDigitos(minutos);
    StripRecorta(t);
  }

  lemma NumeroDeDosDigitos(n: nat)
    requires n < 100
    ensures SonDigitos(DosDigitos(n), 10) && Numero(DosDigitos(n), 10) == n
  {
    var s := DosDigitos(n);
    assert s == [Digito(n / 10)] + [Digito(n % 10)];
    NumeroAlAgregar([], Digito(n / 10), 10);
    NumeroAlAgregar([Digito(n / 10)], Digito(n % 10), 10);
    assert [] + [Digito(n / 10)] == [Digito(n / 10)];
  }

  /** A number of minutes is read back exactly when it is a window: one minute to twelve hours. */
  lemma VentanaIdaYVuelta(n: nat)
    ensures ParseVentanaMinutos(Imprimir(n, 10)) == if 1 <= n <= Ventana.VENTANA_MINUTOS_MAXIMA then Some(n) else None
  {
    var s := Imprimir(n, 10);
    NumeroDeImprimir(n, 10);
    assert Strip(s) == s by {
      assert EsDigito(s[0], 10) && EsDigito(s[|s| - 1], 10);
      StripRecorta(s);
    }
  }

  // --- which settings there can be ------------------------------------------

  /** A whole minute of the day, a trimmed base address, and updates on only with an address. */
  predicate DeTabla(c: Lectura) {
    Utilizable(c) && c.hora % Ventana.MINUTO == 0 && Strip(c.baseUrl) == c.baseUrl && (c.activo ==> c.baseUrl != "")
  }

  function Publico(valor: string): Ajustes.Ajuste { Ajustes.Ajuste(valor, false, Ajustes.Plataforma, "") }

  function Bandera(b: bool): string { if b then "true" else "" }

  function HoraTexto(hora: int): string
    requires Ventana.HoraDelDia(hora)
  {
    var minutos := hora / Ventana.MINUTO;
    DosDigitos(minutos / 60) + ":" + DosDigitos(minutos % 60)
  }

  /** A table that says just that. */
  function TablaDe(c: Lectura): Ajustes.Tabla
    requires DeTabla(c)
  {
    map[
      ACTIVO := Publico(Bandera(c.activo)), BASE_URL := Publico(c.baseUrl), ROLLBACK := Publico(Bandera(c.rollbackAuto)),
      HORA := Publico(HoraTexto(c.hora)),
      VENTANA := Publico(Imprimir(c.ventanaMinutos, 10))]
  }

  lemma BanderaSeLee(b: bool)
    ensures ParseBandera(Bandera(b)) == b
  {
    StripRecorta("true");
    StripRecorta("");
    assert Minusculas("true") == "true" && Minusculas("") == "";
  }

  lemma ConfigDeTextos(filas: Ajustes.Tabla, c: Lectura)
    requires forall k :: !Secreta(filas, k)
    requires ParseBandera(TextoDe(filas, ACTIVO)) == c.activo && ParseBandera(TextoDe(filas, ROLLBACK)) == c.rollbackAuto
    requires Strip(TextoDe(filas, BASE_URL)) == c.baseUrl && (c.activo ==> c.baseUrl != "")
    requires ParseHora(TextoDe(filas, HORA)) == Some(c.hora)
    requires ParseVentanaMinutos(TextoDe(filas, VENTANA)) == Some(c.ventanaMinutos)
    ensures Config(filas) == Ok(c)
  {
    forall clave
      ensures Valor(filas, clave) == Ok(TextoDe(filas, clave))
    {
      assert !Secreta(filas, clave);
    }
  }

  lemma TextosDeTabla(c: Lectura, hora: string)
    requires DeTabla(c) && hora == HoraTexto(c.hora)
    ensures var t := TablaDe(c);
      && (forall k :: !Secreta(t, k))
      && TextoDe(t, ACTIVO) == Bandera(c.activo) && TextoDe(t, ROLLBACK) == Bandera(c.rollbackAuto)
      && TextoDe(t, BASE_URL) == c.baseUrl && TextoDe(t, VENTANA) == Imprimir(c.ventanaMinutos, 10)
      && TextoDe(t, HORA) == hora
  {}

  lemma HoraTextoSeLee(hora: int)
    requires Ventana.HoraDelDia(hora) && hora % Ventana.MINUTO == 0
    ensures ParseHora(HoraTexto(hora)) == Some(hora)
  {
    var minutos := hora / Ventana.MINUTO;
    HoraIdaYVuelta(minutos / 60, minutos % 60);
  }

  /** The settings come back from the table written for them. */
  lemma ConfigIdaYVuelta(c: Lectura)
    requires DeTabla(c)
    ensures Config(TablaDe(c)) == Ok(c)
  {
    TextosDeTabla(c, HoraTexto(c.hora));
    BanderaSeLee(c.activo);
    BanderaSeLee(c.rollbackAuto);
    HoraTextoSeLee(c.hora);
    VentanaIdaYVuelta(c.ventanaMinutos);
    ConfigDeTextos(TablaDe(c), c);
  }

  lemma ConfigEsDeTabla(filas: Ajustes.Tabla)
    requires Config(filas).Ok?
    ensures DeTabla(Config(filas).value)
  {
    StripRecorta(TextoDe(filas, BASE_URL));
  }

  /** Exactly which settings some table yields. */
  lemma ConfigPosibleSii(c: VentanaConfig)
    ensures DeTabla(c) <==> exists filas: Ajustes.Tabla :: Config(filas) == Ok(c)
  {
    if DeTabla(c) {
      ConfigIdaYVuelta(c);
    }
    forall filas: Ajustes.Tabla | Config(filas) == Ok(c)
      ensures DeTabla(c)
    {
      ConfigEsDeTabla(filas);
    }
  }
}
