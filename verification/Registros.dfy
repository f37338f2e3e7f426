/** Register addresses in the base they were read in (app/domain/firmware.py). */
module Registros {
  import opened Wrappers
  import opened Texto

  datatype Notacion = Decimal | Hex

  function Rellenar(d: string): string { Ceros(if |d| < 4 then 4 - |d| else 0) + d }

  /** At least four hexadecimal digits after 0x, or plain digits. */
  function AsFirmwareAddress(register: nat, notacion: Notacion): string {
    match notacion
    case Hex =>
      "0x" + Rellenar(Imprimir(register, 16))
    case Decimal => Imprimir(register, 10)
  }

  predicate PrefijoHex(s: string) { |s| >= 2 && s[0] == '0' && (s[1] == 'x' || s[1] == 'X') }

  /** The digits of a Python integer literal: single underscores may stand between them. */
  function Cifras(s: string, base: nat, trasDigito: bool): Option<string> {
    if s == "" then if trasDigito then Some("") else None
    else if EsDigito(s[0], base) then
      match Cifras(s[1..], base, true)
      case None => None
      case Some(resto) => Some([s[0]] + resto)
    else if s[0] == '_' && trasDigito then Cifras(s[1..], base, false)
    else None
  }

  /** How a text without blanks around it is read as a number. In base sixteen a `0x` may lead. */
  function LeerEntero(s: string, base: nat): Option<int> {
    var negativo := s != "" && s[0] == '-';
    var t := if s != "" && (s[0] == '-' || s[0] == '+') then s[1..] else s;
    var prefijo := base == 16 && PrefijoHex(t);
    match Cifras(if prefijo then t[2..] else t, base, prefijo)
    case None => None
    case Some(cs) =>
      if cs == "" then None
      else Some(if negativo then -(Numero(cs, base) as int) else Numero(cs, base))
  }

  function ParseAddress(value: string, notacion: Notacion): Result<int, Error> {
    var text := Strip(value);
    if text == "" then Err(Validacion)
    else if notacion.Decimal? && PrefijoHex(text) then Err(Validacion)
    else
      match LeerEntero(text, if notacion.Hex? then 16 else 10)
      case None => Err(Validacion)
      case Some(n) => Ok(n)
  }

  lemma {:induction false} CifrasDeDigitos(s: string, base: nat, trasDigito: bool)
    requires SonDigitos(s, base) && (s != "" || trasDigito)
    ensures Cifras(s, base, trasDigito) == Some(s)
  {
    if s != "" {
      CifrasDeDigitos(s[1..], base, true);
      assert s == [s[0]] + s[1..];
    }
  }

  lemma DigitosRecortados(s: string, base: nat)
    requires SonDigitos(s, base) && base <= 16
    ensures forall i :: 0 <= i < |s| ==> !EsEspacio(s[i]) && s[i] != '-' && s[i] != '+' && s[i] != 'x' && s[i] != 'X' && s[i] != '_'
  {
    assert forall i :: 0 <= i < |s| ==> EsDigito(s[i], base);
  }

  lemma LeerHex(t: string)
    requires SonDigitos(t, 16) && t != ""
    ensures LeerEntero("0x" + t, 16) == Some(Numero(t, 16))
  {
    var s := "0x" + t;
    assert s[2..] == t;
    CifrasDeDigitos(t, 16, true);
  }

  lemma LeerDecimal(t: string)
    requires SonDigitos(t, 10) && t != ""
    ensures LeerEntero(t, 10) == Some(Numero(t, 10))
  {
    DigitosRecortados(t, 10);
    CifrasDeDigitos(t, 10, false);
  }

  lemma HexRecortado(t: string)
    requires SonDigitos(t, 16) && t != ""
    ensures Recortado("0x" + t) && PrefijoHex("0x" + t)
  {
    DigitosRecortados(t, 16);
    var s := "0x" + t;
    assert s[|s| - 1] == t[|t| - 1];
  }

  lemma ParseHex(t: string)
    requires SonDigitos(t, 16) && t != ""
    ensures ParseAddress("0x" + t, Hex) == Ok(Numero(t, 16))
  {
    HexRecortado(t);
    StripRecorta("0x" + t);
    LeerHex(t);
  }

  lemma RellenarConserva(d: string)
    requires SonDigitos(d, 16)
    ensures SonDigitos(Rellenar(d), 16) && |Rellenar(d)| >= 4
    ensures Numero(Rellenar(d), 16) == Numero(d, 16)
  {
    NumeroConCeros(Ceros(if |d| < 4 then 4 - |d| else 0), d, 16);
  }

  lemma IdaYVueltaHex(r: nat)
    ensures ParseAddress(AsFirmwareAddress(r, Hex), Hex) == Ok(r)
    ensures |AsFirmwareAddress(r, Hex)| >= 6 && PrefijoHex(AsFirmwareAddress(r, Hex))
  {
    var d := Imprimir(r, 16);
    NumeroDeImprimir(r, 16);
    RellenarConserva(d);
    ParseHex(Rellenar(d));
  }

  lemma IdaYVueltaDecimal(r: nat)
    ensures ParseAddress(AsFirmwareAddress(r, Decimal), Decimal) == Ok(r)
    ensures !PrefijoHex(AsFirmwareAddress(r, Decimal))
  {
    var d := Imprimir(r, 10);
    NumeroDeImprimir(r, 10);
    DigitosRecortados(d, 10);
    StripRecorta(d);
    LeerDecimal(d);
  }

  /** What the firmware reads back is the register that was stored, in both notations and for
      any register, however long; and the decimal form is never taken for a hexadecimal one. */
  lemma IdaYVuelta(r: nat, notacion: Notacion)
    ensures ParseAddress(AsFirmwareAddress(r, notacion), notacion) == Ok(r)
    ensures notacion.Hex? <==> PrefijoHex(AsFirmwareAddress(r, notacion))
  {
    IdaYVueltaHex(r);
    IdaYVueltaDecimal(r);
  }

  /** Two registers are never written the same way. */
  lemma DireccionInyectiva(r: nat, s: nat, m: Notacion, n: Notacion)
    ensures AsFirmwareAddress(r, m) == AsFirmwareAddress(s, n) ==> r == s && m == n
  {
    IdaYVuelta(r, m);
    IdaYVuelta(s, n);
  }

  // --- what the operator may type -------------------------------------------

  /** What stands at a place: a digit, or an underscore between two digits; `antes` says whether one
      may also lead. */
  predicate GrupoEn(s: string, base: nat, antes: bool, i: nat)
    requires i < |s|
  {
    || EsDigito(s[i], base)
    || (s[i] == '_' && (if i == 0 then antes else s[i - 1] != '_') && i + 1 < |s| && s[i + 1] != '_')
  }

  predicate EnGrupos(s: string, base: nat, antes: bool) {
    forall i :: 0 <= i < |s| ==> GrupoEn(s, base, antes, i)
  }

  function SinGuiones(s: string): string {
    if s == "" then "" else if s[0] == '_' then SinGuiones(s[1..]) else [s[0]] + SinGuiones(s[1..])
  }

  lemma GrupoDeLaCola(s: string, base: nat, antes: bool, i: nat)
    requires 1 <= i < |s| && (s[0] == '_' ==> s[1] != '_')
    ensures GrupoEn(s, base, antes, i) <==> GrupoEn(s[1..], base, s[0] != '_', i - 1)
  {
    var t := s[1..];
    assert t[i - 1] == s[i] && (i > 1 ==> t[i - 2] == s[i - 1]) && (i < |t| ==> t[i] == s[i + 1]);
  }

  lemma ColaEnGrupos(s: string, base: nat, antes: bool)
    requires s != "" && GrupoEn(s, base, antes, 0)
    ensures EnGrupos(s, base, antes) <==> EnGrupos(s[1..], base, s[0] != '_')
  {
    var t, sigue := s[1..], s[0] != '_';
    if EnGrupos(s, base, antes) {
      forall i | 0 <= i < |t|
        ensures GrupoEn(t, base, sigue, i)
      {
        GrupoDeLaCola(s, base, antes, i + 1);
      }
    }
    if EnGrupos(t, base, sigue) {
      forall i | 0 <= i < |s|
        ensures GrupoEn(s, base, antes, i)
      {
        if i > 0 { GrupoDeLaCola(s, base, antes, i); }
      }
    }
  }

  lemma {:induction false} CifrasSii(s: string, base: nat, antes: bool)
    ensures Cifras(s, base, antes) ==
      if (if s == "" then antes else EnGrupos(s, base, antes)) then Some(SinGuiones(s)) else None
  {
    if s != "" {
      CifrasSii(s[1..], base, s[0] != '_');
      if GrupoEn(s, base, antes, 0) {
        ColaEnGrupos(s, base, antes);
      } else if s[0] == '_' && antes && |s| > 1 {
        assert !GrupoEn(s[1..], base, false, 0);
      }
    }
  }

  function Base(notacion: Notacion): nat { if notacion.Hex? then 16 else 10 }

  function ConSigno(signo: string, n: nat): int { if signo == "-" then -(n as int) else n }

  /** A sign or none, 0x or none if the notation is hexadecimal, and digits in groups. */
  predicate EsLectura(text: string, notacion: Notacion, n: int, signo: string, prefijo: string, cuerpo: string) {
    && text == signo + prefijo + cuerpo
    && (signo == "" || signo == "+" || signo == "-")
    && (prefijo == "" || (notacion.Hex? && (prefijo == "0x" || prefijo == "0X")))
    && EnGrupos(cuerpo, Base(notacion), prefijo != "") && SinGuiones(cuerpo) != ""
    && n == ConSigno(signo, Numero(SinGuiones(cuerpo), Base(notacion)))
  }

  lemma LeerSeLee(text: string, notacion: Notacion) returns (signo: string, prefijo: string, cuerpo: string)
    requires LeerEntero(text, Base(notacion)).Some?
    ensures EsLectura(text, notacion, LeerEntero(text, Base(notacion)).value, signo, prefijo, cuerpo)
  {
    signo := if text != "" && (text[0] == '-' || text[0] == '+') then text[..1] else "";
    var t := text[|signo|..];
    prefijo := if notacion.Hex? && PrefijoHex(t) then t[..2] else "";
    cuerpo := t[|prefijo|..];
    CifrasSii(cuerpo, Base(notacion), prefijo != "");
    Partes(text, signo, t, prefijo, cuerpo);
  }

  lemma Partes(text: string, signo: string, t: string, prefijo: string, cuerpo: string)
    requires |signo| <= |text| && text[..|signo|] == signo && t == text[|signo|..]
    requires |prefijo| <= |t| && t[..|prefijo|] == prefijo && cuerpo == t[|prefijo|..]
    ensures text == signo + prefijo + cuerpo
  {
    assert t == prefijo + cuerpo;
  }

  lemma EmpiezaConDigito(cuerpo: string, base: nat)
    requires cuerpo != "" && base <= 16 && EnGrupos(cuerpo, base, false)
    ensures EsDigito(cuerpo[0], base) && !PrefijoHex(cuerpo) && cuerpo[0] != '-' && cuerpo[0] != '+'
  {
    assert GrupoEn(cuerpo, base, false, 0);
    if |cuerpo| > 1 { assert GrupoEn(cuerpo, base, false, 1); }
  }

  lemma SinSigno(t: string, notacion: Notacion, prefijo: string, cuerpo: string)
    requires t == prefijo + cuerpo && EnGrupos(cuerpo, Base(notacion), prefijo != "") && SinGuiones(cuerpo) != ""
    requires prefijo == "" || (notacion.Hex? && (prefijo == "0x" || prefijo == "0X"))
    ensures t != "" && t[0] != '-' && t[0] != '+'
    ensures (notacion.Hex? && PrefijoHex(t)) <==> prefijo != ""
    ensures (if prefijo != "" then t[2..] else t) == cuerpo
    ensures notacion.Decimal? ==> !PrefijoHex(t)
  {
    if prefijo == "" {
      EmpiezaConDigito(cuerpo, Base(notacion));
      assert t == cuerpo;
    } else {
      assert t[2..] == cuerpo;
    }
  }

  lemma TrasElSigno(text: string, signo: string, t: string)
    requires text == signo + t && (signo == "" || signo == "+" || signo == "-")
    requires t != "" && t[0] != '-' && t[0] != '+'
    ensures text != "" && (text[0] == '-' <==> signo == "-")
    ensures (if text[0] == '-' || text[0] == '+' then text[1..] else text) == t
  {
    if signo == "" { assert text == t; } else { assert text[0] == signo[0] && text[1..] == t; }
  }

  lemma LeerTrasElSigno(text: string, base: nat, signo: string, t: string, cuerpo: string, cs: string)
    requires text == signo + t && (signo == "" || signo == "+" || signo == "-")
    requires t != "" && t[0] != '-' && t[0] != '+'
    requires (if base == 16 && PrefijoHex(t) then t[2..] else t) == cuerpo
    requires Cifras(cuerpo, base, base == 16 && PrefijoHex(t)) == Some(cs) && cs != ""
    ensures LeerEntero(text, base) == Some(ConSigno(signo, Numero(cs, base)))
  {
    TrasElSigno(text, signo, t);
  }

  lemma NoPareceHex(text: string, signo: string, t: string)
    requires text == signo + t && (signo == "" || signo == "+" || signo == "-")
    requires t != "" && !PrefijoHex(t)
    ensures text != "" && !PrefijoHex(text)
  {
    if signo == "" { assert text == t; } else { assert text[0] == signo[0]; }
  }

  lemma EnDosPartes(text: string, signo: string, prefijo: string, cuerpo: string)
    requires text == signo + prefijo + cuerpo
    ensures text == signo + (prefijo + cuerpo)
  {}

  lemma SeLeeLeer(text: string, notacion: Notacion, n: int, signo: string, prefijo: string, cuerpo: string)
    requires EsLectura(text, notacion, n, signo, prefijo, cuerpo)
    ensures LeerEntero(text, Base(notacion)) == Some(n)
    ensures text != "" && (notacion.Decimal? ==> !PrefijoHex(text))
  {
    var t := prefijo + cuerpo;
    EnDosPartes(text, signo, prefijo, cuerpo);
    SinSigno(t, notacion, prefijo, cuerpo);
    if notacion.Decimal? { NoPareceHex(text, signo, t); }
    CifrasDeCuerpo(cuerpo, Base(notacion), prefijo != "");
    LeerTrasElSigno(text, Base(notacion), signo, t, cuerpo, SinGuiones(cuerpo));
  }

  lemma CifrasDeCuerpo(cuerpo: string, base: nat, antes: bool)
    requires EnGrupos(cuerpo, base, antes) && SinGuiones(cuerpo) != ""
    ensures Cifras(cuerpo, base, antes) == Some(SinGuiones(cuerpo))
  {
    CifrasSii(cuerpo, base, antes);
  }

  /** Exactly what is read as an address, and as which: blanks around it never matter, and anything
      else is refused. */
  lemma ParseAddressSii(value: string, notacion: Notacion, n: int)
    ensures ParseAddress(value, notacion) == Ok(n) <==>
      exists signo: string, prefijo: string, cuerpo: string :: EsLectura(Strip(value), notacion, n, signo, prefijo, cuerpo)
    ensures ParseAddress(value, notacion).Err? ==> ParseAddress(value, notacion).error == Validacion
  {
    var text := Strip(value);
    if ParseAddress(value, notacion) == Ok(n) {
      var signo, prefijo, cuerpo := LeerSeLee(text, notacion);
    }
    forall signo: string, prefijo: string, cuerpo: string | EsLectura(text, notacion, n, signo, prefijo, cuerpo)
      ensures ParseAddress(value, notacion) == Ok(n)
    {
      SeLeeLeer(text, notacion, n, signo, prefijo, cuerpo);
    }
  }

  predicate CifrasHex(s: string) { forall i :: 0 <= i < |s| ==> '0' <= s[i] <= '9' || 'A' <= s[i] <= 'F' }

  predicate CifrasDecimales(s: string) { forall i :: 0 <= i < |s| ==> '0' <= s[i] <= '9' }

  lemma CifrasDe(r: nat)
    ensures CifrasHex(Imprimir(r, 16)) && CifrasDecimales(Imprimir(r, 10))
  {
    var h, d := Imprimir(r, 16), Imprimir(r, 10);
    assert forall i :: 0 <= i < |h| ==> EsDigito(h[i], 16);
    assert forall i :: 0 <= i < |d| ==> EsDigito(d[i], 10);
  }

  /** The shape the device maps use: in hexadecimal, 0x and then four digits, in capitals, or more
      only when four are not enough; in decimal, digits alone with no zero in front. */
  lemma FormaDeLaDireccion(r: nat)
    ensures exists cs: string ::
      AsFirmwareAddress(r, Hex) == "0x" + cs && CifrasHex(cs) && |cs| >= 4 && (|cs| > 4 ==> cs[0] != '0')
    ensures var d := AsFirmwareAddress(r, Decimal);
      d != "" && CifrasDecimales(d) && (|d| > 1 ==> d[0] != '0')
  {
    CifrasDe(r);
    ImprimirSinCeros(r, 16);
    ImprimirSinCeros(r, 10);
    var cs := Rellenar(Imprimir(r, 16));
    assert CifrasHex(cs);
    assert AsFirmwareAddress(r, Hex) == "0x" + cs;
  }
}
