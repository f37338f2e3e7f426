/** How a firmware version is read, compared and written back (app/domain/firmware_update.py). */
module Versiones {
  import opened Wrappers
  import opened Texto

  datatype Version = Version(mayor: nat, menor: nat, parche: nat)

  predicate Digitos(s: string) { s != [] && SonDigitos(s, 10) }

  /** A greedy run of digits up to a dot, and what follows the dot. */
  function Corte(s: string): Option<(string, string)> {
    var i := LargoDigitos(s);
    if i == 0 || i >= |s| || s[i] != '.' then None else Some((s[..i], s[i + 1..]))
  }

  /** Three runs of digits with a dot between them. */
  function LeerTres(s: string): Option<Version> {
    match Corte(s)
    case None => None
    case Some((a, s1)) =>
      match Corte(s1)
      case None => None
      case Some((b, c)) =>
        if c == "" || LargoDigitos(c) != |c| then None
        else Some(Version(Numero(a, 10), Numero(b, 10), Numero(c, 10)))
  }

  function SinV(s: string): string {
    if s != [] && s[0] == 'v' then s[1..] else s
  }

  function ParseVersion(texto: string): Result<Version, Error> {
    match LeerTres(SinV(Strip(texto)))
    case Some(v) => Ok(v)
    case None => Err(Validacion)
  }

  function Escribir(v: Version): string {
    Imprimir(v.mayor, 10) + ("." + (Imprimir(v.menor, 10) + ("." + Imprimir(v.parche, 10))))
  }

  function NormalizarVersion(texto: string): Result<string, Error> {
    match ParseVersion(texto)
    case Ok(v) => Ok(Escribir(v))
    case Err(e) => Err(e)
  }

  predicate Menor(a: Version, b: Version) {
    a.mayor < b.mayor
    || (a.mayor == b.mayor && (a.menor < b.menor || (a.menor == b.menor && a.parche < b.parche)))
  }

  function Comparar(a: Version, b: Version): int {
    if Menor(a, b) then -1 else if a == b then 0 else 1
  }

  function CompararVersiones(una: string, otra: string): Result<int, Error> {
    match ParseVersion(una)
    case Err(e) => Err(e)
    case Ok(a) =>
      match ParseVersion(otra)
      case Err(e) => Err(e)
      case Ok(b) => Ok(Comparar(a, b))
  }

  /** `None` and unreadable texts are equal to nothing. */
  predicate MismaVersion(una: Option<string>, otra: Option<string>) {
    match (una, otra)
    case (Some(a), Some(b)) =>
      ParseVersion(a).Ok? && ParseVersion(b).Ok? && ParseVersion(a) == ParseVersion(b)
    case _ => false
  }

  predicate EsDescenso(desde: Option<string>, hacia: string) {
    desde.Some? && CompararVersiones(hacia, desde.value).Ok? && CompararVersiones(hacia, desde.value).value < 0
  }

  // --- the grammar ----------------------------------------------------------

  function Unir(a: string, b: string, c: string): string { a + ("." + (b + ("." + c))) }

  /** The grammar of a trimmed version: an optional v and three groups of digits between dots. */
  predicate Coincide(t: string, a: string, b: string, c: string) {
    Digitos(a) && Digitos(b) && Digitos(c) && (t == Unir(a, b, c) || t == "v" + Unir(a, b, c))
  }

  lemma CorteDe(a: string, r: string)
    requires Digitos(a)
    ensures Corte(a + ("." + r)) == Some((a, r))
  {
    LargoDigitosDe(a, "." + r);
    var s := a + ("." + r);
    assert s[..|a|] == a && s[|a| + 1..] == r;
  }

  lemma CorteCompleto(s: string)
    requires Corte(s).Some?
    ensures Digitos(Corte(s).value.0) && s == Corte(s).value.0 + ("." + Corte(s).value.1)
  {
    LargoDigitosCorta(s);
  }

  lemma LeerTresDe(a: string, b: string, c: string)
    requires Digitos(a) && Digitos(b) && Digitos(c)
    ensures LeerTres(Unir(a, b, c)) == Some(Version(Numero(a, 10), Numero(b, 10), Numero(c, 10)))
  {
    CorteDe(a, b + ("." + c));
    CorteDe(b, c);
    LargoDigitosDe(c, "");
    assert c + "" == c;
  }

  lemma LeerTresCompleto(s: string) returns (a: string, b: string, c: string)
    requires LeerTres(s).Some?
    ensures Digitos(a) && Digitos(b) && Digitos(c) && s == Unir(a, b, c)
  {
    var s1 := Corte(s).value.1;
    a, b, c := Corte(s).value.0, Corte(s1).value.0, Corte(s1).value.1;
    CorteCompleto(s);
    CorteCompleto(s1);
    LargoDigitosCorta(c);
    assert c[..|c|] == c;
  }

  lemma SinVDe(t: string, s: string)
    requires s != [] && EsDigito(s[0], 10)
    requires t == s || t == "v" + s
    ensures SinV(t) == s
  {}

  lemma ParseDeCoincide(texto: string, a: string, b: string, c: string)
    requires Coincide(Strip(texto), a, b, c)
    ensures ParseVersion(texto) == Ok(Version(Numero(a, 10), Numero(b, 10), Numero(c, 10)))
  {
    var s := Unir(a, b, c);
    assert SinV(Strip(texto)) == s by {
      assert s[0] == a[0] && EsDigito(a[0], 10);
      SinVDe(Strip(texto), s);
    }
    LeerTresDe(a, b, c);
  }

  lemma LeidaCoincide(texto: string) returns (a: string, b: string, c: string)
    requires ParseVersion(texto).Ok?
    ensures Coincide(Strip(texto), a, b, c)
  {
    var t := Strip(texto);
    a, b, c := LeerTresCompleto(SinV(t));
    assert t == "v" + SinV(t) || t == SinV(t);
  }

  /** The reader accepts exactly the texts of the grammar, and reads the three groups. */
  lemma ParseVersionEsLaGramatica(texto: string)
    ensures ParseVersion(texto).Ok? <==> exists a, b, c :: Coincide(Strip(texto), a, b, c)
    ensures ParseVersion(texto).Err? ==> ParseVersion(texto).error == Validacion
    ensures forall a, b, c :: Coincide(Strip(texto), a, b, c) ==>
      ParseVersion(texto) == Ok(Version(Numero(a, 10), Numero(b, 10), Numero(c, 10)))
  {
    var t := Strip(texto);
    forall a, b, c | Coincide(t, a, b, c)
      ensures ParseVersion(texto) == Ok(Version(Numero(a, 10), Numero(b, 10), Numero(c, 10)))
    {
      ParseDeCoincide(texto, a, b, c);
    }
    if ParseVersion(texto).Ok? {
      var a, b, c := LeidaCoincide(texto);
    }
  }

  // --- the canonical form ---------------------------------------------------

  lemma ParseDeEscribir(v: Version)
    ensures ParseVersion(Escribir(v)) == Ok(v)
  {
    var a, b, c := Imprimir(v.mayor, 10), Imprimir(v.menor, 10), Imprimir(v.parche, 10);
    NumeroDeImprimir(v.mayor, 10);
    NumeroDeImprimir(v.menor, 10);
    NumeroDeImprimir(v.parche, 10);
    UnirRecortado(a, b, c);
    StripRecorta(Escribir(v));
    ParseDeCoincide(Escribir(v), a, b, c);
  }

  lemma UnirRecortado(a: string, b: string, c: string)
    requires Digitos(a) && Digitos(b) && Digitos(c)
    ensures Recortado(Unir(a, b, c))
  {
    var s := Unir(a, b, c);
    assert s[0] == a[0] && s[|s| - 1] == c[|c| - 1];
    assert EsDigito(a[0], 10) && EsDigito(c[|c| - 1], 10);
  }

  /** Normalising keeps the numbers, is idempotent, and never fails on its own output. */
  lemma NormalizarEsCanonica(texto: string)
    requires ParseVersion(texto).Ok?
    ensures NormalizarVersion(texto).Ok?
    ensures ParseVersion(NormalizarVersion(texto).value) == ParseVersion(texto)
    ensures NormalizarVersion(NormalizarVersion(texto).value) == NormalizarVersion(texto)
    ensures exists a: nat, b: nat, c: nat ::
      NormalizarVersion(texto).value == Unir(Imprimir(a, 10), Imprimir(b, 10), Imprimir(c, 10))
  {
    var v := ParseVersion(texto).value;
    ParseDeEscribir(v);
    assert NormalizarVersion(texto).value == Unir(Imprimir(v.mayor, 10), Imprimir(v.menor, 10), Imprimir(v.parche, 10));
  }

  /** Two texts name the same version iff their canonical forms are the same text:
      `v`, blanks and leading zeros never matter. A version nobody reported is none. */
  lemma MismaVersionPorForma(una: string, otra: string)
    ensures MismaVersion(Some(una), Some(otra)) <==>
      NormalizarVersion(una).Ok? && NormalizarVersion(una) == NormalizarVersion(otra)
    ensures !MismaVersion(None, Some(otra)) && !MismaVersion(Some(una), None) && !MismaVersion(None, None)
  {
    if NormalizarVersion(una).Ok? && NormalizarVersion(una) == NormalizarVersion(otra) {
      NormalizarEsCanonica(una);
      NormalizarEsCanonica(otra);
    }
  }

  /** Comparison is a total order on what can be read, with `misma_version` as its equality,
      and it fails exactly when one of the two texts cannot be read. */
  lemma CompararEsOrdenTotal(a: string, b: string, c: string)
    ensures CompararVersiones(a, b).Ok? <==> ParseVersion(a).Ok? && ParseVersion(b).Ok?
    ensures CompararVersiones(a, b).Ok? ==> CompararVersiones(a, b).value in {-1, 0, 1}
    ensures CompararVersiones(a, b).Ok? ==>
      CompararVersiones(b, a) == Ok(-CompararVersiones(a, b).value)
    ensures CompararVersiones(a, b) == Ok(0) <==> MismaVersion(Some(a), Some(b))
    ensures CompararVersiones(a, b).Ok? && CompararVersiones(b, c).Ok? ==>
      CompararVersiones(a, c).Ok?
      && (CompararVersiones(a, b).value <= 0 && CompararVersiones(b, c).value <= 0 ==>
            CompararVersiones(a, c).value <= 0
            && (CompararVersiones(a, c).value == 0 ==> CompararVersiones(a, b).value == 0))
  {
    match (ParseVersion(a), ParseVersion(b), ParseVersion(c))
    case (Ok(x), Ok(y), Ok(z)) =>
    case _ =>
  }

  function Numeros(v: Version): seq<nat> { [v.mayor, v.menor, v.parche] }

  /** Installing is a step back exactly when both versions can be read and the new one is smaller,
      number by number; it is never one to the same version. */
  lemma EsDescensoSii(desde: string, hacia: string)
    ensures EsDescenso(Some(desde), hacia) <==>
      && ParseVersion(desde).Ok? && ParseVersion(hacia).Ok?
      && var xs, ys := Numeros(ParseVersion(hacia).value), Numeros(ParseVersion(desde).value);
         exists k :: 0 <= k < 3 && xs[..k] == ys[..k] && xs[k] < ys[k]
    ensures !EsDescenso(None, hacia)
    ensures EsDescenso(Some(desde), hacia) ==> !MismaVersion(Some(desde), Some(hacia)) && !EsDescenso(Some(hacia), desde)
  {
    if ParseVersion(desde).Ok? && ParseVersion(hacia).Ok? {
      MenorEnElPrimero(ParseVersion(hacia).value, ParseVersion(desde).value);
    }
  }

  /** Less at the first number in which they differ. */
  lemma MenorEnElPrimero(a: Version, b: Version)
    ensures Menor(a, b) <==> exists k :: 0 <= k < 3 && Numeros(a)[..k] == Numeros(b)[..k] && Numeros(a)[k] < Numeros(b)[k]
  {
    var xs, ys := Numeros(a), Numeros(b);
    assert xs[..0] == ys[..0] && xs[..1] == [a.mayor] && ys[..1] == [b.mayor];
    assert xs[..2] == [a.mayor, a.menor] && ys[..2] == [b.mayor, b.menor];
    if Menor(a, b) {
      var k := if a.mayor != b.mayor then 0 else if a.menor != b.menor then 1 else 2;
      assert xs[..k] == ys[..k] && xs[k] < ys[k];
    }
    forall k | 0 <= k < 3 && xs[..k] == ys[..k] && xs[k] < ys[k]
      ensures Menor(a, b)
    {
      assert k > 0 ==> xs[..k][0] == ys[..k][0];
      assert k > 1 ==> xs[..k][1] == ys[..k][1];
    }
  }
}
